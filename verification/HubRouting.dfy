/** The choice of a route and its fallbacks (apps/hub/src/routing.ts). */
module HubRouting {
  import opened Prelude
  import opened HubConfig
  import opened StableSort

  datatype HubError = RouteNotFound | InvalidHubConfig

  datatype Resolved = Resolved(route: Route, upstream: Upstream, targetProtocol: Protocol, targetModel: string)

  /** The position of an upstream id in the collation that sorting uses; ids may tie. */
  type Collation = string -> int

  function ByPriorityThenUpstream(rank: Collation): (Route, Route) -> bool {
    (a: Route, b: Route) => a.priority > b.priority
      || (a.priority == b.priority && rank(a.upstream) <= rank(b.upstream))
  }

  function ByPriority(): (Route, Route) -> bool {
    (a: Route, b: Route) => a.priority >= b.priority
  }

  lemma RouteOrders(rank: Collation)
    ensures TotalPreorder(ByPriorityThenUpstream(rank)) && TotalPreorder(ByPriority())
  {
  }

  predicate Accepts(r: Route, protocol: Option<Protocol>) {
    protocol.None? || r.sourceProtocol.None? || r.sourceProtocol == protocol
  }

  function ForModel(protocol: Protocol, model: string): Route -> bool {
    (r: Route) => Accepts(r, Some(protocol)) && r.model == model
  }

  function ForModelOn(protocol: Protocol, model: string, upstream: string): Route -> bool {
    (r: Route) => Accepts(r, Some(protocol)) && r.model == model && r.upstream == upstream
  }

  function ResolveRouteTarget(config: Config, route: Route, upstreamId: string, fallbackModel: string)
    : Result<Resolved, HubError>
  {
    var upstream := Find(config.upstreams, upstreamId);
    if upstream.None? then Err(InvalidHubConfig)
    else
      var kind := upstream.value.kind;
      Ok(Resolved(route, upstream.value,
                  if route.targetProtocol.Some? then route.targetProtocol.value else DefaultTargetProtocol(kind),
                  if route.targetModel.Some? then route.targetModel.value
                  else if DefaultTargetModel(kind).Some? then DefaultTargetModel(kind).value
                  else fallbackModel))
  }

  function ResolveHubRoute(config: Config, rank: Collation, protocol: Protocol, model: string)
    : Result<Resolved, HubError>
  {
    var routes := Sort(Filter(config.routes, ForModel(protocol, model)), ByPriorityThenUpstream(rank));
    if routes == [] then Err(RouteNotFound) else ResolveRouteTarget(config, routes[0], routes[0].upstream, model)
  }

  /** The configured route for a fallback upstream, or else the primary one without its target settings. */
  function FallbackRoute(config: Config, primary: Route, protocol: Protocol, model: string, upstreamId: string): Route {
    var explicit := Sort(Filter(config.routes, ForModelOn(protocol, model, upstreamId)), ByPriority());
    if explicit != [] then explicit[0] else primary.(targetProtocol := None, targetModel := None)
  }

  function FallbackCandidates(config: Config, primary: Route, ids: seq<string>, protocol: Protocol, model: string)
    : (r: Result<seq<Resolved>, HubError>)
    ensures r.Ok? ==> |r.value| == |ids|
  {
    if ids == [] then Ok([])
    else
      var first := ResolveRouteTarget(config, FallbackRoute(config, primary, protocol, model, ids[0]), ids[0], model);
      var rest := FallbackCandidates(config, primary, ids[1..], protocol, model);
      if first.Err? then Err(first.error) else if rest.Err? then Err(rest.error) else Ok([first.value] + rest.value)
  }

  /** The upstreams a request is offered to, in order: the primary route's, then its fallbacks. */
  function Candidates(config: Config, rank: Collation, protocol: Protocol, model: string)
    : Result<seq<Resolved>, HubError>
  {
    var primary := ResolveHubRoute(config, rank, protocol, model);
    if primary.Err? then Err(primary.error)
    else
      var fallbacks := FallbackCandidates(config, primary.value.route, primary.value.route.fallback, protocol, model);
      if fallbacks.Err? then Err(fallbacks.error) else Ok([primary.value] + fallbacks.value)
  }

  /** The request can be routed at all. */
  predicate Routable(config: Config, protocol: Protocol, model: string) {
    exists r :: r in config.routes && ForModel(protocol, model)(r)
  }

  /**
   The chosen route accepts the request, and no other accepting route has a higher priority, or the same one
   and an upstream that sorts before.
   */
  lemma PrimaryIsBest(config: Config, rank: Collation, protocol: Protocol, model: string)
    ensures var routes := Sort(Filter(config.routes, ForModel(protocol, model)), ByPriorityThenUpstream(rank));
      && (routes == [] <==> !Routable(config, protocol, model))
      && (routes != [] ==>
            && routes[0] in config.routes && ForModel(protocol, model)(routes[0])
            && forall r :: r in config.routes && ForModel(protocol, model)(r) ==>
                 routes[0].priority > r.priority
                   || (routes[0].priority == r.priority && rank(routes[0].upstream) <= rank(r.upstream)))
  {
    var accepted := Filter(config.routes, ForModel(protocol, model));
    var routes := Sort(accepted, ByPriorityThenUpstream(rank));
    RouteOrders(rank);
    SortIsSorted(accepted, ByPriorityThenUpstream(rank));
    SortKeepsMembers(accepted, ByPriorityThenUpstream(rank));
    FilterMembers(config.routes, ForModel(protocol, model));
    if routes != [] {
      assert routes[0] in routes;
      forall r | r in config.routes && ForModel(protocol, model)(r)
        ensures ByPriorityThenUpstream(rank)(routes[0], r)
      {
        var i :| 0 <= i < |routes| && routes[i] == r;
      }
    } else {
      forall r | r in config.routes ensures !ForModel(protocol, model)(r) {
        assert ForModel(protocol, model)(r) <==> r in routes;
      }
    }
  }

  /** The route takes requests of this protocol for this model. */
  predicate Takes(r: Route, protocol: Protocol, model: string) {
    (r.sourceProtocol == None || r.sourceProtocol == Some(protocol)) && r.model == model
  }

  /** Route a is preferred to b: by its priority, and between equals by its upstream's place in the collation. */
  predicate Preferred(rank: Collation, a: Route, b: Route) {
    a.priority > b.priority || (a.priority == b.priority && rank(a.upstream) < rank(b.upstream))
  }

  /** Route i takes the request, none that does is preferred to it, and it comes first among its equals. */
  ghost predicate Best(routes: seq<Route>, rank: Collation, protocol: Protocol, model: string, i: nat) {
    && i < |routes| && Takes(routes[i], protocol, model)
    && forall j :: 0 <= j < |routes| && Takes(routes[j], protocol, model) ==>
         !Preferred(rank, routes[j], routes[i]) && (j < i ==> Preferred(rank, routes[i], routes[j]))
  }

  /** A request takes the best route that is configured; there is none exactly when no route takes it. */
  lemma PrimaryDecides(config: Config, rank: Collation, protocol: Protocol, model: string) returns (i: nat)
    ensures var c := ResolveHubRoute(config, rank, protocol, model);
      if forall r :: r in config.routes ==> !Takes(r, protocol, model) then c == Err(RouteNotFound)
      else
        && Best(config.routes, rank, protocol, model, i)
        && c == ResolveRouteTarget(config, config.routes[i], config.routes[i].upstream, model)
  {
    var takes, le := ForModel(protocol, model), ByPriorityThenUpstream(rank);
    if r :| r in config.routes && Takes(r, protocol, model) {
      assert takes(r);
      RouteOrders(rank);
      i := HeadIsFirstLeast(config.routes, takes, le);
      BestIsFirstLeast(config.routes, rank, protocol, model, i);
    } else {
      FilterMembers(config.routes, takes);
      var kept := Filter(config.routes, takes);
      assert kept != [] ==> kept[0] in kept && Takes(kept[0], protocol, model);
      i := 0;
    }
  }

  lemma BestIsFirstLeast(routes: seq<Route>, rank: Collation, protocol: Protocol, model: string, i: nat)
    requires FirstLeast(routes, ForModel(protocol, model), ByPriorityThenUpstream(rank), i)
    ensures Best(routes, rank, protocol, model, i)
  {
    forall j | 0 <= j < |routes| && Takes(routes[j], protocol, model)
      ensures !Preferred(rank, routes[j], routes[i]) && (j < i ==> Preferred(rank, routes[i], routes[j]))
    {
      assert ForModel(protocol, model)(routes[j]);
    }
  }

  /** Route i takes the request to this upstream, none that does has a higher priority, and an earlier one a lower. */
  ghost predicate BestOn(routes: seq<Route>, protocol: Protocol, model: string, id: string, i: nat) {
    && i < |routes| && Takes(routes[i], protocol, model) && routes[i].upstream == id
    && forall j :: 0 <= j < |routes| && Takes(routes[j], protocol, model) && routes[j].upstream == id ==>
         routes[j].priority <= routes[i].priority && (j < i ==> routes[j].priority < routes[i].priority)
  }

  /** A fallback upstream is reached by the best route to it, or by the primary one without its target settings. */
  lemma FallbackDecides(config: Config, primary: Route, protocol: Protocol, model: string, id: string) returns (i: nat)
    ensures var route := FallbackRoute(config, primary, protocol, model, id);
      if forall r :: r in config.routes ==> !(Takes(r, protocol, model) && r.upstream == id)
      then route == primary.(targetProtocol := None, targetModel := None)
      else BestOn(config.routes, protocol, model, id, i) && route == config.routes[i]
  {
    var takes := ForModelOn(protocol, model, id);
    if r :| r in config.routes && Takes(r, protocol, model) && r.upstream == id {
      assert takes(r);
      RouteOrders(_ => 0);
      i := HeadIsFirstLeast(config.routes, takes, ByPriority());
      BestOnIsFirstLeast(config.routes, protocol, model, id, i);
    } else {
      FilterMembers(config.routes, takes);
      var kept := Filter(config.routes, takes);
      assert kept != [] ==> kept[0] in kept && Takes(kept[0], protocol, model);
      i := 0;
    }
  }

  lemma BestOnIsFirstLeast(routes: seq<Route>, protocol: Protocol, model: string, id: string, i: nat)
    requires FirstLeast(routes, ForModelOn(protocol, model, id), ByPriority(), i)
    ensures BestOn(routes, protocol, model, id, i)
  {
    forall j | 0 <= j < |routes| && Takes(routes[j], protocol, model) && routes[j].upstream == id
      ensures routes[j].priority <= routes[i].priority && (j < i ==> routes[j].priority < routes[i].priority)
    {
      assert ForModelOn(protocol, model, id)(routes[j]);
    }
  }

  /** The model a candidate is asked for: its route's, or its kind's own, or else the one requested. */
  predicate AskedFor(c: Resolved, model: string) {
    c.targetModel ==
      if c.route.targetModel != None then c.route.targetModel.value
      else if c.upstream.kind == MockOpenai then "mock-local-llm"
      else if c.upstream.kind == LocalApfel then "apple-foundationmodel"
      else model
  }

  lemma {:induction false} FallbacksAskFor(config: Config, primary: Route, ids: seq<string>, protocol: Protocol,
          model: string)
    ensures var r := FallbackCandidates(config, primary, ids, protocol, model);
      r.Ok? ==> forall i :: 0 <= i < |ids| ==>
        && AskedFor(r.value[i], model)
        && r.value[i].route == FallbackRoute(config, primary, protocol, model, ids[i])
  {
    if ids != [] { FallbacksAskFor(config, primary, ids[1..], protocol, model); }
  }

  /** A candidate runs on a configured upstream, in that upstream's own protocol. */
  predicate Native(config: Config, c: Resolved, upstreamId: string) {
    c.upstream in config.upstreams && c.upstream.id == upstreamId
      && c.targetProtocol == DefaultTargetProtocol(c.upstream.kind)
  }

  lemma ConfiguredRouteResolves(config: Config, r: Route, model: string)
    requires Validated(config) && r in config.routes
    ensures var c := ResolveRouteTarget(config, r, r.upstream, model);
      c.Ok? && Native(config, c.value, r.upstream) && c.value.route == r
  {
    assert RouteValid(config, r);
    var u :| u in config.upstreams && Serves(u, r);
    OnlyCandidate(config, r.upstream, u);
  }

  lemma FallbackResolves(config: Config, primary: Route, protocol: Protocol, model: string, id: string)
    requires Validated(config) && Known(config, id)
    ensures var c := ResolveRouteTarget(config, FallbackRoute(config, primary, protocol, model, id), id, model);
      c.Ok? && Native(config, c.value, id)
  {
    var explicit := Filter(config.routes, ForModelOn(protocol, model, id));
    SortKeepsMembers(explicit, ByPriority());
    FilterMembers(config.routes, ForModelOn(protocol, model, id));
    var sorted := Sort(explicit, ByPriority());
    if sorted != [] {
      assert sorted[0] in sorted;
      ConfiguredRouteResolves(config, sorted[0], model);
    } else {
      var u :| u in config.upstreams && u.id == id;
      OnlyCandidate(config, id, u);
    }
  }

  lemma {:induction false} FallbacksResolve(config: Config, primary: Route, ids: seq<string>,
          protocol: Protocol, model: string)
    requires Validated(config) && forall id :: id in ids ==> Known(config, id)
    ensures var r := FallbackCandidates(config, primary, ids, protocol, model);
      r.Ok? && forall i :: 0 <= i < |ids| ==> Native(config, r.value[i], ids[i])
  {
    if ids != [] {
      FallbackResolves(config, primary, protocol, model, ids[0]);
      FallbacksResolve(config, primary, ids[1..], protocol, model);
    }
  }

  /**
   With a valid configuration a request fails to resolve only for want of a route; otherwise every candidate
   exists, in the order the primary route lists them, and is spoken to in its upstream's native protocol.
   */
  lemma EveryCandidateResolves(config: Config, rank: Collation, protocol: Protocol, model: string)
    requires Validated(config)
    ensures var r := Candidates(config, rank, protocol, model);
      && (r.Ok? <==> Routable(config, protocol, model))
      && (r.Err? ==> r.error == RouteNotFound)
      && (r.Ok? ==>
            && |r.value| == 1 + |r.value[0].route.fallback|
            && Native(config, r.value[0], r.value[0].route.upstream)
            && forall i :: 0 < i < |r.value| ==> Native(config, r.value[i], r.value[0].route.fallback[i - 1]))
  {
    PrimaryIsBest(config, rank, protocol, model);
    var routes := Sort(Filter(config.routes, ForModel(protocol, model)), ByPriorityThenUpstream(rank));
    if routes != [] {
      ConfiguredRouteResolves(config, routes[0], model);
      assert RouteValid(config, routes[0]);
      FallbacksResolve(config, routes[0], routes[0].fallback, protocol, model);
    }
  }

  /** The candidate's upstream has a model to be asked for, whatever the request says. */
  predicate NamesModel(c: Resolved) {
    c.route.targetModel != None || c.upstream.kind == MockOpenai || c.upstream.kind == LocalApfel
  }

  lemma ConfiguredRouteNamesModel(config: Config, c: Resolved)
    requires Validated(config) && c.route in config.routes
    requires c.upstream in config.upstreams && c.upstream.id == c.route.upstream
    ensures NamesModel(c)
  {
    assert RouteValid(config, c.route);
    var u :| u in config.upstreams && Serves(u, c.route);
    OnlyCandidate(config, c.route.upstream, u);
    OnlyCandidate(config, c.route.upstream, c.upstream);
  }

  /**
   Every candidate is asked for the model its route or its kind names. With a valid configuration a configured
   route to its own upstream always names one, so only a fallback without a route of its own is asked for the
   model requested.
   */
  lemma EveryCandidateIsAskedFor(config: Config, rank: Collation, protocol: Protocol, model: string, i: nat)
    requires Candidates(config, rank, protocol, model).Ok? && i < |Candidates(config, rank, protocol, model).value|
    ensures var c := Candidates(config, rank, protocol, model).value[i];
      && AskedFor(c, model)
      && (Validated(config) && c.route in config.routes && c.route.upstream == c.upstream.id ==> NamesModel(c))
  {
    var candidates := Candidates(config, rank, protocol, model).value;
    var primary := candidates[0].route;
    FallbacksAskFor(config, primary, primary.fallback, protocol, model);
    if Validated(config) && candidates[i].route in config.routes
       && candidates[i].route.upstream == candidates[i].upstream.id
    {
      EveryCandidateResolves(config, rank, protocol, model);
      assert Native(config, candidates[i], candidates[i].upstream.id);
      ConfiguredRouteNamesModel(config, candidates[i]);
    }
  }
}
