/** The model listing (apps/hub/src/models.ts), and its agreement with the router. */
module HubModels {
  import opened Prelude
  import opened HubConfig
  import opened HubRouting
  import opened StableSort

  /** What an upstream tells about one of its models. */
  datatype Info = Info(contextWindow: Option<int>, supported: Option<seq<string>>, unsupported: Option<seq<string>>)

  datatype Model = Model(id: string, info: Info)

  /** The models each upstream advertises; an upstream whose discovery fails is missing. */
  type Lists = map<string, map<string, Info>>

  function ForProtocol(protocol: Option<Protocol>): Route -> bool {
    (r: Route) => Accepts(r, protocol)
  }

  function HasModel(model: string): Route -> bool {
    (r: Route) => r.model == model
  }

  function OnUpstream(model: string, upstream: string): Route -> bool {
    (r: Route) => r.model == model && r.upstream == upstream
  }

  function ByModelId(rank: Collation): (Model, Model) -> bool {
    (a: Model, b: Model) => rank(a.id) <= rank(b.id)
  }

  function TargetInfo(lists: Lists, upstreamId: string, model: string): Option<Info> {
    if upstreamId in lists && model in lists[upstreamId] then Some(lists[upstreamId][model]) else None
  }

  function TargetModelFor(config: Config, upstreamId: string, explicit: Option<string>, fallbackModel: string): string {
    if explicit.Some? && explicit.value != "" then explicit.value
    else
      var upstream := Find(config.upstreams, upstreamId);
      if upstream.Some? && DefaultTargetModel(upstream.value.kind).Some?
      then DefaultTargetModel(upstream.value.kind).value
      else fallbackModel
  }

  /** What the fallback upstream `id` advertises for the route's model. */
  function FallbackTarget(config: Config, lists: Lists, protocol: Option<Protocol>, route: Route, id: string)
    : Option<Info>
  {
    var routes := Sort(Filter(Filter(config.routes, OnUpstream(route.model, id)), ForProtocol(protocol)), ByPriority());
    var explicit := if routes == [] then None else routes[0].targetModel;
    TargetInfo(lists, id, TargetModelFor(config, id, explicit, route.model))
  }

  function FirstFallback(config: Config, lists: Lists, protocol: Option<Protocol>, route: Route, ids: seq<string>)
    : Option<Info>
  {
    if ids == [] then None
    else
      var target := FallbackTarget(config, lists, protocol, route, ids[0]);
      if target.Some? then target else FirstFallback(config, lists, protocol, route, ids[1..])
  }

  function Target(config: Config, lists: Lists, protocol: Option<Protocol>, route: Route): Option<Info> {
    var primary := TargetInfo(lists, route.upstream,
      TargetModelFor(config, route.upstream, route.targetModel, route.model));
    if primary.Some? then primary else FirstFallback(config, lists, protocol, route, route.fallback)
  }

  /** The target of the first of these routes that is for the model and has one. */
  function FirstTarget(config: Config, lists: Lists, protocol: Option<Protocol>, routes: seq<Route>, model: string)
    : Option<Info>
  {
    if routes == [] then None
    else
      var n := |routes| - 1;
      var earlier := FirstTarget(config, lists, protocol, routes[..n], model);
      if earlier.Some? || routes[n].model != model then earlier else Target(config, lists, protocol, routes[n])
  }

  function SortedRoutes(config: Config, rank: Collation, protocol: Option<Protocol>): seq<Route> {
    Sort(Filter(config.routes, ForProtocol(protocol)), ByPriorityThenUpstream(rank))
  }

  /** What the listing shows for a model. */
  function Shown(config: Config, rank: Collation, lists: Lists, protocol: Option<Protocol>, model: string)
    : Option<Info>
  {
    FirstTarget(config, lists, protocol, SortedRoutes(config, rank, protocol), model)
  }

  // ---- The listing itself

  method AvailableTargetForRoute(config: Config, lists: Lists, protocol: Option<Protocol>, route: Route)
    returns (target: Option<Info>)
    ensures target == Target(config, lists, protocol, route)
  {
    target := TargetInfo(lists, route.upstream, TargetModelFor(config, route.upstream, route.targetModel, route.model));
    if target.Some? { return; }
    var i := 0;
    while i < |route.fallback|
      invariant 0 <= i <= |route.fallback|
      invariant FirstFallback(config, lists, protocol, route, route.fallback)
             == FirstFallback(config, lists, protocol, route, route.fallback[i..])
    {
      target := FallbackTarget(config, lists, protocol, route, route.fallback[i]);
      if target.Some? { return; }
      assert route.fallback[i..][1..] == route.fallback[i + 1..];
      i := i + 1;
    }
    return None;
  }

  /** `lists` and `known` tell the same about every upstream the route may use. */
  ghost predicate SameFor(route: Route, lists: Lists, known: Lists) {
    forall id :: id == route.upstream || id in route.fallback ==>
      (id in lists <==> id in known) && (id in lists ==> lists[id] == known[id])
  }

  lemma {:induction false} SameFallback(config: Config, lists: Lists, known: Lists, protocol: Option<Protocol>,
          route: Route, i: nat)
    requires SameFor(route, lists, known) && i <= |route.fallback|
    ensures FirstFallback(config, lists, protocol, route, route.fallback[i..])
         == FirstFallback(config, known, protocol, route, route.fallback[i..])
    decreases |route.fallback| - i
  {
    if i < |route.fallback| {
      assert route.fallback[i] in route.fallback;
      assert route.fallback[i..][1..] == route.fallback[i + 1..];
      SameFallback(config, lists, known, protocol, route, i + 1);
    }
  }

  lemma SameTarget(config: Config, lists: Lists, known: Lists, protocol: Option<Protocol>, route: Route)
    requires SameFor(route, lists, known)
    ensures Target(config, lists, protocol, route) == Target(config, known, protocol, route)
  {
    SameFallback(config, lists, known, protocol, route, 0);
    assert route.fallback[0..] == route.fallback;
  }

  method UpstreamsOf(routes: seq<Route>) returns (ids: set<string>)
    ensures forall r :: r in routes ==> r.upstream in ids && forall f :: f in r.fallback ==> f in ids
  {
    ids := {};
    for i := 0 to |routes|
      invariant forall j :: 0 <= j < i ==> routes[j].upstream in ids && forall f :: f in routes[j].fallback ==> f in ids
    {
      ids := ids + {routes[i].upstream} + set f | f in routes[i].fallback;
    }
  }

  /** Asks each upstream in turn; one that cannot be reached does not hide the others. */
  method Discover(ids: set<string>, snapshot: Lists) returns (lists: Lists)
    ensures forall id :: id in ids ==> (id in lists <==> id in snapshot) && (id in lists ==> lists[id] == snapshot[id])
  {
    lists := map[];
    var pending := ids;
    while pending != {}
      invariant pending <= ids
      invariant forall id :: id in ids - pending ==>
        (id in lists <==> id in snapshot) && (id in lists ==> lists[id] == snapshot[id])
      invariant forall id :: id in pending ==> id !in lists
      decreases |pending|
    {
      var id :| id in pending;
      if id in snapshot { lists := lists[id := snapshot[id]]; }
      pending := pending - {id};
    }
  }

  predicate Listed(visible: seq<Model>, model: string) {
    exists i :: 0 <= i < |visible| && visible[i].id == model
  }

  /** `visible` holds what `routes` show, each model once. */
  ghost predicate ShowsFirstTargets(config: Config, lists: Lists, protocol: Option<Protocol>,
          routes: seq<Route>, visible: seq<Model>)
  {
    && (forall i :: 0 <= i < |visible| ==>
      FirstTarget(config, lists, protocol, routes, visible[i].id) == Some(visible[i].info))
    && (forall m :: FirstTarget(config, lists, protocol, routes, m).Some? ==> Listed(visible, m))
    && (forall i, j :: 0 <= i < j < |visible| ==> visible[i].id != visible[j].id)
  }

  lemma OneMoreRoute(config: Config, lists: Lists, protocol: Option<Protocol>, routes: seq<Route>, k: nat, m: string)
    requires k < |routes|
    ensures FirstTarget(config, lists, protocol, routes[..k + 1], m)
         == var earlier := FirstTarget(config, lists, protocol, routes[..k], m);
            if earlier.Some? || routes[k].model != m then earlier else Target(config, lists, protocol, routes[k])
  {
    assert routes[..k + 1][..k] == routes[..k];
  }

  lemma AddModel(config: Config, lists: Lists, protocol: Option<Protocol>, routes: seq<Route>, k: nat,
          visible: seq<Model>)
    requires k < |routes| && ShowsFirstTargets(config, lists, protocol, routes[..k], visible)
    ensures var r := routes[k]; var target := Target(config, lists, protocol, r);
      ShowsFirstTargets(config, lists, protocol, routes[..k + 1],
        if Listed(visible, r.model) || target.None? then visible else visible + [Model(r.model, target.value)])
  {
    var r := routes[k];
    var target := Target(config, lists, protocol, r);
    var next := if Listed(visible, r.model) || target.None? then visible else visible + [Model(r.model, target.value)];
    forall m ensures FirstTarget(config, lists, protocol, routes[..k + 1], m)
                  == if m == r.model && !Listed(visible, m) then target
                     else FirstTarget(config, lists, protocol, routes[..k], m)
    {
      OneMoreRoute(config, lists, protocol, routes, k, m);
    }
    forall m | FirstTarget(config, lists, protocol, routes[..k + 1], m).Some? ensures Listed(next, m) {
      if Listed(visible, m) {
        var i :| 0 <= i < |visible| && visible[i].id == m;
        assert next[i].id == m;
      } else {
        assert next[|visible|].id == m;
      }
    }
  }

  lemma {:induction false} SameFirstTarget(config: Config, lists: Lists, known: Lists, protocol: Option<Protocol>,
                                           routes: seq<Route>, m: string)
    requires forall r :: r in routes ==> SameFor(r, lists, known)
    ensures FirstTarget(config, lists, protocol, routes, m) == FirstTarget(config, known, protocol, routes, m)
    decreases |routes|
  {
    if routes != [] {
      var n := |routes| - 1;
      SameFirstTarget(config, lists, known, protocol, routes[..n], m);
      SameTarget(config, lists, known, protocol, routes[n]);
    }
  }

  /** The loop of the listing: what `routes`, in order of preference, show of each model. */
  method VisibleModels(config: Config, lists: Lists, protocol: Option<Protocol>, routes: seq<Route>)
    returns (visible: seq<Model>)
    ensures ShowsFirstTargets(config, lists, protocol, routes, visible)
  {
    visible := [];
    for k := 0 to |routes|
      invariant ShowsFirstTargets(config, lists, protocol, routes[..k], visible)
    {
      AddModel(config, lists, protocol, routes, k, visible);
      if Listed(visible, routes[k].model) { continue; }
      var target := AvailableTargetForRoute(config, lists, protocol, routes[k]);
      if target.Some? { visible := visible + [Model(routes[k].model, target.value)]; }
    }
    assert routes[..|routes|] == routes;
  }

  /** What was discovered shows the same as the whole snapshot. */
  lemma DiscoveredSuffices(config: Config, lists: Lists, known: Lists, protocol: Option<Protocol>,
                           routes: seq<Route>, visible: seq<Model>)
    requires forall r :: r in routes ==> SameFor(r, lists, known)
    requires ShowsFirstTargets(config, lists, protocol, routes, visible)
    ensures ShowsFirstTargets(config, known, protocol, routes, visible)
  {
    forall m
      ensures FirstTarget(config, lists, protocol, routes, m) == FirstTarget(config, known, protocol, routes, m)
    {
      SameFirstTarget(config, lists, known, protocol, routes, m);
    }
  }

  /** Lists, in collation order, exactly the models that are shown, each once and with what is shown of it. */
  method ListModels(config: Config, rank: Collation, snapshot: Lists, protocol: Option<Protocol>)
    returns (data: seq<Model>)
    ensures forall m :: m in data <==> Shown(config, rank, snapshot, protocol, m.id) == Some(m.info)
    ensures Sorted(data, ByModelId(rank))
    ensures |data| == |set m | m in data :: m.id|
  {
    var routes := Filter(config.routes, ForProtocol(protocol));
    var ids := UpstreamsOf(routes);
    var lists := Discover(ids, snapshot);
    var sorted := Sort(routes, ByPriorityThenUpstream(rank));
    SortKeepsMembers(routes, ByPriorityThenUpstream(rank));
    var visible := VisibleModels(config, lists, protocol, sorted);
    DiscoveredSuffices(config, lists, snapshot, protocol, sorted, visible);
    data := Sort(visible, ByModelId(rank));
    ListingIsExact(config, rank, snapshot, protocol, visible);
  }

  lemma {:induction false} DistinctIds(s: seq<Model>)
    requires forall i, j :: 0 <= i < j < |s| ==> s[i].id != s[j].id
    ensures |set m | m in s :: m.id| == |s|
  {
    if s != [] {
      DistinctIds(s[1..]);
      var rest := set m | m in s[1..] :: m.id;
      assert (set m | m in s :: m.id) == rest + {s[0].id};
    }
  }

  lemma ListingIsExact(config: Config, rank: Collation, lists: Lists, protocol: Option<Protocol>, visible: seq<Model>)
    requires ShowsFirstTargets(config, lists, protocol, SortedRoutes(config, rank, protocol), visible)
    ensures var data := Sort(visible, ByModelId(rank));
      && (forall m :: m in data <==> Shown(config, rank, lists, protocol, m.id) == Some(m.info))
      && Sorted(data, ByModelId(rank))
      && |data| == |set m | m in data :: m.id|
  {
    SortKeepsMembers(visible, ByModelId(rank));
    SortIsSorted(visible, ByModelId(rank));
    DistinctIds(visible);
    var data := Sort(visible, ByModelId(rank));
    assert (set m | m in data :: m.id) == set m | m in visible :: m.id;
    forall m ensures m in data <==> Shown(config, rank, lists, protocol, m.id) == Some(m.info) {
      if Shown(config, rank, lists, protocol, m.id) == Some(m.info) {
        var i :| 0 <= i < |visible| && visible[i].id == m.id;
        assert visible[i] == m;
      }
    }
  }

  // ---- Agreement with the router

  lemma FirstTargetSnoc(config: Config, lists: Lists, protocol: Option<Protocol>, routes: seq<Route>, r: Route,
          model: string)
    ensures FirstTarget(config, lists, protocol, routes + [r], model)
         == var earlier := FirstTarget(config, lists, protocol, routes, model);
            if earlier.Some? || r.model != model then earlier else Target(config, lists, protocol, r)
  {
    assert (routes + [r])[..|routes|] == routes;
  }

  /** One more route counts for the model only if it is for the model. */
  lemma OneMoreCounts(config: Config, lists: Lists, protocol: Option<Protocol>, front: seq<Route>, r: Route,
          model: string)
    requires FirstTarget(config, lists, protocol, front, model)
          == FirstTarget(config, lists, protocol, Filter(front, HasModel(model)), model)
    ensures FirstTarget(config, lists, protocol, front + [r], model)
         == FirstTarget(config, lists, protocol, Filter(front + [r], HasModel(model)), model)
  {
    FilterSnoc(front, r, HasModel(model));
    FirstTargetSnoc(config, lists, protocol, front, r, model);
    if r.model == model {
      FirstTargetSnoc(config, lists, protocol, Filter(front, HasModel(model)), r, model);
    } else {
      assert Filter(front + [r], HasModel(model)) == Filter(front, HasModel(model));
    }
  }

  lemma {:induction false} OnlyRoutesForTheModelCount(config: Config, lists: Lists, protocol: Option<Protocol>,
                                                      routes: seq<Route>, model: string)
    ensures FirstTarget(config, lists, protocol, routes, model)
         == FirstTarget(config, lists, protocol, Filter(routes, HasModel(model)), model)
    decreases |routes|
  {
    if |routes| > 0 {
      var front, last := routes[..|routes| - 1], routes[|routes| - 1];
      OnlyRoutesForTheModelCount(config, lists, protocol, front, model);
      OneMoreCounts(config, lists, protocol, front, last, model);
      assert routes == front + [last];
    }
  }

  lemma {:induction false} HeadComesFirst(config: Config, lists: Lists, protocol: Option<Protocol>,
          routes: seq<Route>, model: string)
    requires routes != [] && routes[0].model == model && Target(config, lists, protocol, routes[0]).Some?
    ensures FirstTarget(config, lists, protocol, routes, model) == Target(config, lists, protocol, routes[0])
    decreases |routes|
  {
    if |routes| == 1 {
      assert routes[..0] == [];
    } else {
      HeadComesFirst(config, lists, protocol, routes[..|routes| - 1], model);
    }
  }

  /** Among the listing's routes, those for one model are the router's, in the router's order. */
  lemma SameRoutesAsRouter(config: Config, rank: Collation, protocol: Protocol, model: string)
    ensures Filter(SortedRoutes(config, rank, Some(protocol)), HasModel(model))
         == Sort(Filter(config.routes, ForModel(protocol, model)), ByPriorityThenUpstream(rank))
  {
    RouteOrders(rank);
    FilterOfSort(Filter(config.routes, ForProtocol(Some(protocol))), ByPriorityThenUpstream(rank), HasModel(model));
    FilterTwice(config.routes, ForProtocol(Some(protocol)), HasModel(model), ForModel(protocol, model));
  }

  /** What a candidate's upstream advertises for the model it would be asked for. */
  function Advertised(lists: Lists, c: Resolved): Option<Info> {
    if c.upstream.id in lists && c.targetModel in lists[c.upstream.id] then Some(lists[c.upstream.id][c.targetModel])
    else None
  }

  /** The first of the candidates that is advertised. */
  function FirstAdvertised(lists: Lists, candidates: seq<Resolved>): Option<Info> {
    if candidates == [] then None
    else if Advertised(lists, candidates[0]).Some? then Advertised(lists, candidates[0])
    else FirstAdvertised(lists, candidates[1..])
  }

  lemma SameFallbackTarget(config: Config, lists: Lists, primary: Route, protocol: Protocol, id: string)
    requires Parsed(config) && primary in config.routes
    requires ResolveRouteTarget(config, FallbackRoute(config, primary, protocol, primary.model, id), id,
      primary.model).Ok?
    ensures Advertised(lists,
      ResolveRouteTarget(config, FallbackRoute(config, primary, protocol, primary.model, id), id, primary.model).value)
         == FallbackTarget(config, lists, Some(protocol), primary, id)
  {
    FilterTwice(config.routes, OnUpstream(primary.model, id), ForProtocol(Some(protocol)),
      ForModelOn(protocol, primary.model, id));
    var accepted := Filter(config.routes, ForModelOn(protocol, primary.model, id));
    SortKeepsMembers(accepted, ByPriority());
    FilterMembers(config.routes, ForModelOn(protocol, primary.model, id));
    var explicit := Sort(accepted, ByPriority());
    if explicit != [] { assert explicit[0] in explicit; }
  }

  lemma {:induction false} SameFallbackTargets(config: Config, lists: Lists, primary: Route, protocol: Protocol,
          ids: seq<string>)
    requires Parsed(config) && primary in config.routes
    requires FallbackCandidates(config, primary, ids, protocol, primary.model).Ok?
    ensures FirstAdvertised(lists, FallbackCandidates(config, primary, ids, protocol, primary.model).value)
         == FirstFallback(config, lists, Some(protocol), primary, ids)
  {
    if ids != [] {
      SameFallbackTarget(config, lists, primary, protocol, ids[0]);
      SameFallbackTargets(config, lists, primary, protocol, ids[1..]);
    }
  }

  /** The listing's target of the primary route is what the router's first advertised candidate advertises. */
  lemma TargetIsFirstAdvertised(config: Config, rank: Collation, lists: Lists, protocol: Protocol, model: string)
    requires Parsed(config) && Candidates(config, rank, protocol, model).Ok?
    ensures var candidates := Candidates(config, rank, protocol, model).value;
      && candidates[0].route.model == model
      && Target(config, lists, Some(protocol), candidates[0].route) == FirstAdvertised(lists, candidates)
  {
    var primary := ResolveHubRoute(config, rank, protocol, model).value;
    PrimaryIsBest(config, rank, protocol, model);
    SameFallbackTargets(config, lists, primary.route, protocol, primary.route.fallback);
    assert ([primary] + FallbackCandidates(config, primary.route, primary.route.fallback, protocol, model).value)[1..]
        == FallbackCandidates(config, primary.route, primary.route.fallback, protocol, model).value;
  }

  /**
   Whenever some candidate the router would try for a model is advertised, the listing for that protocol shows
   the model, with what the first such candidate advertises.
   */
  lemma ListingAgreesWithRouter(config: Config, rank: Collation, lists: Lists, protocol: Protocol, model: string)
    requires Parsed(config) && Candidates(config, rank, protocol, model).Ok?
    requires FirstAdvertised(lists, Candidates(config, rank, protocol, model).value).Some?
    ensures Shown(config, rank, lists, Some(protocol), model)
         == FirstAdvertised(lists, Candidates(config, rank, protocol, model).value)
  {
    var routes := SortedRoutes(config, rank, Some(protocol));
    TargetIsFirstAdvertised(config, rank, lists, protocol, model);
    SameRoutesAsRouter(config, rank, protocol, model);
    OnlyRoutesForTheModelCount(config, lists, Some(protocol), routes, model);
    HeadComesFirst(config, lists, Some(protocol), Filter(routes, HasModel(model)), model);
  }

  lemma {:induction false} ShownBySomeRoute(config: Config, lists: Lists, protocol: Option<Protocol>,
          routes: seq<Route>, model: string)
    ensures FirstTarget(config, lists, protocol, routes, model).Some?
       <==> exists r :: r in routes && r.model == model && Target(config, lists, protocol, r).Some?
    decreases |routes|
  {
    if routes != [] {
      var n := |routes| - 1;
      ShownBySomeRoute(config, lists, protocol, routes[..n], model);
      assert routes == routes[..n] + [routes[n]];
      if exists r :: r in routes && r.model == model && Target(config, lists, protocol, r).Some? {
        var r :| r in routes && r.model == model && Target(config, lists, protocol, r).Some?;
        assert r in routes[..n] || r == routes[n];
      }
    }
  }

  /** Without a protocol the listing shows the models of all routes, with one those that take it or any. */
  lemma ListedExactlyWhen(config: Config, rank: Collation, lists: Lists, protocol: Option<Protocol>, model: string)
    ensures Shown(config, rank, lists, protocol, model).Some? <==>
      exists r :: r in config.routes && r.model == model && Target(config, lists, protocol, r).Some?
                  && (protocol == None || r.sourceProtocol == None || r.sourceProtocol == protocol)
  {
    var accepted := Filter(config.routes, ForProtocol(protocol));
    ShownBySomeRoute(config, lists, protocol, SortedRoutes(config, rank, protocol), model);
    SortKeepsMembers(accepted, ByPriorityThenUpstream(rank));
    FilterMembers(config.routes, ForProtocol(protocol));
  }

  /**
   A model is listed exactly when some accepting route for it has an advertised target. With a valid
   configuration the router then resolves it, though possibly to a route of higher priority.
   */
  lemma ListedModelsAreRoutable(config: Config, rank: Collation, lists: Lists, protocol: Protocol, model: string)
    ensures Shown(config, rank, lists, Some(protocol), model).Some? <==>
      exists r :: r in config.routes && ForModel(protocol, model)(r) && Target(config, lists, Some(protocol), r).Some?
    ensures Validated(config) && Shown(config, rank, lists, Some(protocol), model).Some?
      ==> Candidates(config, rank, protocol, model).Ok?
  {
    var accepted := Filter(config.routes, ForProtocol(Some(protocol)));
    ShownBySomeRoute(config, lists, Some(protocol), SortedRoutes(config, rank, Some(protocol)), model);
    SortKeepsMembers(accepted, ByPriorityThenUpstream(rank));
    FilterMembers(config.routes, ForProtocol(Some(protocol)));
    if Validated(config) { EveryCandidateResolves(config, rank, protocol, model); }
  }
}
