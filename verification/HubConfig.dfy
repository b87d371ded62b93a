/** The routing configuration and its validation (apps/hub/src/config.ts). */
module HubConfig {
  import opened Prelude

  datatype Kind = RemoteOpenai | LocalOpenai | LocalClaude | LocalApfel | MockOpenai

  datatype Protocol = Openai | Claude

  /** `publicBase` tells whether the base URL passes the checks made of remote upstreams. */
  datatype Upstream = Upstream(id: string, kind: Kind, publicBase: bool)

  /** `sourceProtocol` is None for "any"; a missing fallback list is the same as an empty one. */
  datatype Route = Route(
    sourceProtocol: Option<Protocol>,
    model: string,
    upstream: string,
    targetProtocol: Option<Protocol>,
    targetModel: Option<string>,
    priority: int,
    fallback: seq<string>)

  datatype Config = Config(upstreams: seq<Upstream>, routes: seq<Route>)

  datatype ConfigError =
    | DuplicateUpstream
    | PrivateBaseUrl
    | UnknownUpstream
    | ProtocolConflict
    | MissingTargetModel
    | UnknownFallback

  function DefaultTargetProtocol(kind: Kind): Protocol {
    if kind.LocalClaude? then Claude else Openai
  }

  function DefaultTargetModel(kind: Kind): Option<string> {
    if kind.MockOpenai? then Some("mock-local-llm")
    else if kind.LocalApfel? then Some("apple-foundationmodel")
    else None
  }

  /** The first upstream with this id. */
  function Find(upstreams: seq<Upstream>, id: string): (found: Option<Upstream>)
    ensures found.Some? ==> found.value in upstreams && found.value.id == id
    ensures found.None? ==> forall u :: u in upstreams ==> u.id != id
  {
    if upstreams == [] then None
    else if upstreams[0].id == id then Some(upstreams[0])
    else Find(upstreams[1..], id)
  }

  /** The strings the schema demands to be non-empty. */
  predicate Parsed(config: Config) {
    && (forall u :: u in config.upstreams ==> u.id != "")
    && (forall r :: r in config.routes ==> r.model != "" && r.upstream != "" && r.targetModel != Some(""))
  }

  predicate UniqueIds(upstreams: seq<Upstream>) {
    forall i, j :: 0 <= i < j < |upstreams| ==> upstreams[i].id != upstreams[j].id
  }

  predicate Known(config: Config, id: string) {
    exists u :: u in config.upstreams && u.id == id
  }

  /** `u` can serve the route: it speaks the protocol the route asks for and has a model to ask it for. */
  predicate Serves(u: Upstream, r: Route) {
    && u.id == r.upstream
    && (r.targetProtocol.Some? ==> r.targetProtocol.value == DefaultTargetProtocol(u.kind))
    && (r.targetModel.Some? || DefaultTargetModel(u.kind).Some?)
  }

  predicate RouteValid(config: Config, r: Route) {
    && (exists u :: u in config.upstreams && Serves(u, r))
    && (forall id :: id in r.fallback ==> Known(config, id))
  }

  predicate Validated(config: Config) {
    && UniqueIds(config.upstreams)
    && (forall u :: u in config.upstreams && u.kind.RemoteOpenai? ==> u.publicBase)
    && (forall r :: r in config.routes ==> RouteValid(config, r))
  }

  method AssertUniqueIds(upstreams: seq<Upstream>) returns (unique: bool)
    ensures unique <==> UniqueIds(upstreams)
  {
    var seen: set<string> := {};
    for i := 0 to |upstreams|
      invariant UniqueIds(upstreams[..i])
      invariant forall id :: id in seen <==> exists j :: 0 <= j < i && upstreams[j].id == id
    {
      if upstreams[i].id in seen { return false; }
      seen := seen + {upstreams[i].id};
    }
    assert upstreams[..|upstreams|] == upstreams;
    return true;
  }

  lemma OnlyCandidate(config: Config, id: string, u: Upstream)
    requires UniqueIds(config.upstreams) && u in config.upstreams && u.id == id
    ensures Find(config.upstreams, id) == Some(u)
  {
    var found := Find(config.upstreams, id).value;
    var i :| 0 <= i < |config.upstreams| && config.upstreams[i] == u;
    var j :| 0 <= j < |config.upstreams| && config.upstreams[j] == found;
    assert i < j ==> config.upstreams[i].id != config.upstreams[j].id;
    assert j < i ==> config.upstreams[j].id != config.upstreams[i].id;
  }

  method CheckRoute(config: Config, r: Route) returns (error: Option<ConfigError>)
    requires UniqueIds(config.upstreams)
    ensures error.None? <==> RouteValid(config, r)
  {
    var found := Find(config.upstreams, r.upstream);
    if found.None? { return Some(UnknownUpstream); }
    var upstream := found.value;
    forall u | u in config.upstreams && u.id == r.upstream ensures u == upstream {
      OnlyCandidate(config, r.upstream, u);
    }
    if r.targetProtocol.Some? && r.targetProtocol.value != DefaultTargetProtocol(upstream.kind) {
      return Some(ProtocolConflict);
    }
    if r.targetModel.None? && DefaultTargetModel(upstream.kind).None? { return Some(MissingTargetModel); }
    assert Serves(upstream, r);
    for i := 0 to |r.fallback|
      invariant forall j :: 0 <= j < i ==> Known(config, r.fallback[j])
    {
      if !Known(config, r.fallback[i]) { return Some(UnknownFallback); }
    }
    return None;
  }

  /** Loading accepts a configuration exactly when it is valid as a whole. */
  method CheckConfig(config: Config) returns (error: Option<ConfigError>)
    ensures error.None? <==> Validated(config)
  {
    var unique := AssertUniqueIds(config.upstreams);
    if !unique { return Some(DuplicateUpstream); }
    for i := 0 to |config.upstreams|
      invariant forall j :: 0 <= j < i && config.upstreams[j].kind.RemoteOpenai? ==> config.upstreams[j].publicBase
    {
      if config.upstreams[i].kind.RemoteOpenai? && !config.upstreams[i].publicBase { return Some(PrivateBaseUrl); }
    }
    for i := 0 to |config.routes|
      invariant forall j :: 0 <= j < i ==> RouteValid(config, config.routes[j])
    {
      error := CheckRoute(config, config.routes[i]);
      if error.Some? { return; }
    }
    return None;
  }
}
