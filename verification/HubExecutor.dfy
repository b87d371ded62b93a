/** Invoking the candidates of a request in turn (apps/hub/src/executor.ts). */
module HubExecutor {
  import opened Prelude
  import opened HubConfig
  import opened HubRouting
  import opened HubConversion
  import opened ObjectGraph

  datatype Endpoint = ChatCompletions | Responses | Messages

  /** How one candidate fares: an answer with a status, a refusal to convert the request, or another thrown error. */
  datatype Attempt = Answers(status: int) | CannotConvert | Throws(error: string)

  /** What comes back from an upstream: an answer, or an error thrown on the way. */
  datatype Reply = Replied(status: int) | Failed(error: string)

  /**
   What a candidate meets outside this service: whether the translation library copes with the request and with a
   streamed answer, and the upstream's reply.
   */
  datatype Outside = Outside(translates: bool, streams: bool, reply: Reply)

  /** A request; `payload` refers to its body in `graph`, with model and stream flag as they are sent on. */
  datatype Input = Input(endpoint: Endpoint, stream: bool, graph: Graph, payload: Value)

  datatype InvokeError = MissingModel | NotRoutable(reason: HubError) | Unconvertible | Thrown(error: string)

  /** The answer, the candidate that gave it, and the summary's fallback fields. */
  datatype Invoked = Invoked(status: int, candidate: nat, fallbackFrom: Option<string>, fallbackTo: Option<string>)

  function FormatForEndpoint(endpoint: Endpoint): Format {
    match endpoint
    case Messages => Anthropic
    case Responses => OpenAiResponses
    case ChatCompletions => OpenAi
  }

  function TargetFormatFor(endpoint: Endpoint, target: Protocol): Format {
    if target.Claude? then Anthropic else if endpoint.Responses? then OpenAiResponses else OpenAi
  }

  predicate ShouldFallback(status: int) {
    status >= 400 && status != 401 && status != 402 && status != 403
  }

  predicate SpeaksSource(endpoint: Endpoint, c: Resolved) {
    TargetFormatFor(endpoint, c.targetProtocol) == FormatForEndpoint(endpoint)
  }

  predicate Foreign(endpoint: Endpoint, c: Resolved) {
    !c.upstream.kind.MockOpenai? && !SpeaksSource(endpoint, c)
  }

  ghost predicate Sound(input: Input) {
    WellFormed(input.graph) && Inside(input.graph, input.payload)
  }

  /** How the candidate fares when it is asked. */
  ghost function Fares(input: Input, c: Resolved, o: Outside): Attempt {
    var source, target := FormatForEndpoint(input.endpoint), TargetFormatFor(input.endpoint, c.targetProtocol);
    if Foreign(input.endpoint, c) && !(Convertible(source, target, input.graph, input.payload) && o.translates)
    then CannotConvert
    else match o.reply
      case Failed(error) => Throws(error)
      case Replied(status) =>
        if Foreign(input.endpoint, c) && input.stream && status < 400 && !o.streams then CannotConvert
        else Answers(status)
  }

  /** `invokeCandidate`: a mock answers by itself, any other upstream gets the request in its own format. */
  method InvokeCandidate(input: Input, c: Resolved, o: Outside) returns (attempt: Attempt)
    requires Sound(input)
    ensures attempt == Fares(input, c, o)
  {
    if !c.upstream.kind.MockOpenai? {
      var source, target := FormatForEndpoint(input.endpoint), TargetFormatFor(input.endpoint, c.targetProtocol);
      var ok := TranslateHubRequest(source, target, input.graph, input.payload, o.translates);
      if !ok { return CannotConvert; }
      if o.reply.Replied? && o.reply.status < 400 && input.stream && source != target && !o.streams {
        return CannotConvert;
      }
    }
    match o.reply {
      case Failed(error) => return Throws(error);
      case Replied(status) => return Answers(status);
    }
  }

  /** How each candidate would fare if it were asked. */
  ghost function Attempts(input: Input, candidates: seq<Resolved>, outside: seq<Outside>): (attempts: seq<Attempt>)
    requires |candidates| == |outside|
    ensures |attempts| == |candidates|
    ensures forall i :: 0 <= i < |attempts| ==> attempts[i] == Fares(input, candidates[i], outside[i])
  {
    seq(|candidates|, i requires 0 <= i < |candidates| => Fares(input, candidates[i], outside[i]))
  }

  predicate HasSameSourceProtocolFallback(endpoint: Endpoint, candidates: seq<Resolved>) {
    exists c :: c in candidates && SpeaksSource(endpoint, c)
  }

  /** Candidate i settles the request: no later one is asked. */
  predicate Settles(endpoint: Endpoint, candidates: seq<Resolved>, attempts: seq<Attempt>, i: nat)
    requires i < |candidates| == |attempts|
  {
    match attempts[i]
    case Answers(status) => !ShouldFallback(status) || i == |candidates| - 1
    case CannotConvert => !HasSameSourceProtocolFallback(endpoint, candidates[i + 1..])
    case Throws(_) => true
  }

  /** The outcome when candidate i settles the request. */
  function OutcomeAt(candidates: seq<Resolved>, attempts: seq<Attempt>, i: nat): Result<Invoked, InvokeError>
    requires i < |candidates| == |attempts|
  {
    match attempts[i]
    case Answers(status) =>
      Ok(Invoked(status, i,
                 if i == 0 then None else Some(candidates[i - 1].upstream.id),
                 if i == 0 || candidates[i - 1].upstream.id == "" then None else Some(candidates[i].upstream.id)))
    case CannotConvert => Err(Unconvertible)
    case Throws(e) => Err(Thrown(e))
  }

  /** `r` is the outcome at `k`, the first candidate that settles the request. */
  ghost predicate FirstSettles(endpoint: Endpoint, candidates: seq<Resolved>, attempts: seq<Attempt>, k: nat,
          r: Result<Invoked, InvokeError>)
    requires |candidates| == |attempts|
  {
    && k < |candidates| && Settles(endpoint, candidates, attempts, k)
    && (forall i :: 0 <= i < k ==> !Settles(endpoint, candidates, attempts, i))
    && r == OutcomeAt(candidates, attempts, k)
  }

  /**
   The fallback loop: exactly the outcome of the first candidate that settles the request, having asked those
   before it and none after. Some candidate always does, so the loop never runs off the end of the list.
   */
  method InvokeCandidates(input: Input, candidates: seq<Resolved>, outside: seq<Outside>)
    returns (r: Result<Invoked, InvokeError>)
    requires Sound(input) && 0 < |candidates| == |outside|
    ensures exists k: nat :: FirstSettles(input.endpoint, candidates, Attempts(input, candidates, outside), k, r)
  {
    ghost var attempts := Attempts(input, candidates, outside);
    var fallbackFrom: Option<string> := None;
    var index := 0;
    while index < |candidates|
      invariant 0 <= index <= |candidates|
      invariant forall i :: 0 <= i < index ==> !Settles(input.endpoint, candidates, attempts, i)
      invariant fallbackFrom == if index == 0 then None else Some(candidates[index - 1].upstream.id)
    {
      var attempt := InvokeCandidate(input, candidates[index], outside[index]);
      match attempt {
        case Throws(error) =>
          r := Err(Thrown(error));
          assert FirstSettles(input.endpoint, candidates, attempts, index, r);
          return;
        case CannotConvert =>
          if !HasSameSourceProtocolFallback(input.endpoint, candidates[index + 1..]) {
            r := Err(Unconvertible);
            assert FirstSettles(input.endpoint, candidates, attempts, index, r);
            return;
          }
        case Answers(status) =>
          if !ShouldFallback(status) || index == |candidates| - 1 {
            var fallbackTo :=
              if fallbackFrom.Some? && fallbackFrom.value != "" then Some(candidates[index].upstream.id) else None;
            r := Ok(Invoked(status, index, fallbackFrom, fallbackTo));
            assert FirstSettles(input.endpoint, candidates, attempts, index, r);
            return;
          }
      }
      fallbackFrom := Some(candidates[index].upstream.id);
      index := index + 1;
    }
    assert Settles(input.endpoint, candidates, attempts, |candidates| - 1);
    assert false;
  }

  /** A candidate speaks the client's own format exactly when both or neither are Anthropic's. */
  lemma NativeExactlyWhen(endpoint: Endpoint, c: Resolved)
    ensures SpeaksSource(endpoint, c) <==> (c.targetProtocol == Claude <==> endpoint == Messages)
  {
  }

  /** Sending the request to a foreign upstream, and its answer back, would lose something. */
  ghost predicate Loses(input: Input, o: Outside) {
    || Holds(input.graph, input.payload, "prompt_cache_breakpoint")
    || (input.endpoint == Responses
        && !(FunctionToolsOnly(input.graph, input.payload) && MessagesOnly(input.graph, input.payload)))
    || !o.translates
    || (input.stream && o.reply.Replied? && o.reply.status < 400 && !o.streams)
  }

  /**
   A mock and a candidate of the client's own format always get the request as it is, and what they reply counts.
   A foreign one refuses exactly when something would be lost.
   */
  lemma AttemptDecides(input: Input, c: Resolved, o: Outside)
    ensures Fares(input, c, o) ==
      if c.upstream.kind != MockOpenai && (c.targetProtocol == Claude <==> input.endpoint != Messages)
         && Loses(input, o)
      then CannotConvert
      else match o.reply
        case Replied(status) => Answers(status)
        case Failed(error) => Throws(error)
  {
    NativeExactlyWhen(input.endpoint, c);
  }

  /**
   Candidate i is passed over for the next: it answered with an error that is not about the caller's own rights or
   means, or it refused to convert the request and a later candidate need not.
   */
  predicate PassedOver(endpoint: Endpoint, candidates: seq<Resolved>, attempts: seq<Attempt>, i: nat)
    requires i < |candidates| == |attempts|
  {
    match attempts[i]
    case Answers(status) => i + 1 < |candidates| && 400 <= status && status !in [401, 402, 403]
    case CannotConvert =>
      exists j :: i < j < |candidates| && (candidates[j].targetProtocol == Claude <==> endpoint == Messages)
    case Throws(_) => false
  }

  lemma SettlesUnlessPassedOver(endpoint: Endpoint, candidates: seq<Resolved>, attempts: seq<Attempt>, i: nat)
    requires i < |candidates| == |attempts|
    ensures Settles(endpoint, candidates, attempts, i) <==> !PassedOver(endpoint, candidates, attempts, i)
  {
    forall j | i < j < |candidates|
      ensures candidates[j] == candidates[i + 1..][j - i - 1]
      ensures SpeaksSource(endpoint, candidates[j])
          <==> (candidates[j].targetProtocol == Claude <==> endpoint == Messages)
    {
    }
  }

  /**
   Who answers a request, and with what: the first candidate that is not passed over, with its own status or error;
   the summary names it, and the one before it, when it is not the first.
   */
  lemma AnswerDecides(input: Input, candidates: seq<Resolved>, outside: seq<Outside>, k: nat,
          r: Result<Invoked, InvokeError>)
    requires |candidates| == |outside|
    requires FirstSettles(input.endpoint, candidates, Attempts(input, candidates, outside), k, r)
    requires forall c :: c in candidates ==> c.upstream.id != ""
    ensures var attempts := Attempts(input, candidates, outside);
      && (forall i :: 0 <= i < k ==> PassedOver(input.endpoint, candidates, attempts, i))
      && !PassedOver(input.endpoint, candidates, attempts, k)
      && r == match attempts[k]
              case CannotConvert => Err(Unconvertible)
              case Throws(error) => Err(Thrown(error))
              case Answers(status) =>
                if k == 0 then Ok(Invoked(status, 0, None, None))
                else Ok(Invoked(status, k, Some(candidates[k - 1].upstream.id), Some(candidates[k].upstream.id)))
  {
    var attempts := Attempts(input, candidates, outside);
    forall i | 0 <= i <= k
      ensures Settles(input.endpoint, candidates, attempts, i)
          <==> !PassedOver(input.endpoint, candidates, attempts, i)
    {
      SettlesUnlessPassedOver(input.endpoint, candidates, attempts, i);
    }
  }

  /** A whole invocation; `outside` tells what each candidate would meet if it were asked. */
  method Invoke(config: Config, rank: Collation, input: Input, protocol: Protocol, model: string, outside: seq<Outside>)
    returns (r: Result<Invoked, InvokeError>)
    requires Sound(input)
    requires Candidates(config, rank, protocol, model).Ok? ==>
      |outside| == |Candidates(config, rank, protocol, model).value|
    ensures model == "" ==> r == Err(MissingModel)
    ensures model != "" ==> var c := Candidates(config, rank, protocol, model);
      && (c.Err? ==> r == Err(NotRoutable(c.error)))
      && (c.Ok? ==> exists k: nat :: FirstSettles(input.endpoint, c.value, Attempts(input, c.value, outside), k, r))
    ensures Validated(config) ==> r != Err(NotRoutable(InvalidHubConfig))
  {
    if model == "" { return Err(MissingModel); }
    var candidates := Candidates(config, rank, protocol, model);
    if Validated(config) { EveryCandidateResolves(config, rank, protocol, model); }
    if candidates.Err? { return Err(NotRoutable(candidates.error)); }
    r := InvokeCandidates(input, candidates.value, outside);
  }

  /**
   A request ends as unconvertible only when neither the settling candidate nor any later one speaks the
   client's own format: as long as such a candidate is left, a refusal to convert moves on.
   */
  lemma UnconvertibleOnlyWithoutNativeFallback(input: Input, candidates: seq<Resolved>, outside: seq<Outside>, k: nat,
                                               r: Result<Invoked, InvokeError>)
    requires |candidates| == |outside|
    requires FirstSettles(input.endpoint, candidates, Attempts(input, candidates, outside), k, r)
    ensures r == Err(Unconvertible) ==>
      && Foreign(input.endpoint, candidates[k])
      && forall i :: k <= i < |candidates| ==> !SpeaksSource(input.endpoint, candidates[i])
  {
    forall i | k < i < |candidates| && r == Err(Unconvertible)
      ensures !SpeaksSource(input.endpoint, candidates[i])
    {
      assert candidates[i] == candidates[k + 1..][i - k - 1];
    }
  }

  /**
   And it does end so, without asking anybody else, when the first candidate is foreign, the payload cannot be
   converted for it, and no later candidate speaks the client's format.
   */
  lemma UnconvertibleWithoutNativeFallback(input: Input, candidates: seq<Resolved>, outside: seq<Outside>, k: nat,
                                           r: Result<Invoked, InvokeError>)
    requires |candidates| == |outside|
    requires FirstSettles(input.endpoint, candidates, Attempts(input, candidates, outside), k, r)
    requires Foreign(input.endpoint, candidates[0])
    requires !Convertible(FormatForEndpoint(input.endpoint),
                          TargetFormatFor(input.endpoint, candidates[0].targetProtocol),
                          input.graph, input.payload)
    ensures k == 0 && r == Err(Unconvertible) <==>
      forall i :: 0 <= i < |candidates| ==> !SpeaksSource(input.endpoint, candidates[i])
  {
    var attempts := Attempts(input, candidates, outside);
    assert attempts[0] == CannotConvert;
    assert forall i :: 1 <= i < |candidates| ==> candidates[i] == candidates[1..][i - 1];
    assert Settles(input.endpoint, candidates, attempts, 0) <==>
      forall i :: 0 <= i < |candidates| ==> !SpeaksSource(input.endpoint, candidates[i]);
  }
}
