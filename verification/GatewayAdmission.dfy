/**
 The life cycle of body requests in the gateway's request handler (apps/gateway/src/server.ts): admission
 before the body is read, bounded reading, and release of the lease whatever the outcome.
 */
module GatewayAdmission {
  import opened Prelude
  import opened BodyCapacity
  import BodyFraming
  import BodyReader

  /**
   An admitted request; request number i holds lease number i. `kept` counts the body bytes it has read, `reading`
   tells whether it may read more.
   */
  datatype Request = Request(framing: BodyFraming.Framing, kept: nat, reading: bool, active: bool)

  /** `ops` are the calls made to the allocator so far. */
  datatype Gateway = Gateway(ops: seq<Op>, requests: seq<Request>)

  /** `TurnedAway` is a request that fails before its body is considered; a failure carries its error code. */
  datatype Event =
    | TurnedAway(failure: Option<ErrorCode>)
    | Arrives(framing: Result<BodyFraming.Framing, BodyFraming.BodyError>)
    | ReadsChunk(request: nat, size: nat)
    | BodyEnds(request: nat, aborted: bool)
    | Finishes(request: nat, failure: Option<ErrorCode>)
    | Observes(op: Op)

  function CodeOf(e: BodyFraming.BodyError): ErrorCode {
    match e
    case InvalidContentLength => ErrorCode.InvalidContentLength
    case RequestBodyTooLarge => ErrorCode.RequestBodyTooLarge
    case IncompleteRequestBody => ErrorCode.IncompleteRequestBody
  }

  /** The bytes a request is admitted for, or the reason why it is not even considered. */
  function Asked(maxBytes: nat, framing: Result<BodyFraming.Framing, BodyFraming.BodyError>)
    : Result<nat, BodyFraming.BodyError>
  {
    match framing
    case Err(e) => Err(e)
    case Ok(f) => BodyReader.AdmissionBodyBytes(f, maxBytes)
  }

  /** The read loop accepts the next chunk. */
  predicate ChunkFits(maxBytes: nat, r: Request, size: nat) {
    && (r.framing.Declared? ==> size <= r.framing.bytes - r.kept)
    && size <= maxBytes - r.kept
  }

  /** Why the read loop gives up on a chunk. */
  function ChunkError(r: Request, size: nat): ErrorCode {
    if r.framing.Declared? && size > r.framing.bytes - r.kept then ErrorCode.InvalidContentLength
    else ErrorCode.RequestBodyTooLarge
  }

  /** The body ended before all declared bytes had come. */
  predicate EndsShort(r: Request) {
    r.framing.Declared? && r.kept < r.framing.bytes
  }

  /** The error code of a failed request is recorded before its lease is released. */
  function RecordFailure(ops: seq<Op>, failure: Option<ErrorCode>): seq<Op> {
    if failure.Some? then ops + [RecordOutcome(failure.value)] else ops
  }

  function Finish(g: Gateway, i: nat, failure: Option<ErrorCode>): Gateway
    requires i < |g.requests|
  {
    if g.requests[i].active
    then Gateway(RecordFailure(g.ops, failure) + [Release(i)],
                 g.requests[i := g.requests[i].(active := false, reading := false, kept := 0)])
    else g
  }

  predicate Admits(maxBytes: nat, g: Gateway, framing: Result<BodyFraming.Framing, BodyFraming.BodyError>) {
    Asked(maxBytes, framing).Ok? && !Refuses(Run(g.ops).capacity, Asked(maxBytes, framing).value)
  }

  predicate Reading(g: Gateway, i: nat) {
    i < |g.requests| && g.requests[i].active && g.requests[i].reading
  }

  function Step(maxBytes: nat, g: Gateway, e: Event): Gateway {
    match e
    case TurnedAway(failure) => g.(ops := RecordFailure(g.ops, failure))
    case Arrives(framing) =>
      var asked := Asked(maxBytes, framing);
      if asked.Err? then g.(ops := g.ops + [RecordOutcome(CodeOf(asked.error))])
      else if Admits(maxBytes, g, framing)
      then Gateway(g.ops + [TryAcquire(asked.value)], g.requests + [Request(framing.value, 0, true, true)])
      else g.(ops := g.ops + [TryAcquire(asked.value)] + [RecordOutcome(GatewayCapacityExceeded)])
    case ReadsChunk(i, size) =>
      if !Reading(g, i) then g
      else if ChunkFits(maxBytes, g.requests[i], size)
      then g.(requests := g.requests[i := g.requests[i].(kept := g.requests[i].kept + size)])
      else Finish(g, i, Some(ChunkError(g.requests[i], size)))
    case BodyEnds(i, aborted) =>
      if !Reading(g, i) then g
      else if EndsShort(g.requests[i])
        then Finish(g, i, Some(if aborted then RequestAborted else IncompleteRequestBody))
      else g.(requests := g.requests[i := g.requests[i].(reading := false)])
    case Finishes(i, failure) => if i < |g.requests| then Finish(g, i, failure) else g
    case Observes(op) =>
      if op.UpdateMemory? || op.TakeSnapshot? || op.RecordContentLength? then g.(ops := g.ops + [op]) else g
  }

  function RunGateway(maxBytes: nat, events: seq<Event>): Gateway
    decreases |events|
  {
    if events == [] then Gateway([], [])
    else var n := |events| - 1; Step(maxBytes, RunGateway(maxBytes, events[..n]), events[n])
  }

  /** The body bytes that requests hold in memory. */
  function HeldBytes(requests: seq<Request>): nat
    decreases |requests|
  {
    if requests == [] then 0
    else var n := |requests| - 1; HeldBytes(requests[..n]) + if requests[n].active then requests[n].kept else 0
  }

  /** Request i has lease i, unreleased exactly while it is active, and keeps no more than it was admitted for. */
  ghost predicate Matched(maxBytes: nat, r: Request, lease: Lease) {
    && r.active == !lease.released
    && BodyReader.AdmissionBodyBytes(r.framing, maxBytes) == Ok(lease.bytes)
    && r.kept <= lease.bytes
  }

  ghost predicate GatewayInv(maxBytes: nat, g: Gateway) {
    var leases := Run(g.ops).leases;
    |leases| == |g.requests| && forall i :: 0 <= i < |leases| ==> Matched(maxBytes, g.requests[i], leases[i])
  }

  lemma OneMore(ops: seq<Op>, op: Op)
    ensures Run(ops + [op]) == BodyCapacity.Step(Run(ops), op)
  {
    assert (ops + [op])[..|ops|] == ops;
  }

  lemma OpKeepsLeases(ops: seq<Op>, op: Op)
    requires !op.TryAcquire? && !op.Release?
    ensures Run(ops + [op]).leases == Run(ops).leases
  {
    OneMore(ops, op);
  }

  lemma FailureKeepsLeases(ops: seq<Op>, failure: Option<ErrorCode>)
    ensures Run(RecordFailure(ops, failure)).leases == Run(ops).leases
  {
    if failure.Some? { OpKeepsLeases(ops, RecordOutcome(failure.value)); }
  }

  lemma FinishKeeps(maxBytes: nat, g: Gateway, i: nat, failure: Option<ErrorCode>)
    requires GatewayInv(maxBytes, g) && i < |g.requests|
    ensures GatewayInv(maxBytes, Finish(g, i, failure))
  {
    FailureKeepsLeases(g.ops, failure);
    OneMore(RecordFailure(g.ops, failure), Release(i));
  }

  lemma RefusedKeeps(maxBytes: nat, g: Gateway, bytes: nat)
    requires GatewayInv(maxBytes, g) && Refuses(Run(g.ops).capacity, bytes)
    ensures GatewayInv(maxBytes, g.(ops := g.ops + [TryAcquire(bytes)] + [RecordOutcome(GatewayCapacityExceeded)]))
  {
    var ops1 := g.ops + [TryAcquire(bytes)];
    OneMore(g.ops, TryAcquire(bytes));
    OpKeepsLeases(ops1, RecordOutcome(GatewayCapacityExceeded));
  }

  lemma AdmittedKeeps(maxBytes: nat, g: Gateway, framing: BodyFraming.Framing)
    requires GatewayInv(maxBytes, g) && Admits(maxBytes, g, Ok(framing))
    ensures GatewayInv(maxBytes, Step(maxBytes, g, Arrives(Ok(framing))))
  {
    OneMore(g.ops, TryAcquire(Asked(maxBytes, Ok(framing)).value));
  }

  lemma ReadKeeps(maxBytes: nat, g: Gateway, i: nat, r: Request)
    requires GatewayInv(maxBytes, g) && Reading(g, i)
    requires r.active && r.framing == g.requests[i].framing
    requires BodyReader.AdmissionBodyBytes(r.framing, maxBytes).Ok? ==>
      r.kept <= BodyReader.AdmissionBodyBytes(r.framing, maxBytes).value
    ensures GatewayInv(maxBytes, g.(requests := g.requests[i := r]))
  {
  }

  lemma StepKeepsGateway(maxBytes: nat, g: Gateway, e: Event)
    requires GatewayInv(maxBytes, g)
    ensures GatewayInv(maxBytes, Step(maxBytes, g, e))
  {
    match e
    case TurnedAway(failure) => FailureKeepsLeases(g.ops, failure);
    case Arrives(framing) =>
      var asked := Asked(maxBytes, framing);
      if asked.Err? {
        OpKeepsLeases(g.ops, RecordOutcome(CodeOf(asked.error)));
      } else if Admits(maxBytes, g, framing) {
        AdmittedKeeps(maxBytes, g, framing.value);
      } else {
        RefusedKeeps(maxBytes, g, asked.value);
      }
    case ReadsChunk(i, size) =>
      if Reading(g, i) {
        if ChunkFits(maxBytes, g.requests[i], size) {
          ReadKeeps(maxBytes, g, i, g.requests[i].(kept := g.requests[i].kept + size));
        } else {
          FinishKeeps(maxBytes, g, i, Some(ChunkError(g.requests[i], size)));
        }
      }
    case BodyEnds(i, aborted) =>
      if Reading(g, i) {
        FinishKeeps(maxBytes, g, i, Some(if aborted then RequestAborted else IncompleteRequestBody));
        if !EndsShort(g.requests[i]) { ReadKeeps(maxBytes, g, i, g.requests[i].(reading := false)); }
      }
    case Finishes(i, failure) => if i < |g.requests| { FinishKeeps(maxBytes, g, i, failure); }
    case Observes(op) => if !op.TryAcquire? && !op.Release? { OpKeepsLeases(g.ops, op); }
  }

  lemma {:induction false} GatewayHoldsOnEveryRun(maxBytes: nat, events: seq<Event>)
    ensures GatewayInv(maxBytes, RunGateway(maxBytes, events))
    decreases |events|
  {
    if events != [] {
      GatewayHoldsOnEveryRun(maxBytes, events[..|events| - 1]);
      StepKeepsGateway(maxBytes, RunGateway(maxBytes, events[..|events| - 1]), events[|events| - 1]);
    }
  }

  lemma {:induction false} HeldAtMostAdmitted(maxBytes: nat, requests: seq<Request>, leases: seq<Lease>)
    requires |requests| == |leases| && forall i :: 0 <= i < |leases| ==> Matched(maxBytes, requests[i], leases[i])
    ensures HeldBytes(requests) <= OutstandingBytes(leases)
    decreases |leases|
  {
    if leases != [] {
      HeldAtMostAdmitted(maxBytes, requests[..|leases| - 1], leases[..|leases| - 1]);
    }
  }

  /** What the active requests hold never exceeds what they were admitted for. */
  lemma {:induction false} HeldStaysWithinAdmitted(maxBytes: nat, events: seq<Event>)
    ensures var g := RunGateway(maxBytes, events); HeldBytes(g.requests) <= OutstandingBytes(Run(g.ops).leases)
  {
    var g := RunGateway(maxBytes, events);
    GatewayHoldsOnEveryRun(maxBytes, events);
    HeldAtMostAdmitted(maxBytes, g.requests, Run(g.ops).leases);
  }

  /**
   End to end: whenever a request is admitted, nine times the body bytes held by all requests, plus the
   safety reserve, fit into the memory last seen available; and so would nine times everything the
   active requests may still read.
   */
  lemma HeldBodiesFitMemory(maxBytes: nat, events: seq<Event>,
          framing: Result<BodyFraming.Framing, BodyFraming.BodyError>)
    requires Admits(maxBytes, RunGateway(maxBytes, events), framing)
    ensures var g := RunGateway(maxBytes, events + [Arrives(framing)]);
      var sample := Run(g.ops).capacity.sample;
      && sample.Some?
      && HeldBytes(g.requests) <= OutstandingBytes(Run(g.ops).leases)
      && MEMORY_AMPLIFICATION * OutstandingBytes(Run(g.ops).leases) + MemorySafetyReserveBytes(sample.value.limit)
         <= sample.value.available
      && ReserveStays(sample.value.available - 9 * OutstandingBytes(Run(g.ops).leases), sample.value.limit)
  {
    var before := RunGateway(maxBytes, events);
    assert (events + [Arrives(framing)])[..|events|] == events;
    AdmissionFitsMemory(before.ops, Asked(maxBytes, framing).value);
    AdmissionLeavesReserve(before.ops, Asked(maxBytes, framing).value);
    HeldStaysWithinAdmitted(maxBytes, events + [Arrives(framing)]);
  }

  /** No lease is forgotten: once every request has finished, no unit is in use. */
  lemma NothingLeaks(maxBytes: nat, events: seq<Event>)
    requires forall i :: 0 <= i < |RunGateway(maxBytes, events).requests| ==>
      !RunGateway(maxBytes, events).requests[i].active
    ensures Run(RunGateway(maxBytes, events).ops).capacity.used == 0
  {
    var g := RunGateway(maxBytes, events);
    GatewayHoldsOnEveryRun(maxBytes, events);
    LedgerHoldsOnEveryRun(g.ops);
    NoneOutstanding(Run(g.ops).leases);
  }

  lemma {:induction false} NoneOutstanding(leases: seq<Lease>)
    requires forall i :: 0 <= i < |leases| ==> leases[i].released
    ensures OutstandingUnits(leases) == 0
    decreases |leases|
  {
    if leases != [] {
      NoneOutstanding(leases[..|leases| - 1]);
    }
  }

  // ----- every failed request is counted once -----

  // ----- the handler reads as the reader does -----

  function Total(sizes: seq<nat>): nat {
    if sizes == [] then 0 else sizes[0] + Total(sizes[1..])
  }

  /** The gateway once the body of request i has come in chunks of these sizes, and ended or broken off. */
  function ReadAll(maxBytes: nat, g: Gateway, i: nat, sizes: seq<nat>, aborted: bool): Gateway
    decreases |sizes|
  {
    if sizes == [] then Step(maxBytes, g, BodyEnds(i, aborted))
    else ReadAll(maxBytes, Step(maxBytes, g, ReadsChunk(i, sizes[0])), i, sizes[1..], aborted)
  }

  lemma {:induction false} ReadsNoMore(maxBytes: nat, g: Gateway, i: nat, sizes: seq<nat>, aborted: bool)
    requires !Reading(g, i)
    ensures ReadAll(maxBytes, g, i, sizes, aborted) == g
    decreases |sizes|
  {
    if sizes != [] { ReadsNoMore(maxBytes, g, i, sizes[1..], aborted); }
  }

  /** The code under which the reader's error is recorded; a body cut off by an abort is an aborted request. */
  function RecordedAs(e: BodyFraming.BodyError, aborted: bool): ErrorCode {
    match e
    case InvalidContentLength => ErrorCode.InvalidContentLength
    case RequestBodyTooLarge => ErrorCode.RequestBodyTooLarge
    case IncompleteRequestBody => if aborted then RequestAborted else ErrorCode.IncompleteRequestBody
  }

  /**
   Chunk by chunk, the handler comes to what the reader makes of the whole body, however it is cut: the request
   holds exactly a body that the reader returns, and for one it refuses, the error is recorded and the lease is
   given back, in this order and once.
   */
  lemma {:induction false} ReadsLikeTheReader(maxBytes: nat, g: Gateway, i: nat, sizes: seq<nat>, aborted: bool,
          body: seq<BodyReader.Byte>)
    requires Reading(g, i) && |body| == g.requests[i].kept + Total(sizes)
    requires g.requests[i].kept <= maxBytes
    requires g.requests[i].framing.Declared? ==> g.requests[i].kept <= g.requests[i].framing.bytes <= maxBytes
    ensures var r := g.requests[i]; var g' := ReadAll(maxBytes, g, i, sizes, aborted);
      g' == match BodyReader.Outcome(r.framing, maxBytes, body)
            case Ok(_) => g.(requests := g.requests[i := r.(kept := |body|, reading := false)])
            case Err(e) => Gateway(g.ops + [RecordOutcome(RecordedAs(e, aborted)), Release(i)],
                                   g.requests[i := r.(kept := 0, reading := false, active := false)])
    decreases |sizes|
  {
    var r := g.requests[i];
    if sizes != [] {
      var g1 := Step(maxBytes, g, ReadsChunk(i, sizes[0]));
      if ChunkFits(maxBytes, r, sizes[0]) {
        ReadsLikeTheReader(maxBytes, g1, i, sizes[1..], aborted, body);
        assert g1.requests == g.requests[i := r.(kept := r.kept + sizes[0])];
      } else {
        ReadsNoMore(maxBytes, g1, i, sizes[1..], aborted);
      }
    }
  }

  /**
   What an arrival comes to: a request with malformed or oversized framing is recorded as such and asks for
   nothing; any other asks for its declared length, or for the maximum, and holds a lease exactly when the
   allocator has room.
   */
  lemma ArrivalDecides(maxBytes: nat, g: Gateway, framing: Result<BodyFraming.Framing, BodyFraming.BodyError>)
    ensures var g' := Step(maxBytes, g, Arrives(framing));
      match framing
      case Err(e) => g' == g.(ops := g.ops + [RecordOutcome(RecordedAs(e, false))])
      case Ok(f) =>
        if f.Declared? && f.bytes > maxBytes then
          g' == g.(ops := g.ops + [RecordOutcome(ErrorCode.RequestBodyTooLarge)])
        else
          var asked := if f.Declared? then f.bytes else maxBytes;
          if RequiredBodyUnits(asked) <= Run(g.ops).capacity.total - Run(g.ops).capacity.used then
            g' == Gateway(g.ops + [TryAcquire(asked)], g.requests + [Request(f, 0, true, true)])
          else g' == g.(ops := g.ops + [TryAcquire(asked)] + [RecordOutcome(GatewayCapacityExceeded)])
  {
  }

  /** The error code with which the event ends its request, if it does and if it fails. */
  function FailsWith(maxBytes: nat, g: Gateway, e: Event): Option<ErrorCode> {
    match e
    case TurnedAway(failure) => failure
    case Arrives(framing) =>
      if Asked(maxBytes, framing).Err? then Some(CodeOf(Asked(maxBytes, framing).error))
      else if Admits(maxBytes, g, framing) then None else Some(GatewayCapacityExceeded)
    case ReadsChunk(i, size) =>
      if Reading(g, i) && !ChunkFits(maxBytes, g.requests[i], size) then Some(ChunkError(g.requests[i], size)) else None
    case BodyEnds(i, aborted) =>
      if Reading(g, i) && EndsShort(g.requests[i]) then Some(if aborted then RequestAborted else IncompleteRequestBody)
      else None
    case Finishes(i, failure) => if i < |g.requests| && g.requests[i].active then failure else None
    case Observes(_) => None
  }

  /**
   The request counts under `code`. A capacity refusal is the allocator's own: the same code reported by anything
   but an arrival, a provider say, does not count.
   */
  predicate CountsAs(maxBytes: nat, g: Gateway, e: Event, code: ErrorCode) {
    FailsWith(maxBytes, g, e) == Some(code) && (code.GatewayCapacityExceeded? ==> e.Arrives?)
  }

  /** How many requests of the run count under `code`. */
  function Failures(maxBytes: nat, events: seq<Event>, code: ErrorCode): nat
    decreases |events|
  {
    if events == [] then 0
    else
      var n := |events| - 1;
      Failures(maxBytes, events[..n], code)
      + if CountsAs(maxBytes, RunGateway(maxBytes, events[..n]), events[n], code) then 1 else 0
  }

  function Count(o: Outcomes, code: ErrorCode): nat {
    match code
    case GatewayCapacityExceeded => o.capacityExceeded
    case RequestAborted => o.aborted
    case IncompleteRequestBody => o.incomplete
    case InvalidContentLength => o.invalidLength
    case RequestBodyTooLarge => o.tooLarge
  }

  lemma OccurredSnoc(ops: seq<Op>, op: Op, code: ErrorCode)
    ensures Count(Occurred(ops + [op]), code)
      == Count(Occurred(ops), code) + Count(OutcomesOf(Run(ops).capacity, op), code)
  {
    assert (ops + [op])[..|ops|] == ops;
    OutcomesUnfold(ops + [op]);
  }

  /** `more` has seen as many outcomes of this kind as `ops`, and `extra` besides. */
  ghost predicate Adds(ops: seq<Op>, more: seq<Op>, code: ErrorCode, extra: nat) {
    Count(Occurred(more), code) == Count(Occurred(ops), code) + extra
  }

  /** A call to the allocator that is neither an acquisition nor a recorded outcome. */
  lemma QuietOccurs(ops: seq<Op>, op: Op, code: ErrorCode)
    requires !op.TryAcquire? && !op.RecordOutcome?
    ensures Adds(ops, ops + [op], code, 0)
  {
    OccurredSnoc(ops, op, code);
  }

  lemma RecordOccurs(ops: seq<Op>, recorded: ErrorCode, code: ErrorCode)
    ensures Adds(ops, ops + [RecordOutcome(recorded)], code,
                 if recorded == code && !code.GatewayCapacityExceeded? then 1 else 0)
  {
    OccurredSnoc(ops, RecordOutcome(recorded), code);
  }

  lemma AcquireOccurs(ops: seq<Op>, bytes: nat, code: ErrorCode)
    ensures Adds(ops, ops + [TryAcquire(bytes)], code,
                 if Refuses(Run(ops).capacity, bytes) && code.GatewayCapacityExceeded? then 1 else 0)
  {
    OccurredSnoc(ops, TryAcquire(bytes), code);
  }

  lemma FailureOccurs(ops: seq<Op>, failure: Option<ErrorCode>, code: ErrorCode)
    ensures Adds(ops, RecordFailure(ops, failure), code,
                 if failure == Some(code) && !code.GatewayCapacityExceeded? then 1 else 0)
  {
    if failure.Some? { RecordOccurs(ops, failure.value, code); }
  }

  lemma FinishOccurs(g: Gateway, i: nat, failure: Option<ErrorCode>, code: ErrorCode)
    requires i < |g.requests|
    ensures Adds(g.ops, Finish(g, i, failure).ops, code,
                 if g.requests[i].active && failure == Some(code) && !code.GatewayCapacityExceeded? then 1 else 0)
  {
    if g.requests[i].active {
      FailureOccurs(g.ops, failure, code);
      QuietOccurs(RecordFailure(g.ops, failure), Release(i), code);
    }
  }

  /** A refused arrival is counted once, although the handler records its code again. */
  lemma RefusedOccurs(ops: seq<Op>, bytes: nat, code: ErrorCode)
    requires Refuses(Run(ops).capacity, bytes)
    ensures Adds(ops, ops + [TryAcquire(bytes)] + [RecordOutcome(GatewayCapacityExceeded)], code,
                 if code.GatewayCapacityExceeded? then 1 else 0)
  {
    AcquireOccurs(ops, bytes, code);
    RecordOccurs(ops + [TryAcquire(bytes)], GatewayCapacityExceeded, code);
  }

  lemma ArrivalOccurs(maxBytes: nat, g: Gateway, framing: Result<BodyFraming.Framing, BodyFraming.BodyError>,
          code: ErrorCode)
    ensures Adds(g.ops, Step(maxBytes, g, Arrives(framing)).ops, code,
                 if CountsAs(maxBytes, g, Arrives(framing), code) then 1 else 0)
  {
    var asked := Asked(maxBytes, framing);
    var more := Step(maxBytes, g, Arrives(framing)).ops;
    if asked.Err? {
      RecordOccurs(g.ops, CodeOf(asked.error), code);
      assert more == g.ops + [RecordOutcome(CodeOf(asked.error))];
      assert CountsAs(maxBytes, g, Arrives(framing), code) <==> CodeOf(asked.error) == code;
    } else if Admits(maxBytes, g, framing) {
      AcquireOccurs(g.ops, asked.value, code);
      assert more == g.ops + [TryAcquire(asked.value)];
      assert !CountsAs(maxBytes, g, Arrives(framing), code);
    } else {
      RefusedOccurs(g.ops, asked.value, code);
      assert more == g.ops + [TryAcquire(asked.value)] + [RecordOutcome(GatewayCapacityExceeded)];
      assert CountsAs(maxBytes, g, Arrives(framing), code) <==> code.GatewayCapacityExceeded?;
    }
  }

  lemma ChunkOccurs(maxBytes: nat, g: Gateway, i: nat, size: nat, code: ErrorCode)
    ensures Adds(g.ops, Step(maxBytes, g, ReadsChunk(i, size)).ops, code,
                 if CountsAs(maxBytes, g, ReadsChunk(i, size), code) then 1 else 0)
  {
    if Reading(g, i) { FinishOccurs(g, i, Some(ChunkError(g.requests[i], size)), code); }
  }

  lemma EndOccurs(maxBytes: nat, g: Gateway, i: nat, aborted: bool, code: ErrorCode)
    ensures Adds(g.ops, Step(maxBytes, g, BodyEnds(i, aborted)).ops, code,
                 if CountsAs(maxBytes, g, BodyEnds(i, aborted), code) then 1 else 0)
  {
    if Reading(g, i) { FinishOccurs(g, i, Some(if aborted then RequestAborted else IncompleteRequestBody), code); }
  }

  lemma EventOccurs(maxBytes: nat, g: Gateway, e: Event, code: ErrorCode)
    ensures Adds(g.ops, Step(maxBytes, g, e).ops, code, if CountsAs(maxBytes, g, e, code) then 1 else 0)
  {
    match e
    case TurnedAway(failure) => FailureOccurs(g.ops, failure, code);
    case Arrives(framing) => ArrivalOccurs(maxBytes, g, framing, code);
    case ReadsChunk(i, size) => ChunkOccurs(maxBytes, g, i, size, code);
    case BodyEnds(i, aborted) => EndOccurs(maxBytes, g, i, aborted, code);
    case Finishes(i, failure) => if i < |g.requests| { FinishOccurs(g, i, failure, code); }
    case Observes(op) => if !op.TryAcquire? && !op.RecordOutcome? { QuietOccurs(g.ops, op, code); }
  }

  lemma {:induction false} FailuresOccur(maxBytes: nat, events: seq<Event>, code: ErrorCode)
    ensures Count(Occurred(RunGateway(maxBytes, events).ops), code) == Failures(maxBytes, events, code)
    decreases |events|
  {
    if events != [] {
      var n := |events| - 1;
      FailuresOccur(maxBytes, events[..n], code);
      EventOccurs(maxBytes, RunGateway(maxBytes, events[..n]), events[n], code);
    }
  }

  /**
   On every run of the gateway, the reported and the pending outcomes of each kind are together exactly the body
   requests that ended that way: each refused, malformed, oversized, short or aborted one once.
   */
  lemma {:induction false} FailuresAreReportedOnce(maxBytes: nat, events: seq<Event>, code: ErrorCode)
    ensures var ops := RunGateway(maxBytes, events).ops;
      Count(ReportedOutcomes(ops), code) + Count(Run(ops).capacity.outcomes, code) == Failures(maxBytes, events, code)
  {
    OutcomesAreConserved(RunGateway(maxBytes, events).ops);
    FailuresOccur(maxBytes, events, code);
  }
}
