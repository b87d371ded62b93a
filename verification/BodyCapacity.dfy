/**
 Weighted admission of request bodies (apps/gateway/src/request-body.ts, WeightedBodyRequestCapacity and
 BodyRequestLease). Memory samples set the number of units, leases take units and give them back once,
 and a snapshot reports and resets the counters.
 */
module BodyCapacity {
  import opened Prelude

  const BODY_BYTES_PER_UNIT: nat := 0x10_0000 // one MiB
  const MEMORY_AMPLIFICATION: nat := 9
  const MINIMUM_MEMORY_SAFETY_RESERVE_BYTES: nat := 0x2000_0000 // 512 MiB

  datatype CgroupEvents = CgroupEvents(high: nat, max: nat, oom: nat, oomKill: nat)

  datatype CgroupMemory = CgroupMemory(
    currentBytes: nat, inactiveFileBytes: nat, activeFileBytes: nat, workingSetBytes: int, workingsetRefaultFile: nat)

  datatype Sample = Sample(limit: nat, available: nat, memory: Option<CgroupMemory>, events: Option<CgroupEvents>)

  datatype ErrorCode =
    | GatewayCapacityExceeded | RequestAborted | IncompleteRequestBody | InvalidContentLength | RequestBodyTooLarge

  datatype Outcomes = Outcomes(capacityExceeded: nat, aborted: nat, incomplete: nat, invalidLength: nat, tooLarge: nat)

  function NoEvents(): CgroupEvents {
    CgroupEvents(0, 0, 0, 0)
  }

  function NoOutcomes(): Outcomes {
    Outcomes(0, 0, 0, 0, 0)
  }

  /** The fields of the allocator that a snapshot reports and that updates change. */
  datatype Capacity = Capacity(
    total: nat, used: int, sample: Option<Sample>,
    previousRefault: Option<nat>, refaultDelta: nat,
    previousEvents: Option<CgroupEvents>, eventsDelta: CgroupEvents,
    lengthPresent: nat, lengthAbsent: nat, outcomes: Outcomes)

  function Initial(): Capacity {
    Capacity(0, 0, None, None, 0, None, NoEvents(), 0, 0, NoOutcomes())
  }

  // ----- arithmetic -----

  function RequiredBodyUnits(bodyBytes: nat): nat {
    Max(1, (bodyBytes + 0xF_FFFF) / 0x10_0000)
  }

  /** One fifth of the limit, but never less than the minimum reserve. */
  function MemorySafetyReserveBytes(limit: nat): nat {
    Max(MINIMUM_MEMORY_SAFETY_RESERVE_BYTES, limit / 5)
  }

  /** Each unit of body bytes costs nine units of memory, 9 MiB. */
  function UnitsOf(s: Sample): nat {
    Max(0, s.available - MemorySafetyReserveBytes(s.limit)) / 0x90_0000
  }

  predicate ValidSample(s: Sample) {
    && 0 < s.limit <= MAX_SAFE_INTEGER
    && s.available <= MAX_SAFE_INTEGER
    && (s.memory.Some? ==>
      var m := s.memory.value;
      && m.currentBytes <= MAX_SAFE_INTEGER && m.activeFileBytes <= MAX_SAFE_INTEGER
      && m.workingsetRefaultFile <= MAX_SAFE_INTEGER
      && m.inactiveFileBytes <= m.currentBytes
      && m.workingSetBytes == m.currentBytes - m.inactiveFileBytes)
  }

  function Positive(now: nat, before: nat): nat {
    Max(0, now - before)
  }

  function Increment(now: CgroupEvents, before: CgroupEvents): CgroupEvents {
    CgroupEvents(Positive(now.high, before.high), Positive(now.max, before.max),
                 Positive(now.oom, before.oom), Positive(now.oomKill, before.oomKill))
  }

  function Plus(a: CgroupEvents, b: CgroupEvents): CgroupEvents {
    CgroupEvents(a.high + b.high, a.max + b.max, a.oom + b.oom, a.oomKill + b.oomKill)
  }

  function PlusOutcomes(a: Outcomes, b: Outcomes): Outcomes {
    Outcomes(a.capacityExceeded + b.capacityExceeded, a.aborted + b.aborted, a.incomplete + b.incomplete,
             a.invalidLength + b.invalidLength, a.tooLarge + b.tooLarge)
  }

  // ----- one call -----

  function Update(c: Capacity, s: Sample): Capacity {
    if !ValidSample(s) then c
    else
      var c1 := c.(total := UnitsOf(s), sample := Some(s));
      var c2 :=
        if s.memory.None? then c1.(previousRefault := None, refaultDelta := 0)
        else
          var refault := s.memory.value.workingsetRefaultFile;
          c1.(previousRefault := Some(refault),
              refaultDelta := c1.refaultDelta
                + if c1.previousRefault.Some? then Positive(refault, c1.previousRefault.value) else 0);
      if s.events.None? then c2
      else
        c2.(previousEvents := s.events,
            eventsDelta := if c2.previousEvents.None? then c2.eventsDelta
                           else Plus(c2.eventsDelta, Increment(s.events.value, c2.previousEvents.value)))
  }

  predicate Refuses(c: Capacity, bodyBytes: nat) {
    RequiredBodyUnits(bodyBytes) > c.total - c.used
  }

  function Acquire(c: Capacity, bodyBytes: nat): Capacity {
    if Refuses(c, bodyBytes) then c.(outcomes := c.outcomes.(capacityExceeded := c.outcomes.capacityExceeded + 1))
    else c.(used := c.used + RequiredBodyUnits(bodyBytes))
  }

  function OutcomeOf(code: ErrorCode): Outcomes {
    match code
    case GatewayCapacityExceeded => NoOutcomes()
    case RequestAborted => NoOutcomes().(aborted := 1)
    case IncompleteRequestBody => NoOutcomes().(incomplete := 1)
    case InvalidContentLength => NoOutcomes().(invalidLength := 1)
    case RequestBodyTooLarge => NoOutcomes().(tooLarge := 1)
  }

  function Record(c: Capacity, code: ErrorCode): Capacity {
    c.(outcomes := PlusOutcomes(c.outcomes, OutcomeOf(code)))
  }

  function RecordLength(c: Capacity, present: bool): Capacity {
    if present then c.(lengthPresent := c.lengthPresent + 1) else c.(lengthAbsent := c.lengthAbsent + 1)
  }

  datatype Report = Report(
    sampleValid: bool, limit: nat, available: nat, reserve: nat, total: nat, used: int,
    refaultDelta: Option<nat>, lengthPresent: nat, lengthAbsent: nat, outcomes: Outcomes, eventsDelta: CgroupEvents)

  /** What a snapshot reports; without a memory part in the last sample it reports no refault delta. */
  function Snapshot(c: Capacity): Report {
    var limit := if c.sample.Some? then c.sample.value.limit else 0;
    var available := if c.sample.Some? then c.sample.value.available else 0;
    Report(c.sample.Some?, limit, available, if c.sample.Some? then MemorySafetyReserveBytes(limit) else 0,
           c.total, c.used,
           if c.sample.Some? && c.sample.value.memory.Some? then Some(c.refaultDelta) else None,
           c.lengthPresent, c.lengthAbsent, c.outcomes, c.eventsDelta)
  }

  /** A snapshot also resets every counter it reports. */
  function Reset(c: Capacity): Capacity {
    c.(refaultDelta := 0, eventsDelta := NoEvents(), lengthPresent := 0, lengthAbsent := 0, outcomes := NoOutcomes())
  }

  // ----- leases and runs -----

  datatype Lease = Lease(bytes: nat, units: nat, released: bool)

  /** The allocator with every lease it has handed out. */
  datatype Ledger = Ledger(capacity: Capacity, leases: seq<Lease>)

  datatype Op =
    | UpdateMemory(sample: Sample)
    | TryAcquire(bytes: nat)
    | Release(lease: nat)
    | RecordOutcome(code: ErrorCode)
    | RecordContentLength(present: bool)
    | TakeSnapshot

  function Step(l: Ledger, op: Op): Ledger {
    var c := l.capacity;
    match op
    case UpdateMemory(s) => l.(capacity := Update(c, s))
    case TryAcquire(bytes) =>
      if Refuses(c, bytes) then l.(capacity := Acquire(c, bytes))
      else Ledger(Acquire(c, bytes), l.leases + [Lease(bytes, RequiredBodyUnits(bytes), false)])
    case Release(i) =>
      if i >= |l.leases| || l.leases[i].released then l
      else Ledger(c.(used := c.used - l.leases[i].units), l.leases[i := l.leases[i].(released := true)])
    case RecordOutcome(code) => l.(capacity := Record(c, code))
    case RecordContentLength(present) => l.(capacity := RecordLength(c, present))
    case TakeSnapshot => l.(capacity := Reset(c))
  }

  function Run(ops: seq<Op>): Ledger
    decreases |ops|
  {
    if ops == [] then Ledger(Initial(), [])
    else var n := |ops| - 1; Step(Run(ops[..n]), ops[n])
  }

  function OutstandingUnits(leases: seq<Lease>): nat
    decreases |leases|
  {
    if leases == [] then 0
    else var n := |leases| - 1; OutstandingUnits(leases[..n]) + if leases[n].released then 0 else leases[n].units
  }

  /** The body bytes admitted for requests that still hold their lease. */
  function OutstandingBytes(leases: seq<Lease>): nat
    decreases |leases|
  {
    if leases == [] then 0
    else var n := |leases| - 1; OutstandingBytes(leases[..n]) + if leases[n].released then 0 else leases[n].bytes
  }

  ghost predicate LedgerInv(l: Ledger) {
    && l.capacity.used == OutstandingUnits(l.leases)
    && l.capacity.total == (if l.capacity.sample.Some? then UnitsOf(l.capacity.sample.value) else 0)
    && (forall i :: 0 <= i < |l.leases| ==> l.leases[i].units == RequiredBodyUnits(l.leases[i].bytes))
    && (l.capacity.sample.None? || l.capacity.sample.value.memory.None? ==>
      l.capacity.refaultDelta == 0 && l.capacity.previousRefault.None?)
  }

  lemma {:induction false} ReleaseOne(leases: seq<Lease>, i: nat)
    requires i < |leases| && !leases[i].released
    ensures OutstandingUnits(leases[i := leases[i].(released := true)]) == OutstandingUnits(leases) - leases[i].units
    decreases |leases|
  {
    var n := |leases| - 1;
    var after := leases[i := leases[i].(released := true)];
    if i == n {
      assert after[..n] == leases[..n];
    } else {
      ReleaseOne(leases[..n], i);
      assert after[..n] == leases[..n][i := leases[i].(released := true)];
    }
  }

  lemma AcquireOne(leases: seq<Lease>, lease: Lease)
    ensures OutstandingUnits(leases + [lease]) == OutstandingUnits(leases) + if lease.released then 0 else lease.units
  {
    assert (leases + [lease])[..|leases|] == leases;
  }

  lemma UpdateKeepsLedger(l: Ledger, s: Sample)
    requires LedgerInv(l)
    ensures LedgerInv(l.(capacity := Update(l.capacity, s)))
  {
  }

  lemma AcquireKeepsLedger(l: Ledger, bytes: nat)
    requires LedgerInv(l)
    ensures LedgerInv(Step(l, TryAcquire(bytes)))
  {
    var l' := Step(l, TryAcquire(bytes));
    if !Refuses(l.capacity, bytes) {
      var lease := Lease(bytes, RequiredBodyUnits(bytes), false);
      AcquireOne(l.leases, lease);
      assert l'.leases == l.leases + [lease] && l'.capacity.used == l.capacity.used + lease.units;
    } else {
      assert l'.leases == l.leases && l'.capacity.used == l.capacity.used;
    }
  }

  lemma StepKeepsLedger(l: Ledger, op: Op)
    requires LedgerInv(l)
    ensures LedgerInv(Step(l, op))
  {
    match op
    case UpdateMemory(s) => UpdateKeepsLedger(l, s);
    case TryAcquire(bytes) => AcquireKeepsLedger(l, bytes);
    case Release(i) => if i < |l.leases| && !l.leases[i].released { ReleaseOne(l.leases, i); }
    case _ =>
  }

  /** Used units are exactly the units of the leases not yet released, on every run. */
  lemma {:induction false} LedgerHoldsOnEveryRun(ops: seq<Op>)
    ensures LedgerInv(Run(ops))
    decreases |ops|
  {
    if ops != [] {
      LedgerHoldsOnEveryRun(ops[..|ops| - 1]);
      StepKeepsLedger(Run(ops[..|ops| - 1]), ops[|ops| - 1]);
    }
  }

  /** Units cover bytes: every lease holds at least one unit and enough units for its body. */
  lemma {:induction false} UnitsCoverBytes(leases: seq<Lease>)
    requires forall i :: 0 <= i < |leases| ==> leases[i].units == RequiredBodyUnits(leases[i].bytes)
    ensures OutstandingBytes(leases) <= OutstandingUnits(leases) * BODY_BYTES_PER_UNIT
    decreases |leases|
  {
    if leases != [] {
      UnitsCoverBytes(leases[..|leases| - 1]);
    }
  }

  /**
   At every successful admission, nine times the admitted body bytes of all requests that hold a
   lease, plus the safety reserve, fit into the memory last seen available.
   */
  lemma AdmissionFitsMemory(ops: seq<Op>, bytes: nat)
    requires !Refuses(Run(ops).capacity, bytes)
    ensures var l := Run(ops + [TryAcquire(bytes)]);
      && l.capacity.sample.Some?
      && var s := l.capacity.sample.value;
         MEMORY_AMPLIFICATION * OutstandingBytes(l.leases) + MemorySafetyReserveBytes(s.limit) <= s.available
  {
    assert (ops + [TryAcquire(bytes)])[..|ops|] == ops;
    LedgerHoldsOnEveryRun(ops);
    AdmittedFits(Run(ops), bytes);
  }

  lemma AdmittedFits(l: Ledger, bytes: nat)
    requires LedgerInv(l) && !Refuses(l.capacity, bytes)
    ensures var l' := Step(l, TryAcquire(bytes));
      && l'.capacity.sample.Some?
      && var s := l'.capacity.sample.value;
         MEMORY_AMPLIFICATION * OutstandingBytes(l'.leases) + MemorySafetyReserveBytes(s.limit) <= s.available
  {
    var l' := Step(l, TryAcquire(bytes));
    StepKeepsLedger(l, TryAcquire(bytes));
    UnitsCoverBytes(l'.leases);
    assert 1 <= l'.capacity.used <= l'.capacity.total;
    UnitsFit(l'.capacity.sample.value, l'.capacity.used, OutstandingBytes(l'.leases));
  }

  lemma UnitsFit(s: Sample, used: nat, bytes: nat)
    requires 1 <= used <= UnitsOf(s) && bytes <= used * BODY_BYTES_PER_UNIT
    ensures MEMORY_AMPLIFICATION * bytes + MemorySafetyReserveBytes(s.limit) <= s.available
  {
    var usable := Max(0, s.available - MemorySafetyReserveBytes(s.limit));
    assert usable >= 0x90_0000 * UnitsOf(s) >= 0x90_0000 * used;
  }

  /** `units` is the least number of MiB, and at least one, that holds `bytes`. */
  predicate LeastUnits(bytes: nat, units: nat) {
    1 <= units && bytes <= 1048576 * units && (units == 1 || 1048576 * (units - 1) < bytes)
  }

  /** `free` bytes are no less than 512 MiB and no less than a fifth of the limit, rounded down. */
  predicate ReserveStays(free: int, limit: nat) {
    free >= 536870912 && 5 * free >= limit - 4
  }

  /**
   The exact rule of admission on every run: a request is let in exactly when memory has been sampled and, with 9
   MiB set aside for every unit in use and for each of its own, what is left of the available memory is still
   512 MiB and a fifth of the limit.
   */
  lemma AdmittedExactlyWhen(ops: seq<Op>, bytes: nat, units: nat)
    requires LeastUnits(bytes, units)
    ensures var l := Run(ops); var l' := Run(ops + [TryAcquire(bytes)]);
      var fits := l.capacity.sample.Some?
                  && var s := l.capacity.sample.value;
                     ReserveStays(s.available - 9437184 * (OutstandingUnits(l.leases) + units), s.limit);
      && l'.leases == l.leases + (if fits then [Lease(bytes, units, false)] else [])
      && (fits <==> !Refuses(l.capacity, bytes))
  {
    assert (ops + [TryAcquire(bytes)])[..|ops|] == ops;
    LedgerHoldsOnEveryRun(ops);
    var l := Run(ops);
    RequiredIsLeast(bytes, units);
    if l.capacity.sample.Some? { RoomExactlyWhen(l.capacity.sample.value, OutstandingUnits(l.leases) + units); }
  }

  lemma RequiredIsLeast(bytes: nat, units: nat)
    requires LeastUnits(bytes, units)
    ensures RequiredBodyUnits(bytes) == units
  {
  }

  lemma RoomExactlyWhen(s: Sample, used: nat)
    requires used >= 1
    ensures used <= UnitsOf(s) <==> ReserveStays(s.available - 9437184 * used, s.limit)
  {
    var usable := Max(0, s.available - MemorySafetyReserveBytes(s.limit));
    assert used <= usable / 0x90_0000 <==> 0x90_0000 * used <= usable;
    var free := s.available - 9437184 * used;
    assert s.limit / 5 <= free <==> s.limit < 5 * (free + 1);
  }

  /** So at every admission the reserve is left once nine times the bytes of all admitted bodies are set aside. */
  lemma AdmissionLeavesReserve(ops: seq<Op>, bytes: nat)
    requires !Refuses(Run(ops).capacity, bytes)
    ensures var l := Run(ops + [TryAcquire(bytes)]);
      && l.capacity.sample.Some?
      && var s := l.capacity.sample.value; ReserveStays(s.available - 9 * OutstandingBytes(l.leases), s.limit)
  {
    AdmissionFitsMemory(ops, bytes);
    var s := Run(ops + [TryAcquire(bytes)]).capacity.sample.value;
    assert 5 * (s.limit / 5) >= s.limit - 4;
  }

  /** The last sample that was valid. */
  function LastValid(ops: seq<Op>): Option<Sample>
    decreases |ops|
  {
    if ops == [] then None
    else
      var n := |ops| - 1;
      if ops[n].UpdateMemory? && ValidSample(ops[n].sample) then Some(ops[n].sample) else LastValid(ops[..n])
  }

  /** Admission goes by the last valid sample, whatever else has happened since. */
  lemma {:induction false} SampleIsLastValid(ops: seq<Op>)
    ensures Run(ops).capacity.sample == LastValid(ops)
    decreases |ops|
  {
    if ops != [] { SampleIsLastValid(ops[..|ops| - 1]); }
  }

  /** No sample is ever taken over whose numbers are out of range or do not agree. */
  lemma {:induction false} StoredSampleIsSound(ops: seq<Op>)
    ensures var s := Run(ops).capacity.sample; s.Some? ==>
      && 0 < s.value.limit < 0x20_0000_0000_0000 && s.value.available < 0x20_0000_0000_0000
      && (s.value.memory.Some? ==>
        var m := s.value.memory.value;
        0 <= m.workingSetBytes == m.currentBytes - m.inactiveFileBytes && m.currentBytes < 0x20_0000_0000_0000)
    decreases |ops|
  {
    if ops != [] { StoredSampleIsSound(ops[..|ops| - 1]); }
  }

  /** Giving a lease back a second time changes nothing. */
  lemma DoubleReleaseIsIdle(ops: seq<Op>, i: nat)
    ensures Run(ops + [Release(i)] + [Release(i)]) == Run(ops + [Release(i)])
  {
    var once := ops + [Release(i)];
    assert (once + [Release(i)])[..|once|] == once && once[..|ops|] == ops;
  }

  /** Used units grow only within the total; while a shrunken total is exceeded they never grow. */
  lemma GrowthStaysWithinTotal(l: Ledger, op: Op)
    ensures Step(l, op).capacity.used > l.capacity.used ==>
      op.TryAcquire? && Step(l, op).capacity.used <= Step(l, op).capacity.total
    ensures Step(l, op).capacity.used > Step(l, op).capacity.total ==> Step(l, op).capacity.used <= l.capacity.used
  {
  }

  // ----- conservation of the reported counters -----

  /** The event samples that arrived, in order; a missing sample leaves no trace. */
  function PresentEvents(ops: seq<Op>): seq<CgroupEvents>
    decreases |ops|
  {
    if ops == [] then []
    else
      var n := |ops| - 1;
      var op := ops[n];
      if HasEvents(op) then PresentEvents(ops[..n]) + [op.sample.events.value] else PresentEvents(ops[..n])
  }

  /** The sum of the positive increments between consecutive samples. */
  function Increments(samples: seq<CgroupEvents>): CgroupEvents
    decreases |samples|
  {
    if |samples| < 2 then NoEvents()
    else var n := |samples| - 1; Plus(Increments(samples[..n]), Increment(samples[n], samples[n - 1]))
  }

  /** The sum of the deltas that snapshots reported. */
  function ReportedEvents(ops: seq<Op>): CgroupEvents
    decreases |ops|
  {
    if ops == [] then NoEvents()
    else
      var n := |ops| - 1;
      if ops[n].TakeSnapshot? then Plus(ReportedEvents(ops[..n]), Snapshot(Run(ops[..n]).capacity).eventsDelta)
      else ReportedEvents(ops[..n])
  }

  predicate HasEvents(op: Op) {
    op.UpdateMemory? && ValidSample(op.sample) && op.sample.events.Some?
  }

  lemma EventsStep(l: Ledger, op: Op)
    ensures var c, c' := l.capacity, Step(l, op).capacity;
      && c'.previousEvents == (if HasEvents(op) then op.sample.events else c.previousEvents)
      && c'.eventsDelta == (if op.TakeSnapshot? then NoEvents()
                            else if HasEvents(op) && c.previousEvents.Some?
                            then Plus(c.eventsDelta, Increment(op.sample.events.value, c.previousEvents.value))
                            else c.eventsDelta)
  {
  }

  lemma PlusAssociates(a: CgroupEvents, b: CgroupEvents, c: CgroupEvents)
    ensures Plus(Plus(a, b), c) == Plus(a, Plus(b, c))
  {
  }

  lemma PlusNothing(a: CgroupEvents)
    ensures Plus(a, NoEvents()) == a
  {
  }

  lemma IncrementsSnoc(samples: seq<CgroupEvents>, s: CgroupEvents)
    ensures Increments(samples + [s]) ==
      if |samples| == 0 then NoEvents() else Plus(Increments(samples), Increment(s, samples[|samples| - 1]))
  {
    assert (samples + [s])[..|samples|] == samples;
  }

  /** The invariant of conservation: `delta` is pending, `samples` have arrived. */
  ghost predicate Balanced(reported: CgroupEvents, c: Capacity, samples: seq<CgroupEvents>) {
    && Plus(reported, c.eventsDelta) == Increments(samples)
    && c.previousEvents == if |samples| == 0 then None else Some(samples[|samples| - 1])
  }

  lemma StepKeepsBalance(l: Ledger, op: Op, reported: CgroupEvents, samples: seq<CgroupEvents>)
    requires Balanced(reported, l.capacity, samples)
    ensures Balanced(if op.TakeSnapshot? then Plus(reported, l.capacity.eventsDelta) else reported,
                     Step(l, op).capacity,
                     if HasEvents(op) then samples + [op.sample.events.value] else samples)
  {
    EventsStep(l, op);
    if op.TakeSnapshot? {
      SnapshotKeepsBalance(l.capacity, Step(l, op).capacity, reported, samples);
    } else if HasEvents(op) {
      SampleKeepsBalance(l.capacity, Step(l, op).capacity, op.sample.events.value, reported, samples);
    }
  }

  lemma SnapshotKeepsBalance(c: Capacity, c': Capacity, reported: CgroupEvents, samples: seq<CgroupEvents>)
    requires Balanced(reported, c, samples) && c'.previousEvents == c.previousEvents && c'.eventsDelta == NoEvents()
    ensures Balanced(Plus(reported, c.eventsDelta), c', samples)
  {
    PlusNothing(Plus(reported, c.eventsDelta));
  }

  lemma SampleKeepsBalance(c: Capacity, c': Capacity, s: CgroupEvents, reported: CgroupEvents,
          samples: seq<CgroupEvents>)
    requires Balanced(reported, c, samples) && c'.previousEvents == Some(s)
    requires c'.eventsDelta ==
      if |samples| == 0 then c.eventsDelta else Plus(c.eventsDelta, Increment(s, c.previousEvents.value))
    ensures Balanced(reported, c', samples + [s])
  {
    IncrementsSnoc(samples, s);
    if |samples| > 0 {
      PlusAssociates(reported, c.eventsDelta, Increment(s, c.previousEvents.value));
    }
  }

  lemma NoIncrements(samples: seq<CgroupEvents>)
    requires |samples| == 0
    ensures Increments(samples) == NoEvents()
  {
  }

  lemma NothingBalances(c: Capacity, samples: seq<CgroupEvents>)
    requires |samples| == 0 && c.eventsDelta == NoEvents() && c.previousEvents == None
    ensures Balanced(NoEvents(), c, samples)
  {
    NoIncrements(samples);
    PlusNothing(c.eventsDelta);
  }

  /** The three definitions at a non-empty run. */
  lemma EventsUnfold(ops: seq<Op>)
    requires ops != []
    ensures var n := |ops| - 1;
      var before, op := ops[..n], ops[n];
      && Run(ops) == Step(Run(before), op)
      && ReportedEvents(ops) == (if op.TakeSnapshot? then Plus(ReportedEvents(before), Run(before).capacity.eventsDelta)
                                 else ReportedEvents(before))
      && PresentEvents(ops) == if HasEvents(op) then PresentEvents(before) + [op.sample.events.value]
        else PresentEvents(before)
  {
  }

  lemma {:induction false} EventsNext(ops: seq<Op>)
    requires ops != []
    requires var before := ops[..|ops| - 1];
      Balanced(ReportedEvents(before), Run(before).capacity, PresentEvents(before))
    ensures Balanced(ReportedEvents(ops), Run(ops).capacity, PresentEvents(ops))
  {
    var n := |ops| - 1;
    EventsUnfold(ops);
    StepKeepsBalance(Run(ops[..n]), ops[n], ReportedEvents(ops[..n]), PresentEvents(ops[..n]));
  }

  /** Reported plus pending event deltas are exactly the increments between the samples that arrived. */
  lemma {:induction false} EventsAreConserved(ops: seq<Op>)
    ensures Balanced(ReportedEvents(ops), Run(ops).capacity, PresentEvents(ops))
    decreases |ops|
  {
    if ops == [] {
      NothingBalances(Run(ops).capacity, PresentEvents(ops));
    } else {
      EventsAreConserved(ops[..|ops| - 1]);
      EventsNext(ops);
    }
  }

  lemma PlusIncrement(before: CgroupEvents, now: CgroupEvents)
    requires before.high <= now.high && before.max <= now.max && before.oom <= now.oom && before.oomKill <= now.oomKill
    ensures Plus(before, Increment(now, before)) == now
  {
  }

  /** When the counters never decrease, the increments add up to last minus first. */
  lemma {:induction false} IncrementsTelescope(samples: seq<CgroupEvents>)
    requires samples != []
    requires forall i :: 0 < i < |samples| ==>
      && samples[i - 1].high <= samples[i].high && samples[i - 1].max <= samples[i].max
      && samples[i - 1].oom <= samples[i].oom && samples[i - 1].oomKill <= samples[i].oomKill
    ensures Plus(samples[0], Increments(samples)) == samples[|samples| - 1]
    decreases |samples|
  {
    var n := |samples| - 1;
    if n > 0 {
      IncrementsTelescope(samples[..n]);
      var sum, more := Increments(samples[..n]), Increment(samples[n], samples[n - 1]);
      assert Increments(samples) == Plus(sum, more);
      PlusAssociates(samples[0], sum, more);
      PlusIncrement(samples[n - 1], samples[n]);
    } else {
      PlusNothing(samples[0]);
    }
  }

  /** What one call adds to the outcome counters. */
  function OutcomesOf(c: Capacity, op: Op): Outcomes {
    if op.TryAcquire? && Refuses(c, op.bytes) then NoOutcomes().(capacityExceeded := 1)
    else if op.RecordOutcome? then OutcomeOf(op.code)
    else NoOutcomes()
  }

  /** Each refusal counts once as capacity exceeded; each other recorded code counts once. */
  function Occurred(ops: seq<Op>): Outcomes
    decreases |ops|
  {
    if ops == [] then NoOutcomes()
    else
      var n := |ops| - 1;
      var op := ops[n];
      PlusOutcomes(Occurred(ops[..n]), OutcomesOf(Run(ops[..n]).capacity, op))
  }

  function ReportedOutcomes(ops: seq<Op>): Outcomes
    decreases |ops|
  {
    if ops == [] then NoOutcomes()
    else
      var n := |ops| - 1;
      if ops[n].TakeSnapshot? then PlusOutcomes(ReportedOutcomes(ops[..n]), Snapshot(Run(ops[..n]).capacity).outcomes)
      else ReportedOutcomes(ops[..n])
  }

  lemma OutcomesStep(l: Ledger, op: Op)
    ensures Step(l, op).capacity.outcomes ==
      if op.TakeSnapshot? then NoOutcomes() else PlusOutcomes(l.capacity.outcomes, OutcomesOf(l.capacity, op))
  {
  }

  lemma PlusOutcomesAssociates(a: Outcomes, b: Outcomes, c: Outcomes)
    ensures PlusOutcomes(PlusOutcomes(a, b), c) == PlusOutcomes(a, PlusOutcomes(b, c))
  {
  }

  lemma PlusNoOutcomes(a: Outcomes)
    ensures PlusOutcomes(a, NoOutcomes()) == a
  {
  }

  lemma OutcomesUnfold(ops: seq<Op>)
    requires ops != []
    ensures var n := |ops| - 1;
      var before, op := ops[..n], ops[n];
      && Run(ops) == Step(Run(before), op)
      && Occurred(ops) == PlusOutcomes(Occurred(before), OutcomesOf(Run(before).capacity, op))
      && ReportedOutcomes(ops)
         == (if op.TakeSnapshot? then PlusOutcomes(ReportedOutcomes(before), Run(before).capacity.outcomes)
             else ReportedOutcomes(before))
  {
  }

  lemma OutcomesNext(ops: seq<Op>)
    requires ops != []
    requires var before := ops[..|ops| - 1];
      PlusOutcomes(ReportedOutcomes(before), Run(before).capacity.outcomes) == Occurred(before)
    ensures PlusOutcomes(ReportedOutcomes(ops), Run(ops).capacity.outcomes) == Occurred(ops)
  {
    var before, op := ops[..|ops| - 1], ops[|ops| - 1];
    var l := Run(before);
    OutcomesUnfold(ops);
    OutcomesStep(l, op);
    if op.TakeSnapshot? {
      assert OutcomesOf(l.capacity, op) == NoOutcomes();
      PlusNoOutcomes(Occurred(before));
    } else {
      PlusOutcomesAssociates(ReportedOutcomes(before), l.capacity.outcomes, OutcomesOf(l.capacity, op));
    }
  }

  /** Reported plus pending outcomes are exactly what occurred. */
  lemma {:induction false} OutcomesAreConserved(ops: seq<Op>)
    ensures PlusOutcomes(ReportedOutcomes(ops), Run(ops).capacity.outcomes) == Occurred(ops)
    decreases |ops|
  {
    if ops == [] {
      PlusNoOutcomes(NoOutcomes());
    } else {
      OutcomesAreConserved(ops[..|ops| - 1]);
      OutcomesNext(ops);
    }
  }

  // ----- how many requests said how long they are -----

  /** How many calls said that a request has a Content-Length, or has none. */
  function LengthsSeen(ops: seq<Op>, present: bool): nat
    decreases |ops|
  {
    if ops == [] then 0
    else var n := |ops| - 1; LengthsSeen(ops[..n], present) + if ops[n] == RecordContentLength(present) then 1 else 0
  }

  /** What the snapshots have reported of them. */
  function ReportedLengths(ops: seq<Op>, present: bool): nat
    decreases |ops|
  {
    if ops == [] then 0
    else
      var n := |ops| - 1;
      var report := Snapshot(Run(ops[..n]).capacity);
      ReportedLengths(ops[..n], present)
      + if ops[n].TakeSnapshot? then (if present then report.lengthPresent else report.lengthAbsent) else 0
  }

  /** Every request is reported once under the right heading, or still pending. */
  lemma {:induction false} LengthsAreConserved(ops: seq<Op>)
    ensures ReportedLengths(ops, true) + Run(ops).capacity.lengthPresent == LengthsSeen(ops, true)
    ensures ReportedLengths(ops, false) + Run(ops).capacity.lengthAbsent == LengthsSeen(ops, false)
    decreases |ops|
  {
    if ops != [] { LengthsAreConserved(ops[..|ops| - 1]); }
  }

  /** A snapshot tells the state: the last valid sample, the units in use, and the reserve it keeps. */
  lemma SnapshotTellsTheState(ops: seq<Op>)
    ensures var report := Snapshot(Run(ops).capacity);
      && report.used == OutstandingUnits(Run(ops).leases)
      && (report.sampleValid <==> LastValid(ops).Some?)
      && match LastValid(ops)
         case None => report.limit == report.available == report.reserve == report.total == 0
         case Some(s) =>
           && report.limit == s.limit && report.available == s.available
           && (forall free: nat :: free >= report.reserve <==> ReserveStays(free, s.limit))
           && (forall units: nat :: 1 <= units ==>
                (units <= report.total <==> ReserveStays(s.available - 9437184 * units, s.limit)))
  {
    LedgerHoldsOnEveryRun(ops);
    SampleIsLastValid(ops);
    if LastValid(ops).Some? {
      var s := LastValid(ops).value;
      forall units: nat | 1 <= units
        ensures units <= UnitsOf(s) <==> ReserveStays(s.available - 9437184 * units, s.limit)
      {
        RoomExactlyWhen(s, units);
      }
    }
  }

  // ----- the refault counter, which is not conserved -----

  /** The increments of the refault counter between samples with no memory-less sample in between. */
  function RefaultIncrements(ops: seq<Op>): nat
    decreases |ops|
  {
    if ops == [] then 0
    else
      var n := |ops| - 1;
      var op, previous := ops[n], LastRefault(ops[..n]);
      RefaultIncrements(ops[..n])
      + if op.UpdateMemory? && ValidSample(op.sample) && op.sample.memory.Some? && previous.Some?
        then Positive(op.sample.memory.value.workingsetRefaultFile, previous.value) else 0
  }

  /** The refault counter of the last accepted sample, if that sample had one. */
  function LastRefault(ops: seq<Op>): Option<nat>
    decreases |ops|
  {
    if ops == [] then None
    else
      var n := |ops| - 1;
      var op := ops[n];
      if op.UpdateMemory? && ValidSample(op.sample) then
        if op.sample.memory.Some? then Some(op.sample.memory.value.workingsetRefaultFile) else None
      else LastRefault(ops[..n])
  }

  /** The sum of the refault deltas that snapshots reported. */
  function ReportedRefaults(ops: seq<Op>): nat
    decreases |ops|
  {
    if ops == [] then 0
    else
      var n := |ops| - 1;
      var reported := Snapshot(Run(ops[..n]).capacity).refaultDelta;
      ReportedRefaults(ops[..n]) + if ops[n].TakeSnapshot? && reported.Some? then reported.value else 0
  }

  /** A sample without a memory part arrives while refaults wait to be reported. */
  predicate DropsRefaults(ops: seq<Op>, i: nat)
    requires i < |ops|
  {
    ops[i].UpdateMemory? && ValidSample(ops[i].sample) && ops[i].sample.memory.None?
      && Run(ops[..i]).capacity.refaultDelta > 0
  }

  lemma RefaultStep(l: Ledger, op: Op)
    ensures var c, c' := l.capacity, Step(l, op).capacity;
      var missing := op.UpdateMemory? && ValidSample(op.sample) && op.sample.memory.None?;
      var present := op.UpdateMemory? && ValidSample(op.sample) && op.sample.memory.Some?;
      && c'.previousRefault == (if present then Some(op.sample.memory.value.workingsetRefaultFile)
                                else if missing then None else c.previousRefault)
      && c'.refaultDelta == (if op.TakeSnapshot? || missing then 0
                             else if present && c.previousRefault.Some?
                             then c.refaultDelta
                                  + Positive(op.sample.memory.value.workingsetRefaultFile, c.previousRefault.value)
                             else c.refaultDelta)
  {
  }

  /** The waiting refaults that memory-less samples threw away. */
  function DroppedRefaults(ops: seq<Op>): nat
    decreases |ops|
  {
    if ops == [] then 0
    else
      var n := |ops| - 1;
      DroppedRefaults(ops[..n]) + if DropsRefaults(ops, n) then Run(ops[..n]).capacity.refaultDelta else 0
  }

  lemma {:induction false} DroppedExactlyWhen(ops: seq<Op>)
    ensures DroppedRefaults(ops) == 0 <==> forall i :: 0 <= i < |ops| ==> !DropsRefaults(ops, i)
    decreases |ops|
  {
    if ops != [] {
      var n := |ops| - 1;
      DroppedExactlyWhen(ops[..n]);
      forall i | 0 <= i < n
        ensures DropsRefaults(ops, i) == DropsRefaults(ops[..n], i)
      {
        assert ops[..n][..i] == ops[..i];
      }
    }
  }

  lemma RefaultsUnfold(ops: seq<Op>)
    requires ops != []
    ensures var n := |ops| - 1;
      var before, op, c := ops[..n], ops[n], Run(ops[..n]).capacity;
      && Run(ops) == Step(Run(before), op)
      && RefaultIncrements(ops) == RefaultIncrements(before)
         + (if op.UpdateMemory? && ValidSample(op.sample) && op.sample.memory.Some? && LastRefault(before).Some?
            then Positive(op.sample.memory.value.workingsetRefaultFile, LastRefault(before).value) else 0)
      && LastRefault(ops) == (if op.UpdateMemory? && ValidSample(op.sample)
                              then if op.sample.memory.Some? then Some(op.sample.memory.value.workingsetRefaultFile)
                                   else None
                              else LastRefault(before))
      && ReportedRefaults(ops) == ReportedRefaults(before)
         + (if op.TakeSnapshot? && c.sample.Some? && c.sample.value.memory.Some? then c.refaultDelta else 0)
      && DroppedRefaults(ops) == DroppedRefaults(before) + (if DropsRefaults(ops, n) then c.refaultDelta else 0)
  {
  }

  /** Every refault increment is reported, still waiting, or dropped. */
  lemma {:induction false} RefaultsAccountedFor(ops: seq<Op>)
    ensures ReportedRefaults(ops) + Run(ops).capacity.refaultDelta + DroppedRefaults(ops) == RefaultIncrements(ops)
    ensures Run(ops).capacity.previousRefault == LastRefault(ops)
    decreases |ops|
  {
    if ops != [] {
      var n := |ops| - 1;
      RefaultsAccountedFor(ops[..n]);
      LedgerHoldsOnEveryRun(ops[..n]);
      RefaultsUnfold(ops);
      RefaultStep(Run(ops[..n]), ops[n]);
    }
  }

  /**
   Refault increments are reported in full exactly when no memory-less sample arrives while some are
   waiting: such a sample throws the waiting ones away.
   */
  lemma {:induction false} RefaultsConservedExactlyWhen(ops: seq<Op>)
    ensures ReportedRefaults(ops) + Run(ops).capacity.refaultDelta == RefaultIncrements(ops)
      <==> forall i :: 0 <= i < |ops| ==> !DropsRefaults(ops, i)
  {
    RefaultsAccountedFor(ops);
    DroppedExactlyWhen(ops);
  }

  /** A run in which three refaults are lost. */
  lemma RefaultsCanBeLost()
    ensures var memory := (refaults: nat) => Some(CgroupMemory(10, 4, 1, 6, refaults));
      var ops := [UpdateMemory(Sample(1, 1, memory(2), None)), UpdateMemory(Sample(1, 1, memory(5), None)),
                  UpdateMemory(Sample(1, 1, None, None))];
      DropsRefaults(ops, 2) && ReportedRefaults(ops) + Run(ops).capacity.refaultDelta < RefaultIncrements(ops)
  {
    var memory := (refaults: nat) => Some(CgroupMemory(10, 4, 1, 6, refaults));
    var a, b := UpdateMemory(Sample(1, 1, memory(2), None)), UpdateMemory(Sample(1, 1, memory(5), None));
    var ops := [a, b, UpdateMemory(Sample(1, 1, None, None))];
    assert ops[..2] == [a, b] && [a, b][..1] == [a] && [a][..0] == [];
    RefaultStep(Run([]), a);
    assert Run([a]).capacity.previousRefault == Some(2) && Run([a]).capacity.refaultDelta == 0;
    RefaultStep(Run([a]), b);
    assert Run([a, b]).capacity.refaultDelta == 3;
    assert DropsRefaults(ops, 2);
    RefaultsConservedExactlyWhen(ops);
    RefaultsAccountedFor(ops);
  }
}
