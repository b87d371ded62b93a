/**
 The allocator and its leases as objects updated in place (apps/gateway/src/request-body.ts), each method
 proved against the step functions of module BodyCapacity.
 */
module BodyLeases {
  import opened Prelude
  import opened BodyCapacity

  class BodyRequestLease {
    const units: nat
    const capacity: WeightedBodyRequestCapacity
    ghost const number: nat
    var released: bool

    constructor (units: nat, capacity: WeightedBodyRequestCapacity, ghost number: nat)
      ensures this.units == units && this.capacity == capacity && this.number == number && !released
    {
      this.units, this.capacity, this.number := units, capacity, number;
      released := false;
    }

    /** Gives the units back the first time, and does nothing after that. */
    method Release()
      requires capacity.Valid() && number < |capacity.issued| && capacity.issued[number] == this
      modifies this, capacity
      ensures capacity.Valid() && capacity.issued == old(capacity.issued)
      ensures capacity.model == Step(old(capacity.model), Op.Release(number))
    {
      if released {
        return;
      }
      released := true;
      capacity.usedUnits := capacity.usedUnits - units;
      capacity.model := Step(capacity.model, Op.Release(number));
    }
  }

  class WeightedBodyRequestCapacity {
    var totalUnits: nat
    var usedUnits: int
    var memorySample: Option<Sample>
    var previousCgroupRefault: Option<nat>
    var cgroupRefaultDelta: nat
    var previousCgroupEvents: Option<CgroupEvents>
    var cgroupEventsDelta: CgroupEvents
    var contentLengthPresent: nat
    var contentLengthAbsent: nat
    var outcomeCounts: Outcomes
    /** Every lease handed out, in order, and the state of the transition system. */
    ghost var issued: seq<BodyRequestLease>
    ghost var model: Ledger

    ghost function View(): Capacity
      reads this
    {
      Capacity(totalUnits, usedUnits, memorySample, previousCgroupRefault, cgroupRefaultDelta,
               previousCgroupEvents, cgroupEventsDelta, contentLengthPresent, contentLengthAbsent, outcomeCounts)
    }

    ghost predicate Valid()
      reads this, issued
    {
      && model.capacity == View()
      && |issued| == |model.leases|
      && forall i :: 0 <= i < |issued| ==>
           && issued[i].number == i && issued[i].capacity == this
           && issued[i].units == model.leases[i].units && issued[i].released == model.leases[i].released
    }

    constructor ()
      ensures Valid() && issued == [] && model == Run([])
    {
      totalUnits, usedUnits, memorySample := 0, 0, None;
      previousCgroupRefault, cgroupRefaultDelta := None, 0;
      previousCgroupEvents, cgroupEventsDelta := None, CgroupEvents(0, 0, 0, 0);
      contentLengthPresent, contentLengthAbsent, outcomeCounts := 0, 0, Outcomes(0, 0, 0, 0, 0);
      issued, model := [], Run([]);
    }

    /** `ok` is false when the sample is rejected with a TypeError. */
    method UpdateMemory(sample: Sample) returns (ok: bool)
      requires Valid()
      modifies this
      ensures Valid() && issued == old(issued)
      ensures ok == ValidSample(sample) && model == Step(old(model), Op.UpdateMemory(sample))
    {
      ok := ValidSample(sample);
      if ok {
        var safetyReserveBytes := MemorySafetyReserveBytes(sample.limit);
        var usableMemoryBytes := Max(0, sample.available - safetyReserveBytes);
        totalUnits := usableMemoryBytes / 0x90_0000;
        memorySample := Some(sample);
        UpdateCgroupRefault(sample.memory);
        UpdateCgroupEvents(sample.events);
      }
      model := Step(model, Op.UpdateMemory(sample));
    }

    method UpdateCgroupRefault(memory: Option<CgroupMemory>)
      modifies this`previousCgroupRefault, this`cgroupRefaultDelta
      ensures previousCgroupRefault == if memory.Some? then Some(memory.value.workingsetRefaultFile) else None
      ensures cgroupRefaultDelta ==
        if memory.None? then 0
        else if old(previousCgroupRefault).None? then old(cgroupRefaultDelta)
        else old(cgroupRefaultDelta) + Max(0, memory.value.workingsetRefaultFile - old(previousCgroupRefault).value)
    {
      if memory.None? {
        previousCgroupRefault := None;
        cgroupRefaultDelta := 0;
        return;
      }
      var refault := memory.value.workingsetRefaultFile;
      if previousCgroupRefault.Some? {
        cgroupRefaultDelta := cgroupRefaultDelta + Max(0, refault - previousCgroupRefault.value);
      }
      previousCgroupRefault := Some(refault);
    }

    method UpdateCgroupEvents(events: Option<CgroupEvents>)
      modifies this`previousCgroupEvents, this`cgroupEventsDelta
      ensures previousCgroupEvents == if events.Some? then events else old(previousCgroupEvents)
      ensures cgroupEventsDelta ==
        if events.Some? && old(previousCgroupEvents).Some?
        then Plus(old(cgroupEventsDelta), Increment(events.value, old(previousCgroupEvents).value))
        else old(cgroupEventsDelta)
    {
      if events.None? {
        return;
      }
      if previousCgroupEvents.Some? {
        cgroupEventsDelta := Plus(cgroupEventsDelta, Increment(events.value, previousCgroupEvents.value));
      }
      previousCgroupEvents := events;
    }

    method TryAcquire(bodyBytes: nat) returns (lease: BodyRequestLease?)
      requires Valid()
      modifies this
      ensures Valid() && model == Step(old(model), Op.TryAcquire(bodyBytes))
      ensures lease == null <==> Refuses(old(model).capacity, bodyBytes)
      ensures lease == null ==> issued == old(issued)
      ensures lease != null ==>
        fresh(lease) && lease.capacity == this && lease.number == |old(issued)| && issued == old(issued) + [lease]
    {
      var units := RequiredBodyUnits(bodyBytes);
      ghost var next := Step(model, Op.TryAcquire(bodyBytes));
      if units > totalUnits - usedUnits {
        outcomeCounts := outcomeCounts.(capacityExceeded := outcomeCounts.capacityExceeded + 1);
        model := next;
        return null;
      }
      usedUnits := usedUnits + units;
      var granted := new BodyRequestLease(units, this, |issued|);
      issued := issued + [granted];
      model := next;
      lease := granted;
    }

    method RecordContentLength(present: bool)
      requires Valid()
      modifies this
      ensures Valid() && issued == old(issued) && model == Step(old(model), Op.RecordContentLength(present))
    {
      if present {
        contentLengthPresent := contentLengthPresent + 1;
      } else {
        contentLengthAbsent := contentLengthAbsent + 1;
      }
      model := Step(model, Op.RecordContentLength(present));
    }

    method RecordOutcome(code: ErrorCode)
      requires Valid()
      modifies this
      ensures Valid() && issued == old(issued) && model == Step(old(model), Op.RecordOutcome(code))
    {
      match code {
        case GatewayCapacityExceeded =>
        case RequestAborted => outcomeCounts := outcomeCounts.(aborted := outcomeCounts.aborted + 1);
        case IncompleteRequestBody => outcomeCounts := outcomeCounts.(incomplete := outcomeCounts.incomplete + 1);
        case InvalidContentLength => outcomeCounts := outcomeCounts.(invalidLength := outcomeCounts.invalidLength + 1);
        case RequestBodyTooLarge => outcomeCounts := outcomeCounts.(tooLarge := outcomeCounts.tooLarge + 1);
      }
      model := Step(model, Op.RecordOutcome(code));
    }

    method TakeRuntimeSnapshot() returns (r: Report)
      requires Valid()
      modifies this
      ensures Valid() && issued == old(issued)
      ensures r == Snapshot(old(model).capacity) && model == Step(old(model), TakeSnapshot)
    {
      var sample := memorySample;
      var limit := if sample.Some? then sample.value.limit else 0;
      r := Report(sample.Some?, limit, if sample.Some? then sample.value.available else 0,
                  if sample.Some? then MemorySafetyReserveBytes(limit) else 0,
                  totalUnits, usedUnits,
                  if sample.Some? && sample.value.memory.Some? then Some(cgroupRefaultDelta) else None,
                  contentLengthPresent, contentLengthAbsent, outcomeCounts, cgroupEventsDelta);
      contentLengthPresent, contentLengthAbsent := 0, 0;
      outcomeCounts := Outcomes(0, 0, 0, 0, 0);
      cgroupEventsDelta := CgroupEvents(0, 0, 0, 0);
      cgroupRefaultDelta := 0;
      model := Step(model, TakeSnapshot);
    }
  }
}
