/**
 Mutual exclusion by promise chains (apps/cliproxy-control/src/service.ts): every task waits for the one that was
 last when it arrived. One chain per key, whose map entry the last task removes again (`cleans`), or one global
 chain, whose tail stays.
 */
module PromiseLock {
  import opened Prelude

  datatype Phase = Waiting | Holding | Done

  /** `previous` is the task whose promise this one awaits, None for a promise that was resolved from the start. */
  datatype Task = Task(key: string, previous: Option<nat>, phase: Phase)

  /** Tasks in order of arrival; `tails` names the last task of each key; `entered` lists tasks as they got the lock. */
  datatype Lock = Lock(tasks: seq<Task>, tails: map<string, nat>, entered: seq<nat>)

  datatype Event = Arrive(key: string) | Enter(task: nat) | Leave(task: nat)

  function Empty(): Lock {
    Lock([], map[], [])
  }

  /** The awaited promise has been resolved. */
  predicate CanEnter(l: Lock, i: nat) {
    && i < |l.tasks| && l.tasks[i].phase.Waiting?
    && (l.tasks[i].previous.Some? ==>
          l.tasks[i].previous.value < |l.tasks| && l.tasks[l.tasks[i].previous.value].phase.Done?)
  }

  function Step(cleans: bool, l: Lock, e: Event): Lock {
    match e
    case Arrive(key) =>
      var previous := if key in l.tails then Some(l.tails[key]) else None;
      Lock(l.tasks + [Task(key, previous, Waiting)], l.tails[key := |l.tasks|], l.entered)
    case Enter(i) =>
      if CanEnter(l, i) then l.(tasks := l.tasks[i := l.tasks[i].(phase := Holding)], entered := l.entered + [i]) else l
    case Leave(i) =>
      if i < |l.tasks| && l.tasks[i].phase.Holding? then
        var key := l.tasks[i].key;
        var done := l.(tasks := l.tasks[i := l.tasks[i].(phase := Done)]);
        if cleans && key in l.tails && l.tails[key] == i then done.(tails := l.tails - {key}) else done
      else l
  }

  function Run(cleans: bool, events: seq<Event>): Lock
    decreases |events|
  {
    if events == [] then Empty()
    else Step(cleans, Run(cleans, events[..|events| - 1]), events[|events| - 1])
  }

  /** The earlier of two tasks for one key is done before the later one gets the lock. */
  predicate Ordered(l: Lock, i: nat, j: nat) {
    i < j < |l.tasks| && l.tasks[i].key == l.tasks[j].key && !l.tasks[j].phase.Waiting? ==> l.tasks[i].phase.Done?
  }

  /** Every earlier task for the key is done, or comes no later than the one awaited. */
  predicate Chained(l: Lock, i: nat, j: nat) {
    i < j < |l.tasks| && l.tasks[i].key == l.tasks[j].key ==>
      l.tasks[i].phase.Done? || (l.tasks[j].previous.Some? && i <= l.tasks[j].previous.value)
  }

  predicate AwaitsEarlier(l: Lock, j: nat) {
    j < |l.tasks| && l.tasks[j].previous.Some? ==>
      l.tasks[j].previous.value < j && l.tasks[l.tasks[j].previous.value].key == l.tasks[j].key
  }

  /** The tail is the last task for its key; while entries are cleaned up it is not done. */
  predicate TailOk(cleans: bool, l: Lock, key: string) {
    key in l.tails ==>
      && l.tails[key] < |l.tasks| && l.tasks[l.tails[key]].key == key
      && (cleans ==> !l.tasks[l.tails[key]].phase.Done?)
  }

  predicate CoveredByTail(l: Lock, i: nat) {
    i < |l.tasks| ==> if l.tasks[i].key in l.tails then i <= l.tails[l.tasks[i].key] else l.tasks[i].phase.Done?
  }

  ghost predicate LockInv(cleans: bool, l: Lock) {
    && (forall i: nat, j: nat {:trigger Ordered(l, i, j)} :: Ordered(l, i, j))
    && (forall i: nat, j: nat {:trigger Chained(l, i, j)} :: Chained(l, i, j))
    && (forall j: nat {:trigger AwaitsEarlier(l, j)} :: AwaitsEarlier(l, j))
    && (forall key {:trigger TailOk(cleans, l, key)} :: TailOk(cleans, l, key))
    && (forall i: nat {:trigger CoveredByTail(l, i)} :: CoveredByTail(l, i))
  }

  predicate SameKey(l: Lock, i: nat, j: nat) {
    i < |l.tasks| && j < |l.tasks| && l.tasks[i].key == l.tasks[j].key
  }

  /** `entered` lists exactly the tasks that got the lock; those for one key in the order they arrived. */
  ghost predicate EntryOrder(l: Lock) {
    && (forall i: nat :: i in l.entered <==> i < |l.tasks| && !l.tasks[i].phase.Waiting?)
    && (forall a, b :: 0 <= a < b < |l.entered| && SameKey(l, l.entered[a], l.entered[b]) ==>
      l.entered[a] < l.entered[b])
  }

  lemma ArriveKeeps(cleans: bool, l: Lock, key: string)
    requires LockInv(cleans, l)
    ensures LockInv(cleans, Step(cleans, l, Arrive(key)))
  {
    var m := Step(cleans, l, Arrive(key));
    forall i: nat, j: nat ensures Ordered(m, i, j) { assert Ordered(l, i, j); }
    assert TailOk(cleans, l, key);
    forall i: nat, j: nat ensures Chained(m, i, j) { assert Chained(l, i, j) && CoveredByTail(l, i); }
    forall j: nat ensures AwaitsEarlier(m, j) { assert AwaitsEarlier(l, j); }
    forall k ensures TailOk(cleans, m, k) { assert TailOk(cleans, l, k); }
    forall i: nat ensures CoveredByTail(m, i) { assert CoveredByTail(l, i); }
  }

  /** When a task may enter, every earlier task for its key is done: nobody is overtaken. */
  lemma EarlierAreDone(cleans: bool, l: Lock, i: nat, j: nat)
    requires LockInv(cleans, l) && CanEnter(l, j) && i < j && l.tasks[i].key == l.tasks[j].key
    ensures l.tasks[i].phase.Done?
  {
    assert Chained(l, i, j) && AwaitsEarlier(l, j);
    if l.tasks[j].previous.Some? { assert Ordered(l, i, l.tasks[j].previous.value); }
  }

  lemma EnterKeeps(cleans: bool, l: Lock, t: nat)
    requires LockInv(cleans, l) && CanEnter(l, t)
    ensures LockInv(cleans, Step(cleans, l, Enter(t)))
  {
    var m := Step(cleans, l, Enter(t));
    forall i: nat, j: nat ensures Ordered(m, i, j) {
      assert Ordered(l, i, j);
      if i < j && j == t && l.tasks[i].key == l.tasks[j].key { EarlierAreDone(cleans, l, i, j); }
    }
    forall i: nat, j: nat ensures Chained(m, i, j) { assert Chained(l, i, j); }
    forall j: nat ensures AwaitsEarlier(m, j) { assert AwaitsEarlier(l, j); }
    forall k ensures TailOk(cleans, m, k) { assert TailOk(cleans, l, k); }
    forall i: nat ensures CoveredByTail(m, i) { assert CoveredByTail(l, i); }
  }

  lemma LeaveKeeps(cleans: bool, l: Lock, t: nat)
    requires LockInv(cleans, l) && t < |l.tasks| && l.tasks[t].phase.Holding?
    ensures LockInv(cleans, Step(cleans, l, Leave(t)))
  {
    var m := Step(cleans, l, Leave(t));
    assert CoveredByTail(l, t);
    forall i: nat, j: nat ensures Ordered(m, i, j) { assert Ordered(l, i, j); }
    forall i: nat, j: nat ensures Chained(m, i, j) { assert Chained(l, i, j); }
    forall j: nat ensures AwaitsEarlier(m, j) { assert AwaitsEarlier(l, j); }
    forall k ensures TailOk(cleans, m, k) { assert TailOk(cleans, l, k); }
    forall i: nat ensures CoveredByTail(m, i) { assert CoveredByTail(l, i) && Ordered(l, i, t); }
  }

  lemma StepKeepsLock(cleans: bool, l: Lock, e: Event)
    requires LockInv(cleans, l)
    ensures LockInv(cleans, Step(cleans, l, e))
  {
    match e
    case Arrive(key) => ArriveKeeps(cleans, l, key);
    case Enter(i) => if CanEnter(l, i) { EnterKeeps(cleans, l, i); }
    case Leave(i) => if i < |l.tasks| && l.tasks[i].phase.Holding? { LeaveKeeps(cleans, l, i); }
  }

  lemma StepKeepsEntryOrder(cleans: bool, l: Lock, e: Event)
    requires LockInv(cleans, l) && EntryOrder(l)
    ensures EntryOrder(Step(cleans, l, e))
  {
    if e.Enter? && CanEnter(l, e.task) {
      var m := Step(cleans, l, e);
      forall a | 0 <= a < |l.entered| && SameKey(l, l.entered[a], e.task) ensures l.entered[a] < e.task {
        assert l.entered[a] in l.entered;
        assert Ordered(l, e.task, l.entered[a]);
      }
    }
  }

  lemma {:induction false} LockHoldsOnEveryRun(cleans: bool, events: seq<Event>)
    ensures LockInv(cleans, Run(cleans, events)) && EntryOrder(Run(cleans, events))
    decreases |events|
  {
    if events != [] {
      var l := Run(cleans, events[..|events| - 1]);
      LockHoldsOnEveryRun(cleans, events[..|events| - 1]);
      StepKeepsLock(cleans, l, events[|events| - 1]);
      StepKeepsEntryOrder(cleans, l, events[|events| - 1]);
    }
  }

  /** No two tasks hold the lock of one key at the same time. */
  lemma MutualExclusion(cleans: bool, events: seq<Event>, i: nat, j: nat)
    ensures var tasks := Run(cleans, events).tasks;
      i < |tasks| && j < |tasks| && tasks[i].key == tasks[j].key &&
      tasks[i].phase.Holding? && tasks[j].phase.Holding? ==>
        i == j
  {
    var l := Run(cleans, events);
    LockHoldsOnEveryRun(cleans, events);
    assert Ordered(l, i, j) && Ordered(l, j, i);
  }

  /** Tasks for one key get the lock in the order they arrived, and each only once the one before is done. */
  lemma FirstComeFirstServed(cleans: bool, events: seq<Event>, a: nat, b: nat)
    ensures var l := Run(cleans, events);
      && (a < b < |l.entered| && SameKey(l, l.entered[a], l.entered[b]) ==>
            l.entered[a] < l.entered[b] && l.tasks[l.entered[a]].phase.Done?)
      && (a < b && SameKey(l, a, b) && b in l.entered ==> a in l.entered && l.tasks[a].phase.Done?)
  {
    var l := Run(cleans, events);
    LockHoldsOnEveryRun(cleans, events);
    if a < b < |l.entered| {
      assert l.entered[b] in l.entered && l.entered[a] in l.entered;
      assert Ordered(l, l.entered[a], l.entered[b]);
    }
    assert Ordered(l, a, b);
  }

  predicate Busy(l: Lock, key: string) {
    exists i :: 0 <= i < |l.tasks| && l.tasks[i].key == key && !l.tasks[i].phase.Done?
  }

  /** With cleaning, a key has an entry exactly while somebody holds or awaits its lock. */
  lemma EntryPresentExactlyWhileBusy(events: seq<Event>, key: string)
    ensures key in Run(true, events).tails <==> Busy(Run(true, events), key)
  {
    var l := Run(true, events);
    LockHoldsOnEveryRun(true, events);
    assert TailOk(true, l, key);
    if Busy(l, key) {
      var i :| 0 <= i < |l.tasks| && l.tasks[i].key == key && !l.tasks[i].phase.Done?;
      assert CoveredByTail(l, i);
    }
  }

  lemma {:induction false} FirstUnfinishedMoves(cleans: bool, l: Lock, i: nat) returns (k: nat)
    requires LockInv(cleans, l) && i < |l.tasks| && !l.tasks[i].phase.Done?
    ensures k <= i && l.tasks[k].key == l.tasks[i].key && (l.tasks[k].phase.Holding? || CanEnter(l, k))
    decreases i
  {
    assert AwaitsEarlier(l, i);
    var previous := l.tasks[i].previous;
    if l.tasks[i].phase.Holding? || previous.None? || l.tasks[previous.value].phase.Done? {
      k := i;
    } else {
      k := FirstUnfinishedMoves(cleans, l, previous.value);
    }
  }

  /** Task k is for the key, and has the lock and gives it back, or waits for it and gets it, as soon as it goes on. */
  predicate Moves(cleans: bool, l: Lock, key: string, k: nat) {
    && k < |l.tasks| && l.tasks[k].key == key
    && match l.tasks[k].phase
       case Done => false
       case Holding => Step(cleans, l, Leave(k)).tasks == l.tasks[k := l.tasks[k].(phase := Done)]
       case Waiting => Step(cleans, l, Enter(k)).tasks == l.tasks[k := l.tasks[k].(phase := Holding)]
  }

  /** The lock never gets stuck: while a key is busy, one of its tasks can give it back, or get it. */
  lemma NeverStuck(cleans: bool, events: seq<Event>, key: string)
    requires Busy(Run(cleans, events), key)
    ensures exists k: nat :: Moves(cleans, Run(cleans, events), key, k)
  {
    var l := Run(cleans, events);
    LockHoldsOnEveryRun(cleans, events);
    var i :| 0 <= i < |l.tasks| && l.tasks[i].key == key && !l.tasks[i].phase.Done?;
    var k := FirstUnfinishedMoves(cleans, l, i);
    assert Moves(cleans, l, key, k);
  }
}
