/** Recursive freezing of an object graph (packages/application-operations/src/registry.ts). */
module DeepFreeze {
  import opened ObjectGraph

  /** The objects of the program; freezing changes only which of them are frozen. */
  class Heap {
    const graph: Graph
    var frozen: set<nat>

    constructor (graph: Graph, frozen: set<nat>)
      ensures this.graph == graph && this.frozen == frozen
    {
      this.graph := graph;
      this.frozen := frozen;
    }

    /**
     Freezes `v` and then its children, marking an object before its children are visited. Whatever is newly
     frozen has all its children frozen and is reachable through objects that were not frozen before.
     */
    method Visit(v: Value)
      requires WellFormed(graph) && Inside(graph, v)
      modifies this`frozen
      ensures Explored(graph, old(frozen), frozen)
      ensures v.Ref? ==> v.id in frozen
      ensures forall n :: n in frozen && n !in old(frozen) ==> n in graph && Reach(graph, old(frozen), v, n)
      decreases graph.Keys - frozen
    {
      if !v.Ref? || v.id in frozen { return; }
      ghost var before := frozen;
      frozen := frozen + {v.id};
      ReachSelf(graph, before, v.id);
      var items := Children(graph[v.id]);
      var i := 0;
      while i < |items|
        invariant 0 <= i <= |items|
        invariant forall j :: 0 <= j < i && items[j].Ref? ==> items[j].id in frozen
        invariant Explored(graph, before + {v.id}, frozen)
        invariant forall n :: n in frozen && n !in before ==> n in graph && Reach(graph, before, v, n)
      {
        ghost var marked := frozen;
        assert v.id in graph.Keys - before && v.id !in graph.Keys - marked;
        assert Inside(graph, items[i]);
        Visit(items[i]);
        forall n | n in frozen && n !in marked ensures Reach(graph, before, v, n) {
          ReachThrough(graph, before, marked, v.id, items[i], n);
        }
        ExploredTwice(graph, before + {v.id}, marked, frozen);
        i := i + 1;
      }
    }

    /**
     Exactly the old objects and what `v` reaches without passing through an old one. When the old objects
     are closed under children this is everything reachable from `v`.
     */
    method DeepFreeze(v: Value)
      requires WellFormed(graph) && Inside(graph, v)
      modifies this`frozen
      ensures Explored(graph, old(frozen), frozen) && (v.Ref? ==> v.id in frozen)
      ensures forall n :: n in frozen <==> n in old(frozen) || Reach(graph, old(frozen), v, n)
      ensures ClosedUnderChildren(graph, old(frozen)) ==>
        ClosedUnderChildren(graph, frozen) && forall n :: n in frozen <==> n in old(frozen) || Reach(graph, {}, v, n)
    {
      ghost var before := frozen;
      Visit(v);
      forall n | Reach(graph, before, v, n) ensures n in frozen {
        ReachStaysInside(graph, before, frozen, v, n);
      }
      if ClosedUnderChildren(graph, before) {
        forall n ensures n in frozen <==> n in before || Reach(graph, {}, v, n) {
          AvoidingClosedHidesOnlyMembers(graph, before, v, n);
        }
      }
    }
  }

  /** What a call on `v` leaves frozen when `before` is frozen beforehand. */
  ghost predicate FrozenAfter(g: Graph, before: set<nat>, v: Value, n: nat) {
    n in before || Reach(g, before, v, n)
  }

  /**
   `v` reaches the object `m`, frozen beforehand, one of whose children was not frozen and cannot be reached
   past the frozen objects.
   */
  ghost predicate Shallow(g: Graph, before: set<nat>, v: Value, m: nat) {
    m in before && Reach(g, {}, v, m) && exists c :: Edge(g, m, c) && c !in before && !Reach(g, before, v, c)
  }

  lemma FrozenAfterSpreads(g: Graph, before: set<nat>, v: Value, m: nat, c: nat)
    requires WellFormed(g) && Reach(g, before, v, m) && Edge(g, m, c)
    ensures FrozenAfter(g, before, v, c)
  {
    var p :| Leads(g, before, p, v, m);
    var i :| 0 <= i < |Children(g[m])| && Children(g[m])[i] == Ref(c);
    assert Inside(g, Children(g[m])[i]);
    if c !in before { assert Leads(g, before, p + [c], v, c); }
  }

  lemma {:induction false} PathIsFrozen(g: Graph, before: set<nat>, v: Value, p: seq<nat>, k: nat)
    requires WellFormed(g) && Path(g, {}, p) && v == Ref(p[0]) && k < |p|
    requires forall m :: !Shallow(g, before, v, m)
    ensures FrozenAfter(g, before, v, p[k])
  {
    if k == 0 {
      if p[0] !in before { ReachSelf(g, before, p[0]); }
    } else {
      PathIsFrozen(g, before, v, p, k - 1);
      var m := p[k - 1];
      assert Edge(g, m, p[k - 1 + 1]);
      if m in before {
        assert Leads(g, {}, p[..k], v, m);
        assert !Shallow(g, before, v, m);
      } else {
        FrozenAfterSpreads(g, before, v, m, p[k]);
      }
    }
  }

  /**
   Freezing reaches everything exactly when no object that is already frozen, and reached, has a child that
   would be left out: an object frozen on its own, not deeply, stops the traversal.
   */
  lemma FreezesEverythingExactlyWhen(g: Graph, before: set<nat>, v: Value)
    requires WellFormed(g)
    ensures (forall n :: Reach(g, {}, v, n) ==> FrozenAfter(g, before, v, n)) <==> forall m :: !Shallow(g, before, v, m)
  {
    if forall m :: !Shallow(g, before, v, m) {
      forall n | Reach(g, {}, v, n) ensures FrozenAfter(g, before, v, n) {
        var p :| Leads(g, {}, p, v, n);
        PathIsFrozen(g, before, v, p, |p| - 1);
      }
    } else {
      var m :| Shallow(g, before, v, m);
      var c :| Edge(g, m, c) && c !in before && !Reach(g, before, v, c);
      var p :| Leads(g, {}, p, v, m);
      var i :| 0 <= i < |Children(g[m])| && Children(g[m])[i] == Ref(c);
      assert Inside(g, Children(g[m])[i]);
      assert Leads(g, {}, p + [c], v, c);
      assert Reach(g, {}, v, c) && !FrozenAfter(g, before, v, c);
    }
  }

  /** It suffices that every object that is reached and frozen beforehand has frozen children only. */
  lemma DeeplyFrozenSuffices(g: Graph, before: set<nat>, v: Value)
    requires WellFormed(g)
    requires forall m, c :: m in before && Edge(g, m, c) && Reach(g, {}, v, m) ==> c in before
    ensures forall n :: Reach(g, {}, v, n) ==> FrozenAfter(g, before, v, n)
  {
    FreezesEverythingExactlyWhen(g, before, v);
  }

  /** A frozen array whose element is not frozen: the element stays unfrozen. */
  lemma ShallowFreezeStops()
    ensures var g: Graph := map[0 := Arr([Ref(1)]), 1 := Arr([])];
      WellFormed(g) && Reach(g, {}, Ref(0), 1) && !FrozenAfter(g, {0}, Ref(0), 1)
  {
    var g: Graph := map[0 := Arr([Ref(1)]), 1 := Arr([])];
    assert Ref(1) in Children(g[0]);
    assert Leads(g, {}, [0, 1], Ref(0), 1);
    forall p ensures !Leads(g, {0}, p, Ref(0), 1) {}
  }
}
