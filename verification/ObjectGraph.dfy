/**
 Finite graphs of JavaScript objects: values refer to objects by identity, so that sharing and cycles are
 ordinary. Reachability is by paths, optionally avoiding a set of objects.
 */
module ObjectGraph {
  /** A value held in a field: an object reference, a string, or any other primitive. */
  datatype Value = Plain | Text(text: string) | Ref(id: nat)

  datatype Node = Arr(items: seq<Value>) | Obj(fields: seq<(string, Value)>)

  type Graph = map<nat, Node>

  /** The values a traversal visits: the elements of an array or the property values of an object. */
  function Children(n: Node): seq<Value> {
    match n
    case Arr(items) => items
    case Obj(fields) => seq(|fields|, i requires 0 <= i < |fields| => fields[i].1)
  }

  predicate OwnsKey(n: Node, key: string) {
    n.Obj? && exists i :: 0 <= i < |n.fields| && n.fields[i].0 == key
  }

  predicate Inside(g: Graph, v: Value) {
    v.Ref? ==> v.id in g
  }

  /** Every reference leads to an object of the graph. */
  ghost predicate WellFormed(g: Graph) {
    forall n, i :: n in g && 0 <= i < |Children(g[n])| ==> Inside(g, Children(g[n])[i])
  }

  predicate Edge(g: Graph, a: nat, b: nat) {
    a in g && Ref(b) in Children(g[a])
  }

  /** `p` is a path of the graph no object of which is in `avoid`. */
  ghost predicate Path(g: Graph, avoid: set<nat>, p: seq<nat>) {
    && |p| > 0
    && (forall i :: 0 <= i < |p| ==> p[i] in g && p[i] !in avoid)
    && (forall i :: 0 <= i < |p| - 1 ==> Edge(g, p[i], p[i + 1]))
  }

  ghost predicate Leads(g: Graph, avoid: set<nat>, p: seq<nat>, v: Value, target: nat) {
    Path(g, avoid, p) && v == Ref(p[0]) && p[|p| - 1] == target
  }

  /** `target` can be reached from `v` without touching `avoid`. */
  ghost predicate Reach(g: Graph, avoid: set<nat>, v: Value, target: nat) {
    exists p :: Leads(g, avoid, p, v, target)
  }

  /** Every object added between `before` and `after` has all its children in `after`. */
  ghost predicate Explored(g: Graph, before: set<nat>, after: set<nat>) {
    && before <= after
    && forall n, c :: n in after && n !in before && Edge(g, n, c) ==> c in after
  }

  ghost predicate ClosedUnderChildren(g: Graph, s: set<nat>) {
    forall n, c :: n in s && Edge(g, n, c) ==> c in s
  }

  lemma ReachSelf(g: Graph, avoid: set<nat>, n: nat)
    requires n in g && n !in avoid
    ensures Reach(g, avoid, Ref(n), n)
  {
    assert Leads(g, avoid, [n], Ref(n), n);
  }

  /** A path from a child of `n` extends to a path from `n`. */
  lemma ReachThrough(g: Graph, avoid: set<nat>, more: set<nat>, n: nat, child: Value, target: nat)
    requires n in g && n !in avoid && avoid <= more && child in Children(g[n]) && Reach(g, more, child, target)
    ensures Reach(g, avoid, Ref(n), target)
  {
    var p :| Leads(g, more, p, child, target);
    assert Leads(g, avoid, [n] + p, Ref(n), target);
  }

  /** A path that starts in an explored region stays in it. */
  lemma {:induction false} PathStaysInside(g: Graph, before: set<nat>, after: set<nat>, p: seq<nat>, k: nat)
    requires Explored(g, before, after) && Path(g, before, p) && p[0] in after && k < |p|
    ensures p[k] in after
  {
    if k > 0 {
      PathStaysInside(g, before, after, p, k - 1);
      assert Edge(g, p[k - 1], p[k - 1 + 1]);
    }
  }

  lemma ReachStaysInside(g: Graph, before: set<nat>, after: set<nat>, v: Value, target: nat)
    requires Explored(g, before, after) && v.Ref? && v.id in after && Reach(g, before, v, target)
    ensures target in after
  {
    var p :| Leads(g, before, p, v, target);
    PathStaysInside(g, before, after, p, |p| - 1);
  }

  /** Once the path has entered a closed set it never leaves it again. */
  lemma {:induction false} StaysInClosed(g: Graph, s: set<nat>, p: seq<nat>, k: nat, j: nat)
    requires ClosedUnderChildren(g, s) && Path(g, {}, p) && k <= j < |p| && p[k] in s
    ensures p[j] in s
    decreases j
  {
    if j > k {
      StaysInClosed(g, s, p, k, j - 1);
      assert Edge(g, p[j - 1], p[j - 1 + 1]);
    }
  }

  /** Avoiding a set closed under children only hides members of that set. */
  lemma AvoidingClosedHidesOnlyMembers(g: Graph, s: set<nat>, v: Value, target: nat)
    requires ClosedUnderChildren(g, s)
    ensures target in s || Reach(g, s, v, target) <==> target in s || Reach(g, {}, v, target)
  {
    if Reach(g, {}, v, target) && target !in s {
      var p :| Leads(g, {}, p, v, target);
      forall k | 0 <= k < |p| ensures p[k] !in s {
        if p[k] in s { StaysInClosed(g, s, p, k, |p| - 1); }
      }
      assert Leads(g, s, p, v, target);
    }
    if Reach(g, s, v, target) {
      var p :| Leads(g, s, p, v, target);
      assert Leads(g, {}, p, v, target);
    }
  }

  lemma ExploredTwice(g: Graph, a: set<nat>, b: set<nat>, c: set<nat>)
    requires Explored(g, a, b) && Explored(g, b, c)
    ensures Explored(g, a, c)
  {
  }
}
