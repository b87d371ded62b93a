/** Order-preserving selection: `IsSub(a, b)` says that `a` arises from `b` by leaving elements out. */
module Subsequence {

  ghost predicate IsSub<T>(a: seq<T>, b: seq<T>)
    decreases |b|
  {
    if a == [] then true
    else if b == [] then false
    else
      var a0, b0 := a[..|a| - 1], b[..|b| - 1];
      (a[|a| - 1] == b[|b| - 1] && IsSub(a0, b0)) || IsSub(a, b0)
  }

  /** The recursive definition means a strictly increasing choice of positions. */
  lemma {:induction false} SubHasPositions<T>(a: seq<T>, b: seq<T>) returns (at: seq<nat>)
    requires IsSub(a, b)
    ensures |at| == |a|
    ensures forall i :: 0 <= i < |a| ==> at[i] < |b| && b[at[i]] == a[i]
    ensures forall i, j :: 0 <= i < j < |a| ==> at[i] < at[j]
    decreases |b|
  {
    if a == [] {
      at := [];
    } else {
      var a0, b0 := a[..|a| - 1], b[..|b| - 1];
      if a[|a| - 1] == b[|b| - 1] && IsSub(a0, b0) {
        at := SubHasPositions(a0, b0);
        at := at + [|b| - 1];
      } else {
        at := SubHasPositions(a, b0);
      }
    }
  }

  lemma {:induction false} SubTrans<T>(a: seq<T>, b: seq<T>, c: seq<T>)
    requires IsSub(a, b) && IsSub(b, c)
    ensures IsSub(a, c)
    decreases |b| + |c|
  {
    if a != [] {
      var a0, b0, c0 := a[..|a| - 1], b[..|b| - 1], c[..|c| - 1];
      if b[|b| - 1] == c[|c| - 1] && IsSub(b0, c0) {
        if a[|a| - 1] == b[|b| - 1] && IsSub(a0, b0) {
          SubTrans(a0, b0, c0);
        } else {
          SubTrans(a, b0, c0);
        }
      } else {
        SubTrans(a, b, c0);
      }
    }
  }

  lemma {:induction false} SubRefl<T>(a: seq<T>)
    ensures IsSub(a, a)
    decreases |a|
  {
    if a != [] {
      SubRefl(a[..|a| - 1]);
    }
  }

  lemma {:induction false} SubExtend<T>(a: seq<T>, b: seq<T>, more: seq<T>)
    requires IsSub(a, b)
    ensures IsSub(a, b + more)
    decreases |more|
  {
    if more == [] {
      assert b + more == b;
    } else {
      SubExtend(a, b, more[..|more| - 1]);
      assert (b + more)[..|b + more| - 1] == b + more[..|more| - 1];
    }
  }

  /** Dropping the end of a selection leaves a selection. */
  lemma SubTake<T>(a: seq<T>, rest: seq<T>, c: seq<T>)
    requires IsSub(a + rest, c)
    ensures IsSub(a, c)
  {
    SubRefl(a);
    SubExtend(a, a, rest);
    SubTrans(a, a + rest, c);
  }

  lemma {:induction false} SubPrepend<T>(p: seq<T>, a: seq<T>, b: seq<T>)
    requires IsSub(a, b)
    ensures IsSub(p + a, p + b)
    decreases |b|
  {
    if a == [] {
      SubRefl(p);
      SubExtend(p, p, b);
      assert p + a == p;
    } else {
      var a0, b0 := a[..|a| - 1], b[..|b| - 1];
      assert (p + a)[..|p + a| - 1] == p + a0 && (p + b)[..|p + b| - 1] == p + b0;
      if a[|a| - 1] == b[|b| - 1] && IsSub(a0, b0) {
        SubPrepend(p, a0, b0);
      } else {
        SubPrepend(p, a, b0);
      }
    }
  }

  lemma {:induction false} SubTail<T>(x: T, a: seq<T>)
    ensures IsSub(a, [x] + a)
    decreases |a|
  {
    if a != [] {
      SubTail(x, a[..|a| - 1]);
      assert ([x] + a)[..|[x] + a| - 1] == [x] + a[..|a| - 1];
    }
  }

  /** Leaving out one element. */
  lemma SubOmit<T>(a: seq<T>, b: seq<T>, front: seq<T>, x: T, rest: seq<T>)
    requires a == front + rest && b == front + ([x] + rest)
    ensures IsSub(a, b)
  {
    SubTail(x, rest);
    SubPrepend(front, rest, [x] + rest);
  }

  lemma SubSnoc<T>(a: seq<T>, b: seq<T>, x: T)
    requires IsSub(a, b)
    ensures IsSub(a + [x], b + [x])
  {
    assert (a + [x])[..|a|] == a && (b + [x])[..|b|] == b;
  }
}
