/** Stable sorting and filtering of lists, as the hub uses them to choose a route. */
module StableSort {

  ghost predicate TotalPreorder<T(!new)>(le: (T, T) -> bool) {
    && (forall x, y :: le(x, y) || le(y, x))
    && (forall x, y, z {:trigger le(x, y), le(y, z)} :: le(x, y) && le(y, z) ==> le(x, z))
  }

  predicate Sorted<T>(s: seq<T>, le: (T, T) -> bool) {
    forall i, j :: 0 <= i < j < |s| ==> le(s[i], s[j])
  }

  function Insert<T>(x: T, s: seq<T>, le: (T, T) -> bool): seq<T> {
    if s == [] || le(x, s[0]) then [x] + s else [s[0]] + Insert(x, s[1..], le)
  }

  /** Equal elements keep their order. */
  function Sort<T>(s: seq<T>, le: (T, T) -> bool): seq<T> {
    if s == [] then [] else Insert(s[0], Sort(s[1..], le), le)
  }

  function Filter<T>(s: seq<T>, keep: T -> bool): seq<T> {
    if s == [] then []
    else if keep(s[0]) then [s[0]] + Filter(s[1..], keep)
    else Filter(s[1..], keep)
  }

  lemma {:induction false} InsertIsPermutation<T>(x: T, s: seq<T>, le: (T, T) -> bool)
    ensures multiset(Insert(x, s, le)) == multiset([x] + s)
  {
    if s != [] && !le(x, s[0]) {
      InsertIsPermutation(x, s[1..], le);
      assert s == [s[0]] + s[1..];
    }
  }

  lemma {:induction false} SortIsPermutation<T>(s: seq<T>, le: (T, T) -> bool)
    ensures multiset(Sort(s, le)) == multiset(s)
  {
    if s != [] {
      SortIsPermutation(s[1..], le);
      InsertIsPermutation(s[0], Sort(s[1..], le), le);
      assert s == [s[0]] + s[1..];
    }
  }

  lemma SortKeepsMembers<T>(s: seq<T>, le: (T, T) -> bool)
    ensures |Sort(s, le)| == |s| && forall x :: x in Sort(s, le) <==> x in s
  {
    SortIsPermutation(s, le);
    assert |multiset(Sort(s, le))| == |multiset(s)|;
    forall x ensures x in Sort(s, le) <==> x in s {
      assert x in Sort(s, le) <==> x in multiset(Sort(s, le));
    }
  }

  lemma {:induction false} InsertKeepsSorted<T(!new)>(x: T, s: seq<T>, le: (T, T) -> bool)
    requires TotalPreorder(le) && Sorted(s, le)
    ensures Sorted(Insert(x, s, le), le)
  {
    if s != [] && !le(x, s[0]) {
      InsertKeepsSorted(x, s[1..], le);
      InsertIsPermutation(x, s[1..], le);
      var rest := Insert(x, s[1..], le);
      forall j | 0 <= j < |rest| ensures le(s[0], rest[j]) {
        assert rest[j] in multiset(rest);
        assert rest[j] in [x] + s[1..];
      }
    }
  }

  lemma {:induction false} SortIsSorted<T(!new)>(s: seq<T>, le: (T, T) -> bool)
    requires TotalPreorder(le)
    ensures Sorted(Sort(s, le), le)
  {
    if s != [] {
      SortIsSorted(s[1..], le);
      InsertKeepsSorted(s[0], Sort(s[1..], le), le);
    }
  }

  lemma {:induction false} FilterMembers<T>(s: seq<T>, keep: T -> bool)
    ensures forall x :: x in Filter(s, keep) <==> x in s && keep(x)
  {
    if s != [] { FilterMembers(s[1..], keep); }
  }

  lemma {:induction false} FilterSnoc<T>(s: seq<T>, x: T, keep: T -> bool)
    ensures Filter(s + [x], keep) == Filter(s, keep) + if keep(x) then [x] else []
  {
    if s != [] {
      FilterSnoc(s[1..], x, keep);
      assert (s + [x])[1..] == s[1..] + [x];
    }
  }

  /** Element i is kept, is among the least of those kept, and comes first among these. */
  ghost predicate FirstLeast<T>(s: seq<T>, keep: T -> bool, le: (T, T) -> bool, i: nat) {
    && i < |s| && keep(s[i])
    && (forall j :: 0 <= j < |s| && keep(s[j]) ==> le(s[i], s[j]))
    && (forall j :: 0 <= j < i && keep(s[j]) ==> !le(s[j], s[i]))
  }

  /** The head of the sorted selection is the first of its least elements. */
  lemma {:induction false} HeadIsFirstLeast<T(!new)>(s: seq<T>, keep: T -> bool, le: (T, T) -> bool) returns (i: nat)
    requires TotalPreorder(le) && exists x :: x in s && keep(x)
    ensures FirstLeast(s, keep, le, i) && |Sort(Filter(s, keep), le)| > 0 && Sort(Filter(s, keep), le)[0] == s[i]
    decreases |s|
  {
    assert s == [s[0]] + s[1..];
    FilterMembers(s[1..], keep);
    var rest := Filter(s[1..], keep);
    if rest == [] {
      i := 0;
    } else {
      assert rest[0] in rest;
      var k := HeadIsFirstLeast(s[1..], keep, le);
      i := k + 1;
      if keep(s[0]) && le(s[0], s[i]) { i := 0; }
    }
  }

  lemma {:induction false} FilterTwice<T(!new)>(s: seq<T>, p: T -> bool, q: T -> bool, both: T -> bool)
    requires forall x :: both(x) <==> p(x) && q(x)
    ensures Filter(Filter(s, p), q) == Filter(s, both)
  {
    if s != [] { FilterTwice(s[1..], p, q, both); }
  }

  lemma {:induction false} FilterOfInsert<T(!new)>(x: T, s: seq<T>, le: (T, T) -> bool, keep: T -> bool)
    requires TotalPreorder(le) && Sorted(s, le)
    ensures Filter(Insert(x, s, le), keep) == if keep(x) then Insert(x, Filter(s, keep), le) else Filter(s, keep)
  {
    if s == [] {
    } else if le(x, s[0]) {
      assert ([x] + s)[1..] == s;
      FilterMembers(s, keep);
      var kept := Filter(s, keep);
      if kept != [] {
        assert kept[0] in s;
        assert kept[0] == s[0] || le(s[0], kept[0]);
      }
    } else {
      FilterOfInsert(x, s[1..], le, keep);
      assert ([s[0]] + Insert(x, s[1..], le))[1..] == Insert(x, s[1..], le);
    }
  }

  /** Selecting some elements commutes with sorting: the selected ones come out in the same relative order. */
  lemma {:induction false} FilterOfSort<T(!new)>(s: seq<T>, le: (T, T) -> bool, keep: T -> bool)
    requires TotalPreorder(le)
    ensures Filter(Sort(s, le), keep) == Sort(Filter(s, keep), le)
  {
    if s != [] {
      FilterOfSort(s[1..], le, keep);
      SortIsSorted(s[1..], le);
      FilterOfInsert(s[0], Sort(s[1..], le), le, keep);
    }
  }

  /** The elements tied with x. */
  function TiedWith<T>(x: T, le: (T, T) -> bool): T -> bool {
    y => le(x, y) && le(y, x)
  }

  lemma {:induction false} SortOfTied<T(!new)>(s: seq<T>, le: (T, T) -> bool)
    requires forall x, y :: x in s && y in s ==> le(x, y)
    ensures Sort(s, le) == s
  {
    if s != [] { SortOfTied(s[1..], le); }
  }

  /** Sorting is stable: the elements of every tie keep the order they had. */
  lemma SortIsStable<T(!new)>(s: seq<T>, le: (T, T) -> bool, x: T)
    requires TotalPreorder(le)
    ensures Filter(Sort(s, le), TiedWith(x, le)) == Filter(s, TiedWith(x, le))
  {
    FilterOfSort(s, le, TiedWith(x, le));
    FilterMembers(s, TiedWith(x, le));
    SortOfTied(Filter(s, TiedWith(x, le)), le);
  }

  lemma HeadIsTied<T(!new)>(s: seq<T>, le: (T, T) -> bool)
    requires TotalPreorder(le)
    ensures s != [] ==> |Filter(s, TiedWith(s[0], le))| > 0
  {
  }

  /** Being sorted and keeping every tie in order determines the result: any stable sort computes `Sort`. */
  lemma {:induction false} StableSortsAgree<T(!new)>(s: seq<T>, t: seq<T>, le: (T, T) -> bool)
    requires TotalPreorder(le) && Sorted(s, le) && Sorted(t, le)
    requires forall x :: Filter(s, TiedWith(x, le)) == Filter(t, TiedWith(x, le))
    ensures s == t
  {
    HeadIsTied(s, le);
    HeadIsTied(t, le);
    if s != [] && t != [] {
      assert s[0] in Filter(s, TiedWith(s[0], le));
      FilterMembers(t, TiedWith(s[0], le));
      assert t[0] in Filter(t, TiedWith(t[0], le));
      FilterMembers(s, TiedWith(t[0], le));
      assert TiedWith(s[0], le)(t[0]);
      assert s[0] == Filter(s, TiedWith(s[0], le))[0] == t[0];
      forall x ensures Filter(s[1..], TiedWith(x, le)) == Filter(t[1..], TiedWith(x, le)) {
        assert Filter(s, TiedWith(x, le)) == Filter(t, TiedWith(x, le));
        if TiedWith(x, le)(s[0]) {
          assert Filter(s[1..], TiedWith(x, le)) == Filter(s, TiedWith(x, le))[1..];
        }
      }
      StableSortsAgree(s[1..], t[1..], le);
    }
  }
}
