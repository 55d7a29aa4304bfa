/** The stable sort that Python's `sorted` performs, given as insertion sort, with what callers rely on. */
module Sorting {

  /** x placed after every element that is not greater. */
  function Insert<T>(s: seq<T>, x: T, le: (T, T) -> bool): seq<T> {
    if s == [] then [x]
    else if le(s[|s| - 1], x) then s + [x]
    else Insert(s[..|s| - 1], x, le) + [s[|s| - 1]]
  }

  function Sort<T>(s: seq<T>, le: (T, T) -> bool): seq<T> {
    if s == [] then [] else Insert(Sort(s[..|s| - 1], le), s[|s| - 1], le)
  }

  ghost predicate TotalPreorder<T(!new)>(le: (T, T) -> bool) {
    && (forall x, y :: le(x, y) || le(y, x))
    && (forall x, y, z :: le(x, y) && le(y, z) ==> le(x, z))
  }

  /** Every two positions are related in order. */
  ghost predicate Pairwise<T>(s: seq<T>, r: (T, T) -> bool) {
    forall i: nat, j: nat :: i < j < |s| ==> r(s[i], s[j])
  }

  lemma {:induction false} InsertPermutes<T>(s: seq<T>, x: T, le: (T, T) -> bool)
    ensures multiset(Insert(s, x, le)) == multiset(s) + multiset{x}
  {
    if s != [] {
      InsertPermutes(s[..|s| - 1], x, le);
      assert s == s[..|s| - 1] + [s[|s| - 1]];
    }
  }

  lemma {:induction false} SortPermutes<T>(s: seq<T>, le: (T, T) -> bool)
    ensures multiset(Sort(s, le)) == multiset(s)
  {
    if s != [] {
      var init, last := s[..|s| - 1], s[|s| - 1];
      SortPermutes(init, le);
      InsertPermutes(Sort(init, le), last, le);
      assert multiset(s) == multiset(init) + multiset{last} by {
        assert s == init + [last];
      }
    }
  }

  lemma SortMembers<T>(s: seq<T>, le: (T, T) -> bool)
    ensures |Sort(s, le)| == |s|
    ensures forall x :: x in Sort(s, le) <==> x in s
  {
    SortPermutes(s, le);
    assert |multiset(Sort(s, le))| == |Sort(s, le)| && |multiset(s)| == |s|;
    forall x ensures x in Sort(s, le) <==> x in s {
      assert x in Sort(s, le) <==> x in multiset(Sort(s, le));
    }
  }

  /** Insertion keeps a relation that holds pairwise and, both ways round, with x. */
  lemma {:induction false} InsertPairwise<T>(s: seq<T>, x: T, le: (T, T) -> bool, r: (T, T) -> bool)
    requires Pairwise(s, r)
    requires forall y :: y in s ==> r(y, x) && r(x, y)
    ensures Pairwise(Insert(s, x, le), r)
  {
    if s != [] && !le(s[|s| - 1], x) {
      var init, last := s[..|s| - 1], s[|s| - 1];
      InsertPairwise(init, x, le, r);
      InsertPermutes(init, x, le);
      var t := Insert(init, x, le);
      forall i: nat | i < |t| ensures r(t[i], last) {
        assert t[i] in multiset(t);
        if t[i] != x {
          assert t[i] in multiset(init);
        }
      }
    }
  }

  /** A symmetric relation between all positions survives sorting. */
  lemma {:induction false} SortPairwise<T>(s: seq<T>, le: (T, T) -> bool, r: (T, T) -> bool)
    requires Pairwise(s, r)
    requires forall x, y :: x in s && y in s ==> r(x, y) == r(y, x)
    ensures Pairwise(Sort(s, le), r)
  {
    if s != [] {
      var init := s[..|s| - 1];
      SortPairwise(init, le, r);
      SortPermutes(init, le);
      forall y | y in Sort(init, le) ensures r(y, s[|s| - 1]) && r(s[|s| - 1], y) {
        assert y in multiset(Sort(init, le));
        var i: nat :| i < |init| && init[i] == y;
        assert r(s[i], s[|s| - 1]);
      }
      InsertPairwise(Sort(init, le), s[|s| - 1], le, r);
    }
  }

  lemma {:induction false} InsertSorts<T(!new)>(s: seq<T>, x: T, le: (T, T) -> bool)
    requires TotalPreorder(le) && Pairwise(s, le)
    ensures Pairwise(Insert(s, x, le), le)
  {
    if s != [] {
      var init, last := s[..|s| - 1], s[|s| - 1];
      if le(last, x) {
        forall i: nat | i < |s| ensures le(s[i], x) {
          assert i < |s| - 1 ==> le(s[i], last);
        }
      } else {
        InsertSorts(init, x, le);
        InsertPermutes(init, x, le);
        var t := Insert(init, x, le);
        forall i: nat | i < |t| ensures le(t[i], last) {
          assert t[i] in multiset(t);
          if t[i] != x {
            assert t[i] in multiset(init);
          }
        }
      }
    }
  }

  lemma {:induction false} SortSorts<T(!new)>(s: seq<T>, le: (T, T) -> bool)
    requires TotalPreorder(le)
    ensures Pairwise(Sort(s, le), le)
  {
    if s != [] {
      SortSorts(s[..|s| - 1], le);
      InsertSorts(Sort(s[..|s| - 1], le), s[|s| - 1], le);
    }
  }

  /** Sorting changes nothing in a sequence that is already in order. */
  lemma {:induction false} SortKeepsSorted<T>(s: seq<T>, le: (T, T) -> bool)
    requires Pairwise(s, le)
    ensures Sort(s, le) == s
  {
    if s != [] {
      SortKeepsSorted(s[..|s| - 1], le);
      assert s == s[..|s| - 1] + [s[|s| - 1]];
      assert |s| > 1 ==> le(s[|s| - 2], s[|s| - 1]);
    }
  }
}
