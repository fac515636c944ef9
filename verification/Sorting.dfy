/** The library sort the sources call, as a function, and what makes its
    result canonical: a sorted permutation is unique. */
module Sorting {
  import opened Foundation

  ghost predicate TotalPreorder<T(!new)>(le: (T, T) -> bool) {
    && (forall a, b :: le(a, b) || le(b, a))
    && (forall a, b, c :: le(a, b) && le(b, c) ==> le(a, c))
  }

  /** Elements of `s` that compare equal are equal. */
  ghost predicate AntisymmetricOn<T(!new)>(le: (T, T) -> bool, s: seq<T>) {
    forall a, b :: a in s && b in s && le(a, b) && le(b, a) ==> a == b
  }

  ghost predicate SortedBy<T>(s: seq<T>, le: (T, T) -> bool) {
    forall i, j :: 0 <= i < j < |s| ==> le(s[i], s[j])
  }

  /** Stable insertion: `x` goes before the first element it does not exceed. */
  function Insert<T>(x: T, s: seq<T>, le: (T, T) -> bool): (r: seq<T>) {
    if s == [] || le(x, s[0]) then [x] + s else [s[0]] + Insert(x, s[1..], le)
  }

  function Sort<T>(s: seq<T>, le: (T, T) -> bool): (r: seq<T>) {
    if s == [] then [] else Insert(s[0], Sort(s[1..], le), le)
  }

  lemma {:induction false} InsertPermutes<T>(x: T, s: seq<T>, le: (T, T) -> bool)
    ensures multiset(Insert(x, s, le)) == multiset(s) + multiset{x}
  {
    if s == [] || le(x, s[0]) {
    } else {
      InsertPermutes(x, s[1..], le);
      assert s == [s[0]] + s[1..];
    }
  }

  lemma {:induction false} InsertKeepsSorted<T(!new)>(x: T, s: seq<T>, le: (T, T) -> bool)
    requires TotalPreorder(le) && SortedBy(s, le)
    ensures SortedBy(Insert(x, s, le), le)
  {
    if s == [] || le(x, s[0]) {
      var r := [x] + s;
      forall i, j | 0 <= i < j < |r| ensures le(r[i], r[j]) {
        if i == 0 { assert le(x, s[0]); assert j - 1 == 0 || le(s[0], s[j - 1]); }
      }
    } else {
      var tail := Insert(x, s[1..], le);
      InsertKeepsSorted(x, s[1..], le);
      InsertPermutes(x, s[1..], le);
      var r := [s[0]] + tail;
      forall i, j | 0 <= i < j < |r| ensures le(r[i], r[j]) {
        if i == 0 {
          assert tail[j - 1] in multiset(tail);
          if tail[j - 1] != x {
            assert tail[j - 1] in s[1..];
          }
        }
      }
    }
  }

  /** `Sort` returns a sorted rearrangement of its argument. */
  lemma {:induction false} SortSorts<T(!new)>(s: seq<T>, le: (T, T) -> bool)
    requires TotalPreorder(le)
    ensures SortedBy(Sort(s, le), le) && multiset(Sort(s, le)) == multiset(s)
  {
    if s == [] {
    } else {
      SortSorts(s[1..], le);
      InsertKeepsSorted(s[0], Sort(s[1..], le), le);
      InsertPermutes(s[0], Sort(s[1..], le), le);
      assert s == [s[0]] + s[1..];
    }
  }

  lemma SameElements<T>(a: seq<T>, b: seq<T>)
    requires multiset(a) == multiset(b)
    ensures |a| == |b| && forall x :: x in a <==> x in b
  {
    assert |multiset(a)| == |a| && |multiset(b)| == |b|;
    forall x ensures x in a <==> x in b {
      assert x in a <==> x in multiset(a);
      assert x in b <==> x in multiset(b);
    }
  }

  /** There is only one sorted arrangement of a bag of elements. */
  lemma {:induction false} SortedUnique<T(!new)>(a: seq<T>, b: seq<T>, le: (T, T) -> bool)
    requires TotalPreorder(le) && AntisymmetricOn(le, a)
    requires SortedBy(a, le) && SortedBy(b, le) && multiset(a) == multiset(b)
    ensures a == b
  {
    SameElements(a, b);
    if a != [] {
      SameLeast(a, b, le);
      assert a == [a[0]] + a[1..] && b == [b[0]] + b[1..];
      SameTail(a, b);
      SortedUnique(a[1..], b[1..], le);
    }
  }

  lemma SameLeast<T(!new)>(a: seq<T>, b: seq<T>, le: (T, T) -> bool)
    requires TotalPreorder(le) && AntisymmetricOn(le, a) && SortedBy(a, le) && SortedBy(b, le)
    requires a != [] && b != [] && forall x :: x in a <==> x in b
    ensures a[0] == b[0]
  {
    assert b[0] in a && a[0] in b;
    assert le(a[0], b[0]) && le(b[0], a[0]);
  }

  lemma SameTail<T>(a: seq<T>, b: seq<T>)
    requires a != [] && b != [] && a[0] == b[0] && multiset(a) == multiset(b)
    ensures multiset(a[1..]) == multiset(b[1..])
  {
    assert a == [a[0]] + a[1..] && b == [b[0]] + b[1..];
    assert multiset(a[1..]) == multiset(a) - multiset{a[0]};
    assert multiset(b[1..]) == multiset(b) - multiset{b[0]};
  }

  /** Rearranging the argument does not change the sorted result. */
  lemma SortCanonical<T(!new)>(a: seq<T>, b: seq<T>, le: (T, T) -> bool)
    requires TotalPreorder(le) && AntisymmetricOn(le, a) && multiset(a) == multiset(b)
    ensures Sort(a, le) == Sort(b, le)
  {
    SortSorts(a, le);
    SortSorts(b, le);
    SameElements(a, Sort(a, le));
    SortedUnique(Sort(a, le), Sort(b, le), le);
  }

  /** `Vec::dedup`: drop each element equal to its predecessor. */
  function Dedup<T(==)>(s: seq<T>): (r: seq<T>) {
    if |s| < 2 then s
    else if s[0] == s[1] then Dedup(s[1..])
    else [s[0]] + Dedup(s[1..])
  }

  lemma {:induction false} DedupKeepsDistinct<T>(s: seq<T>)
    ensures |Dedup(s)| <= |s|
    ensures (|Dedup(s)| == |s|) <==> (forall i :: 0 <= i < |s| - 1 ==> s[i] != s[i + 1])
    ensures |Dedup(s)| == |s| ==> Dedup(s) == s
  {
    if |s| >= 2 {
      DedupKeepsDistinct(s[1..]);
      var t := s[1..];
      if s[0] != s[1] {
        if forall i :: 0 <= i < |t| - 1 ==> t[i] != t[i + 1] {
          forall i | 0 <= i < |s| - 1 ensures s[i] != s[i + 1] {
            if i > 0 { assert t[i - 1] != t[i]; }
          }
        }
        if forall i :: 0 <= i < |s| - 1 ==> s[i] != s[i + 1] {
          forall i | 0 <= i < |t| - 1 ensures t[i] != t[i + 1] {
            assert s[i + 1] != s[i + 2];
          }
        }
      }
    }
  }

  /** Distinctness is a property of the bag, not of the order. */
  lemma DistinctByCount<T>(s: seq<T>)
    ensures Distinct(s) <==> forall x :: multiset(s)[x] <= 1
    decreases |s|
  {
    if s != [] {
      var init, x := s[..|s| - 1], s[|s| - 1];
      assert s == init + [x];
      DistinctByCount(init);
      DistinctSnoc(init, x);
      assert multiset(s) == multiset(init) + multiset{x};
      assert x in init <==> multiset(init)[x] > 0;
      if forall y :: multiset(s)[y] <= 1 {
        forall y ensures multiset(init)[y] <= 1 { assert multiset(s)[y] <= 1; }
        assert multiset(s)[x] <= 1;
      }
    }
  }

  lemma DistinctPermutes<T>(a: seq<T>, b: seq<T>)
    requires multiset(a) == multiset(b)
    ensures Distinct(a) <==> Distinct(b)
  {
    DistinctByCount(a);
    DistinctByCount(b);
  }

  /** In a sorted sequence, equal elements would stand side by side. */
  lemma SortedDistinctIffAdjacent<T(!new)>(s: seq<T>, le: (T, T) -> bool)
    requires SortedBy(s, le) && AntisymmetricOn(le, s)
    ensures Distinct(s) <==> forall i :: 0 <= i < |s| - 1 ==> s[i] != s[i + 1]
  {
    if forall i :: 0 <= i < |s| - 1 ==> s[i] != s[i + 1] {
      forall i, j | 0 <= i < j < |s| ensures s[i] != s[j] {
        assert s[i] != s[i + 1];
        if i + 1 < j {
          assert le(s[i], s[i + 1]) && le(s[i + 1], s[j]);
        }
      }
    }
  }

  /** The sources' duplicate check (sort, dedup, compare lengths) decides
      distinctness, and on success the result is the sorted list itself. */
  lemma SortDedupDecidesDistinct<T(!new)>(s: seq<T>, le: (T, T) -> bool)
    requires TotalPreorder(le) && AntisymmetricOn(le, s)
    ensures (|Dedup(Sort(s, le))| == |s|) <==> Distinct(s)
    ensures |Dedup(Sort(s, le))| == |s| ==> Dedup(Sort(s, le)) == Sort(s, le)
  {
    var t := Sort(s, le);
    SortSorts(s, le);
    SameElements(s, t);
    DedupKeepsDistinct(t);
    SortedDistinctIffAdjacent(t, le);
    DistinctPermutes(s, t);
  }

  lemma RepeatedInBag<T>(s: seq<T>, x: T)
    requires multiset(s)[x] >= 2
    ensures exists i, j :: 0 <= i < j < |s| && s[i] == x == s[j]
    decreases |s|
  {
    var n := |s| - 1;
    var front := s[..n];
    assert s == front + [s[n]];
    if s[n] == x {
      assert x in front;
      var i :| 0 <= i < n && front[i] == x;
      assert s[i] == x == s[n];
    } else {
      RepeatedInBag(front, x);
      var i, j :| 0 <= i < j < n && front[i] == x == front[j];
      assert s[i] == x == s[j];
    }
  }

  lemma TwicePositions<T>(s: seq<T>, i: nat, j: nat)
    requires i < j < |s| && s[i] == s[j]
    ensures multiset(s)[s[i]] >= 2
  {
    assert s == s[..i] + [s[i]] + s[i + 1..j] + [s[j]] + s[j + 1..];
  }
}
