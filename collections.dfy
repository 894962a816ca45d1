/** What the backend's store queries do to a collection: `find` with a filter,
    `findOne`/`findIndex` (the first match), `.sort({ createdAt: -1 })` and
    `.limit(n)`. */
module Collections {
  import opened Wrappers

  /** The elements of `s` that satisfy `p`, in their order in `s`. */
  function Filter<T(==)>(s: seq<T>, p: T -> bool): (r: seq<T>)
    ensures |r| <= |s|
    ensures forall i | 0 <= i < |r| :: r[i] in s && p(r[i])
    ensures forall i | 0 <= i < |s| && p(s[i]) :: s[i] in r
  {
    if s == [] then []
    else (if p(s[0]) then [s[0]] else []) + Filter(s[1..], p)
  }

  /** The index of the first element satisfying `p`, or None. */
  function FirstIndex<T>(s: seq<T>, p: T -> bool): (r: Option<nat>)
    ensures r.Some? ==> r.value < |s| && p(s[r.value])
    ensures r.Some? ==> forall j | 0 <= j < r.value :: !p(s[j])
    ensures r.None? <==> forall j | 0 <= j < |s| :: !p(s[j])
  {
    if s == [] then None
    else if p(s[0]) then Some(0)
    else match FirstIndex(s[1..], p)
      case Some(i) => assert forall j | 1 <= j < i + 1 :: s[j] == s[1..][j - 1]; Some(i + 1)
      case None => assert forall j | 1 <= j < |s| :: s[j] == s[1..][j - 1]; None
  }

  /** `.limit(n)`: at most the first n elements. */
  function Take<T>(s: seq<T>, n: nat): (r: seq<T>)
    ensures |r| == if |s| <= n then |s| else n
    ensures r == s[..|r|]
  {
    if |s| <= n then s else s[..n]
  }

  /** Every element is at least as recent as the ones after it. */
  predicate NewestFirst<T>(s: seq<T>, key: T -> int) {
    forall i, j | 0 <= i < j < |s| :: key(s[i]) >= key(s[j])
  }

  /** Puts `x` in front of the first element that is not more recent than it. */
  function InsertNewest<T(==)>(x: T, s: seq<T>, key: T -> int): (r: seq<T>)
    ensures |r| == |s| + 1
    ensures multiset(r) == multiset(s) + multiset{x}
  {
    if s == [] || key(s[0]) <= key(x) then [x] + s
    else
      assert s == [s[0]] + s[1..];
      [s[0]] + InsertNewest(x, s[1..], key)
  }

  /** Inserting into a list that is newest first keeps it newest first. */
  lemma {:induction false} InsertNewestKeepsOrder<T>(x: T, s: seq<T>, key: T -> int)
    requires NewestFirst(s, key)
    ensures NewestFirst(InsertNewest(x, s, key), key)
  {
    if s != [] && key(s[0]) > key(x) {
      var rest := InsertNewest(x, s[1..], key);
      InsertNewestKeepsOrder(x, s[1..], key);
      forall i | 0 <= i < |rest| ensures key(rest[i]) <= key(s[0]) {
        assert rest[i] in multiset(rest);
        if rest[i] != x {
          assert rest[i] in multiset(s[1..]);
          var j :| 0 <= j < |s[1..]| && s[1..][j] == rest[i];
          assert s[j + 1] == rest[i];
        }
      }
      assert InsertNewest(x, s, key) == [s[0]] + rest;
    }
  }

  /** `.sort({ key: -1 })`: a stable sort, most recent first. Among equal keys
      the element stored later comes first. */
  function SortNewestFirst<T(==)>(s: seq<T>, key: T -> int): (r: seq<T>)
    ensures multiset(r) == multiset(s)
    ensures NewestFirst(r, key)
  {
    if s == [] then []
    else
      assert s == s[..|s| - 1] + [s[|s| - 1]];
      var sorted := SortNewestFirst(s[..|s| - 1], key);
      InsertNewestKeepsOrder(s[|s| - 1], sorted, key);
      InsertNewest(s[|s| - 1], sorted, key)
  }

  lemma SortKeepsMembers<T>(s: seq<T>, key: T -> int, x: T)
    ensures x in SortNewestFirst(s, key) <==> x in s
  {
    var r := SortNewestFirst(s, key);
    assert x in r <==> x in multiset(r);
    assert x in s <==> x in multiset(s);
  }

  lemma {:induction false} InsertNewestOfNewest<T>(x: T, s: seq<T>, key: T -> int)
    requires forall i | 0 <= i < |s| :: key(s[i]) <= key(x)
    ensures InsertNewest(x, s, key) == [x] + s
  {
  }

  /** An element stored last and at least as recent as every other one sorts first;
      this is how a record just saved becomes the first of the query result. */
  lemma SortPutsLatestFirst<T>(s: seq<T>, key: T -> int)
    requires s != []
    requires forall i | 0 <= i < |s| :: key(s[i]) <= key(s[|s| - 1])
    ensures SortNewestFirst(s, key)[0] == s[|s| - 1]
  {
    var front := s[..|s| - 1];
    var x := s[|s| - 1];
    var sorted := SortNewestFirst(front, key);
    forall i | 0 <= i < |sorted| ensures key(sorted[i]) <= key(x) {
      assert sorted[i] in multiset(sorted);
      assert sorted[i] in front;
    }
    InsertNewestOfNewest(x, sorted, key);
  }

  /** Filtering a collection with one more document at its end. */
  lemma {:induction false} FilterAppend<T>(s: seq<T>, x: T, p: T -> bool)
    ensures Filter(s + [x], p) == Filter(s, p) + (if p(x) then [x] else [])
  {
    if s == [] {
      assert [] + [x] == [x];
    } else {
      assert (s + [x])[1..] == s[1..] + [x];
      FilterAppend(s[1..], x, p);
    }
  }

  /** A document appended to a collection, selected by the filter and at least as
      recent as every stored one, is the first of the sorted query result. */
  lemma AppendedLatestSortsFirst<T>(s: seq<T>, x: T, p: T -> bool, key: T -> int)
    requires p(x)
    requires forall i | 0 <= i < |s| :: key(s[i]) <= key(x)
    ensures SortNewestFirst(Filter(s + [x], p), key) != []
    ensures SortNewestFirst(Filter(s + [x], p), key)[0] == x
  {
    FilterAppend(s, x, p);
    var f := Filter(s + [x], p);
    assert f[|f| - 1] == x;
    forall i | 0 <= i < |f| ensures key(f[i]) <= key(f[|f| - 1]) {
      assert f[i] in s + [x];
    }
    SortPutsLatestFirst(f, key);
  }

  /** `.find(p).sort(newest first).limit(n)`: at most n of the matching
      elements, every one of them from `s` and matching, newest first. */
  lemma NewestWindow<T>(s: seq<T>, p: T -> bool, key: T -> int, n: nat)
    ensures |Take(SortNewestFirst(Filter(s, p), key), n)| <= n
    ensures NewestFirst(Take(SortNewestFirst(Filter(s, p), key), n), key)
    ensures forall x | x in Take(SortNewestFirst(Filter(s, p), key), n) :: x in s && p(x)
  {
    var f := Filter(s, p);
    var sorted := SortNewestFirst(f, key);
    var w := Take(sorted, n);
    forall x | x in w ensures x in s && p(x) {
      SortKeepsMembers(f, key, x);
    }
  }

  /** Elements in strictly increasing rank: each rank at most once, in order. */
  predicate RankedBy<T>(s: seq<T>, rank: T -> int) {
    forall i, j | 0 <= i < j < |s| :: rank(s[i]) < rank(s[j])
  }

  /** Two ranked lists, the first ranking wholly below the second, concatenate
      to a ranked list. */
  lemma RankedConcat<T>(s: seq<T>, t: seq<T>, rank: T -> int)
    requires RankedBy(s, rank) && RankedBy(t, rank)
    requires forall x, y | x in s && y in t :: rank(x) < rank(y)
    ensures RankedBy(s + t, rank)
  {
  }

  /** `if (b) s.push(x)`. */
  function PushIf<T>(s: seq<T>, b: bool, x: T): seq<T> {
    if b then s + [x] else s
  }

  lemma InPushIf<T>(s: seq<T>, b: bool, x: T, y: T)
    ensures y in PushIf(s, b, x) <==> y in s || (b && y == x)
  {
  }

  /** Pushing an element ranked above everything already listed keeps the list
      ranked, and the element bounds the ranks of the result. */
  lemma RankedPush<T>(s: seq<T>, b: bool, x: T, rank: T -> int)
    requires RankedBy(s, rank)
    requires forall y | y in s :: rank(y) < rank(x)
    ensures RankedBy(PushIf(s, b, x), rank)
    ensures forall y | y in PushIf(s, b, x) :: rank(y) <= rank(x)
  {
  }

  /** Two lists ordered by strictly increasing rank with the same members are
      the same list: membership alone determines such a list. */
  lemma {:induction false} RankedUnique<T>(s: seq<T>, t: seq<T>, rank: T -> int)
    requires RankedBy(s, rank) && RankedBy(t, rank)
    requires forall x: T :: x in s <==> x in t
    ensures s == t
  {
    if s != [] {
      assert s[0] in t;
    }
    if t != [] {
      assert t[0] in s;
    }
    if s != [] && t != [] {
      RankedHeadsAgree(s, t, rank);
      forall x: T ensures x in s[1..] <==> x in t[1..] {
        if x in s[1..] {
          RankedTailMember(s, t, rank, x);
        }
        if x in t[1..] {
          RankedTailMember(t, s, rank, x);
        }
      }
      RankedUnique(s[1..], t[1..], rank);
      assert s == [s[0]] + s[1..] && t == [t[0]] + t[1..];
    }
  }

  /** Two ranked lists with the same members start with the same element. */
  lemma RankedHeadsAgree<T>(s: seq<T>, t: seq<T>, rank: T -> int)
    requires RankedBy(s, rank) && RankedBy(t, rank) && s != [] && t != []
    requires s[0] in t && t[0] in s
    ensures s[0] == t[0]
  {
    var i :| 0 <= i < |t| && t[i] == s[0];
    var j :| 0 <= j < |s| && s[j] == t[0];
    assert rank(t[0]) <= rank(s[0]) && rank(s[0]) <= rank(t[0]);
  }

  /** Past a shared head, a member of one ranked list's tail is in the other's. */
  lemma RankedTailMember<T>(s: seq<T>, t: seq<T>, rank: T -> int, x: T)
    requires RankedBy(s, rank) && RankedBy(t, rank) && s != [] && t != [] && s[0] == t[0]
    requires x in s[1..] && x in t
    ensures x in t[1..]
  {
    var i :| 1 <= i < |s| && s[i] == x;
    assert rank(x) > rank(s[0]);
    var j :| 0 <= j < |t| && t[j] == x;
    assert j != 0;
    assert t[1..][j - 1] == x;
  }
}
