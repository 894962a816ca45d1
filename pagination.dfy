/** The paging arithmetic shared by every listing endpoint:
    `skip = (Number(page) - 1) * Number(limit)` and
    `pages = Math.ceil(total / Number(limit))`, with page 1 and limit 10 when absent. */
module Pagination {
  import opened Wrappers
  import opened Collections

  const DefaultPage: int := 1
  const DefaultLimit: int := 10

  /** A value of Math.ceil on a quotient: a whole number, or what JavaScript
      gives when the divisor is 0. */
  datatype Ceiling = Finite(n: int) | PosInfinity | NotANumber

  /** The page and limit a request asks for, with the defaults filled in. */
  datatype Paging = Paging(page: int, limit: int)

  function RequestPaging(page: Option<int>, limit: Option<int>): (p: Paging)
    ensures p.page == (if page.Some? then page.value else 1)
    ensures p.limit == (if limit.Some? then limit.value else 10)
  {
    Paging(page.GetOr(DefaultPage), limit.GetOr(DefaultLimit))
  }

  /** A page of a listing and its pagination block. */
  datatype Listing<T> = Listing(items: seq<T>, total: nat, page: int, limit: int, pages: Ceiling)

  /** How many matching documents the listing skips. */
  function SkipCount(p: Paging): int {
    (p.page - 1) * p.limit
  }

  /** Math.ceil(total / limit). */
  function PageCount(total: nat, limit: int): (r: Ceiling)
    ensures limit != 0 <==> r.Finite?
    ensures limit == 0 && total == 0 <==> r == NotANumber
  {
    if limit > 0 then Finite((total + limit - 1) / limit)
    else if limit < 0 then Finite(-(total / -limit))
    else if total == 0 then NotANumber
    else PosInfinity
  }

  /** The page count is the least whole number at or above total / limit. */
  lemma PageCountIsCeiling(total: nat, limit: int)
    requires limit != 0
    ensures var p := PageCount(total, limit).n;
      (limit > 0 ==> (p - 1) * limit < total <= p * limit)
      && (limit < 0 ==> p * limit <= total < (p - 1) * limit)
  {
    var p := PageCount(total, limit).n;
    if limit > 0 {
      var q, r := (total + limit - 1) / limit, (total + limit - 1) % limit;
      assert total + limit - 1 == q * limit + r && 0 <= r < limit;
      assert p == q;
      assert p * limit == total + limit - 1 - r;
      assert (p - 1) * limit == p * limit - limit;
    } else {
      var l := -limit;
      var q, r := total / l, total % l;
      assert total == q * l + r && 0 <= r < l;
      assert p == -q;
      assert p * limit == q * l;
      assert (p - 1) * limit == q * l + l;
    }
  }

  /** Every one of the total documents falls on some page from 1 to pages. */
  lemma PagesCoverTotal(total: nat, limit: int, k: nat)
    requires limit > 0 && k < total
    ensures var p := PageCount(total, limit).n;
      1 <= k / limit + 1 <= p
  {
    PageCountIsCeiling(total, limit);
    var p := PageCount(total, limit).n;
    var q := k / limit;
    assert q * limit <= k < total <= p * limit;
    assert (p - q) * limit > 0;
  }

  /** `.skip(skip).limit(limit)` on a sorted result: a limit of 0 means no limit
      and a negative one counts by its absolute value. */
  function PageOf<T>(s: seq<T>, skip: nat, limit: int): (r: seq<T>)
    ensures var k := if skip <= |s| then skip else |s|;
      k + |r| <= |s| && r == s[k..k + |r|]
      && (limit == 0 ==> |r| == |s| - k)
      && (limit != 0 ==> |r| == if |s| - k <= Abs(limit) then |s| - k else Abs(limit))
  {
    var rest := if skip <= |s| then s[skip..] else [];
    if limit == 0 || |rest| <= Abs(limit) then rest else rest[..Abs(limit)]
  }

  function Abs(n: int): nat {
    if n < 0 then -n else n
  }

  /** Element k of the sorted result is element k % limit of page k / limit + 1. */
  lemma ElementOnItsPage<T>(s: seq<T>, limit: int, k: nat)
    requires limit > 0 && k < |s|
    ensures var page := k / limit + 1;
      var r := PageOf(s, SkipCount(Paging(page, limit)), limit);
      k % limit < |r| && r[k % limit] == s[k]
  {
    var page := k / limit + 1;
    var skip := SkipCount(Paging(page, limit));
    assert skip == (k / limit) * limit;
    assert k == (k / limit) * limit + k % limit;
  }

  /** A contiguous slice of a list sorted newest first is sorted newest first. */
  lemma SliceKeepsOrder<T>(s: seq<T>, k: nat, n: nat, key: T -> int)
    requires NewestFirst(s, key) && k + n <= |s|
    ensures NewestFirst(s[k..k + n], key)
  {
    var t := s[k..k + n];
    forall i, j | 0 <= i < j < |t| ensures key(t[i]) >= key(t[j]) {
      assert t[i] == s[k + i] && t[j] == s[k + j];
    }
  }

  /** A page of a list sorted newest first is sorted newest first, and holds only
      elements of the list. */
  lemma PageOfSorted<T>(s: seq<T>, skip: nat, limit: int, key: T -> int)
    requires NewestFirst(s, key)
    ensures NewestFirst(PageOf(s, skip, limit), key)
    ensures forall x | x in PageOf(s, skip, limit) :: x in s
  {
    var items := PageOf(s, skip, limit);
    var k := if skip <= |s| then skip else |s|;
    SliceKeepsOrder(s, k, |items|, key);
    forall x | x in items ensures x in s {
      var i :| 0 <= i < |items| && items[i] == x;
      assert items[i] == s[k + i];
    }
  }

  /** A page of `.find(p).sort(newest first)` holds only matching elements of
      `s`, still newest first. */
  lemma PageOfMatches<T>(s: seq<T>, p: T -> bool, key: T -> int, skip: nat, limit: int)
    ensures NewestFirst(PageOf(SortNewestFirst(Filter(s, p), key), skip, limit), key)
    ensures forall x | x in PageOf(SortNewestFirst(Filter(s, p), key), skip, limit) :: x in s && p(x)
  {
    var found := Filter(s, p);
    var matching := SortNewestFirst(found, key);
    PageOfSorted(matching, skip, limit, key);
    forall x | x in PageOf(matching, skip, limit) ensures x in s && p(x) {
      SortKeepsMembers(found, key, x);
      var i :| 0 <= i < |found| && found[i] == x;
    }
  }
}
