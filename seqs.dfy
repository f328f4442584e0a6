/** Order-preserving filtering and SQL-style paging over sequences of rows.
    Every list operation of the system is a filter followed by a page. */
module Seqs {

  /** The elements of `s` that satisfy `p`, in their original order (the
      `WHERE` of a query, or JavaScript's `Array.prototype.filter`). */
  function Filter<T>(s: seq<T>, p: T -> bool): (r: seq<T>)
    ensures |r| <= |s|
    ensures forall i :: 0 <= i < |r| ==> r[i] in s && p(r[i])
    ensures forall i :: 0 <= i < |s| && p(s[i]) ==> s[i] in r
    ensures multiset(r) <= multiset(s)
  {
    if s == [] then []
    else
      assert s == [s[0]] + s[1..];
      if p(s[0]) then [s[0]] + Filter(s[1..], p)
      else Filter(s[1..], p)
  }

  /** Filtering a concatenation filters each part: the kept elements stay in
      the order they had. */
  lemma {:induction false} FilterAppend<T>(a: seq<T>, b: seq<T>, p: T -> bool)
    ensures Filter(a + b, p) == Filter(a, p) + Filter(b, p)
  {
    if a == [] {
      assert a + b == b;
    } else {
      assert (a + b)[1..] == a[1..] + b;
      FilterAppend(a[1..], b, p);
    }
  }

  /** A filter that every element passes keeps the sequence as it is. */
  lemma {:induction false} FilterKeepsAll<T>(s: seq<T>, p: T -> bool)
    requires forall x :: x in s ==> p(x)
    ensures Filter(s, p) == s
  {
    if s != [] {
      FilterKeepsAll(s[1..], p);
    }
  }

  /** Filtering twice by the same test is filtering once. */
  lemma FilterIdempotent<T>(s: seq<T>, p: T -> bool)
    ensures Filter(Filter(s, p), p) == Filter(s, p)
  {
    FilterKeepsAll(Filter(s, p), p);
  }

  /** Filtering by two tests one after the other keeps what passes both. */
  lemma {:induction false} FilterFilter<T>(s: seq<T>, p: T -> bool, q: T -> bool)
    ensures Filter(Filter(s, p), q) == Filter(s, x => p(x) && q(x))
  {
    if s != [] {
      FilterFilter(s[1..], p, q);
    }
  }

  /** The elements of `s` whose key is not `k`, in their original order:
      the client's `list.filter(x => x.id !== id)`. */
  function RemoveKey<T>(s: seq<T>, key: T -> int, k: int): (r: seq<T>)
    ensures |r| <= |s|
    ensures forall i :: 0 <= i < |r| ==> r[i] in s && key(r[i]) != k
    ensures forall i :: 0 <= i < |s| && key(s[i]) != k ==> s[i] in r
  {
    Filter(s, (x: T) => key(x) != k)
  }

  /** Removing a key splits over any split of the sequence, so the elements
      that stay keep their order. */
  lemma RemoveKeyAppend<T>(a: seq<T>, b: seq<T>, key: T -> int, k: int)
    ensures RemoveKey(a + b, key, k) == RemoveKey(a, key, k) + RemoveKey(b, key, k)
  {
    FilterAppend(a, b, (x: T) => key(x) != k);
  }

  /** Removing a key no element has changes nothing. */
  lemma RemoveKeyAbsent<T>(s: seq<T>, key: T -> int, k: int)
    requires forall i :: 0 <= i < |s| ==> key(s[i]) != k
    ensures RemoveKey(s, key, k) == s
  {
    FilterKeepsAll(s, (x: T) => key(x) != k);
  }

  /** Removing the same key twice is removing it once. */
  lemma RemoveKeyIdempotent<T>(s: seq<T>, key: T -> int, k: int)
    ensures RemoveKey(RemoveKey(s, key, k), key, k) == RemoveKey(s, key, k)
  {
    FilterIdempotent(s, (x: T) => key(x) != k);
  }

  /** The elements of `s` strictly increase (ids in primary-key order). */
  predicate Increasing(s: seq<int>)
  {
    forall i, j :: 0 <= i < j < |s| ==> s[i] < s[j]
  }

  /** Where `OFFSET skip` starts in a result of `n` rows: SQLite reads a
      negative offset as zero, and an offset past the end yields no rows. */
  function Offset(skip: int, n: nat): (o: nat)
    ensures o <= n
    ensures 0 <= skip <= n ==> o == skip
  {
    if skip < 0 then 0 else if skip > n then n else skip
  }

  /** `OFFSET skip LIMIT limit` over rows already in result order. SQLite
      reads a negative limit as "no upper bound". */
  function Page<T>(s: seq<T>, skip: int, limit: int): (r: seq<T>)
    ensures |r| <= |s|
    ensures 0 <= limit ==> |r| <= limit
    ensures Offset(skip, |s|) + |r| <= |s|
    ensures forall i :: 0 <= i < |r| ==> r[i] == s[Offset(skip, |s|) + i]
    ensures (limit < 0 || |r| < limit) ==> Offset(skip, |s|) + |r| == |s|
    ensures |r| == if 0 <= limit < |s| - Offset(skip, |s|) then limit else |s| - Offset(skip, |s|)
  {
    var o := Offset(skip, |s|);
    if limit < 0 || |s| - o <= limit then s[o..] else s[o..o + limit]
  }

  /** Every row of a page is a row of the result it was cut from. */
  lemma PageWithin<T>(s: seq<T>, skip: int, limit: int)
    ensures forall x :: x in Page(s, skip, limit) ==> x in s
  {
    var r := Page(s, skip, limit);
    forall x | x in r ensures x in s {
      var i :| 0 <= i < |r| && r[i] == x;
      assert s[Offset(skip, |s|) + i] == x;
    }
  }

  /** The first page of a result no longer than the limit is the whole result. */
  lemma PageAll<T>(s: seq<T>, limit: int)
    requires |s| <= limit
    ensures Page(s, 0, limit) == s
  {
  }

  /** `WHERE p OFFSET skip LIMIT limit` over rows in result order. The
      result is the window of the passing rows that starts `skip` rows in
      and holds `limit` of them, or as many as remain: every row returned
      passes the test, no more than `limit` come back, and a first page
      that can hold every passing row returns all of them. */
  function Query<T>(s: seq<T>, p: T -> bool, skip: int, limit: int): (r: seq<T>)
    ensures var m := Filter(s, p); var o := Offset(skip, |m|);
      && |r| == (if 0 <= limit < |m| - o then limit else |m| - o)
      && forall i :: 0 <= i < |r| ==> r[i] == m[o + i]
    ensures 0 <= limit ==> |r| <= limit
    ensures forall i :: 0 <= i < |r| ==> r[i] in s && p(r[i])
    ensures skip <= 0 && (limit < 0 || |Filter(s, p)| <= limit) ==>
      forall i :: 0 <= i < |s| && p(s[i]) ==> s[i] in r
  {
    var f := Filter(s, p);
    var r := Page(f, skip, limit);
    assert skip <= 0 && (limit < 0 || |f| <= limit) ==> r == f by {
      if skip <= 0 && (limit < 0 || |f| <= limit) {
        assert Offset(skip, |f|) == 0 && |r| == |f|;
      }
    }
    r
  }
}
