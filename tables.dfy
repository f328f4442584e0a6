/** A database table as the handlers see it: rows keyed by an integer primary
    key that the database assigns on insert. */
module Tables {
  import opened Seqs

  /** `rows` maps each primary key to its row and `ids` lists exactly those
      keys in ascending order, which is the order a query without ORDER BY
      returns them in. */
  ghost predicate Valid<T>(ids: seq<int>, rows: map<int, T>)
  {
    && Increasing(ids)
    && (forall i :: 0 <= i < |ids| ==> ids[i] in rows)
    && (forall k :: k in rows ==> k in ids)
  }

  /** The key SQLite gives the next inserted row of a table whose key is an
      `INTEGER PRIMARY KEY` without AUTOINCREMENT: one more than the largest
      key present, or 1 in an empty table. */
  function NextKey(ids: seq<int>): (k: int)
    requires Increasing(ids)
    ensures forall i :: 0 <= i < |ids| ==> ids[i] < k
    ensures ids == [] ==> k == 1
  {
    if ids == [] then 1 else ids[|ids| - 1] + 1
  }

  /** The rows of the table as a query without ORDER BY lists them. */
  function Rows<T>(ids: seq<int>, rows: map<int, T>): (r: seq<(int, T)>)
    requires forall i :: 0 <= i < |ids| ==> ids[i] in rows
    ensures |r| == |ids|
    ensures forall i :: 0 <= i < |r| ==> r[i].0 == ids[i] && r[i].1 == rows[ids[i]]
  {
    seq(|ids|, i requires 0 <= i < |ids| => (ids[i], rows[ids[i]]))
  }

  /** Inserting a row under the next key keeps the table well formed, and
      the new row is listed last. */
  lemma InsertValid<T>(ids: seq<int>, rows: map<int, T>, v: T)
    requires Valid(ids, rows)
    ensures NextKey(ids) !in rows
    ensures Valid(ids + [NextKey(ids)], rows[NextKey(ids) := v])
  {
    var next := NextKey(ids);
    var ids' := ids + [next];
    forall i, j | 0 <= i < j < |ids'| ensures ids'[i] < ids'[j] {
      if j == |ids| {
        assert ids'[i] == ids[i];
      }
    }
  }

  /** Replacing the row under an existing key keeps the table well formed. */
  lemma ReplaceValid<T>(ids: seq<int>, rows: map<int, T>, k: int, v: T)
    requires Valid(ids, rows) && k in rows
    ensures Valid(ids, rows[k := v])
  {
  }

  /** Rewriting rows under the same keys keeps the table well formed. */
  lemma ReplaceAll<T>(ids: seq<int>, rows: map<int, T>, rows': map<int, T>)
    requires Valid(ids, rows) && rows'.Keys == rows.Keys
    ensures Valid(ids, rows')
  {
  }

  /** The keys that are left after deleting the keys in `gone`, in order. */
  function Without(ids: seq<int>, gone: set<int>): (r: seq<int>)
    ensures |r| <= |ids|
    ensures forall k :: k in r <==> k in ids && k !in gone
  {
    if ids == [] then []
    else if ids[0] in gone then Without(ids[1..], gone)
    else [ids[0]] + Without(ids[1..], gone)
  }

  /** Deleting keys from an ascending list leaves it ascending. */
  lemma {:induction false} WithoutIncreasing(ids: seq<int>, gone: set<int>)
    requires Increasing(ids)
    ensures Increasing(Without(ids, gone))
  {
    if ids != [] {
      WithoutIncreasing(ids[1..], gone);
      var t := Without(ids[1..], gone);
      if ids[0] !in gone {
        forall j | 0 <= j < |t| ensures ids[0] < t[j] {
          assert t[j] in ids[1..];
        }
      }
    }
  }

  /** Deleting a set of rows keeps the table well formed. */
  lemma RemoveValid<T>(ids: seq<int>, rows: map<int, T>, gone: set<int>)
    requires Valid(ids, rows)
    ensures Valid(Without(ids, gone), rows - gone)
  {
    WithoutIncreasing(ids, gone);
    var r := Without(ids, gone);
    forall i | 0 <= i < |r| ensures r[i] in rows - gone {
      assert r[i] in r;
    }
  }

  /** Deleting the row with the largest key hands that key out again on the
      next insert. */
  lemma NextKeyReused(ids: seq<int>)
    requires Increasing(ids) && ids != [] && 0 < ids[0]
    ensures Increasing(Without(ids, {ids[|ids| - 1]}))
    ensures NextKey(Without(ids, {ids[|ids| - 1]})) <= ids[|ids| - 1]
  {
    var last := ids[|ids| - 1];
    var r := Without(ids, {last});
    WithoutIncreasing(ids, {last});
    if r != [] {
      var x := r[|r| - 1];
      assert x in r;
      var j :| 0 <= j < |ids| && ids[j] == x;
      assert j != |ids| - 1;
      assert ids[j] < last;
    }
  }
}
