/**
 * Insertion-ordered tables: a Python dict whose iteration order matters, or the rows of
 * a database table under a primary key.  A table is a sequence of records together with
 * the function that gives a record's key.
 */
module Tables {

  ghost predicate Distinct<T, K>(key: T -> K, rows: seq<T>) {
    forall i, j :: 0 <= i < j < |rows| ==> key(rows[i]) != key(rows[j])
  }

  /** The index of the row with key `k`, or the number of rows if there is none. */
  function Find<T, K(==)>(key: T -> K, rows: seq<T>, k: K): (i: nat)
    ensures i <= |rows|
    ensures i < |rows| ==> key(rows[i]) == k
    ensures forall j :: 0 <= j < i ==> key(rows[j]) != k
  {
    if |rows| == 0 || key(rows[0]) == k then 0 else
      var i := Find(key, rows[1..], k);
      assert forall j :: 0 < j < i + 1 ==> rows[j] == rows[1..][j - 1];
      i + 1
  }

  predicate Has<T, K(==)>(key: T -> K, rows: seq<T>, k: K) {
    Find(key, rows, k) < |rows|
  }

  lemma {:induction false} HasMeansSome<T, K>(key: T -> K, rows: seq<T>, k: K)
    ensures Has(key, rows, k) <==> exists i :: 0 <= i < |rows| && key(rows[i]) == k
  {
    if Has(key, rows, k) {
      assert key(rows[Find(key, rows, k)]) == k;
    }
  }

  /** Assignment to a dict entry: a known key keeps its place, a new one goes to the end. */
  function Put<T, K(==)>(key: T -> K, rows: seq<T>, row: T): (r: seq<T>)
    ensures row in r
  {
    var i := Find(key, rows, key(row));
    if i < |rows| then
      var r := rows[i := row];
      assert r[i] == row;
      r
    else
      var r := rows + [row];
      assert r[|rows|] == row;
      r
  }

  /** Removal of a dict entry, with no effect when the key is absent. */
  function Drop<T, K(==)>(key: T -> K, rows: seq<T>, k: K): seq<T> {
    var i := Find(key, rows, k);
    if i < |rows| then rows[..i] + rows[i + 1..] else rows
  }

  lemma {:induction false} FindIs<T, K>(key: T -> K, rows: seq<T>, i: nat)
    requires Distinct(key, rows) && i < |rows|
    ensures Find(key, rows, key(rows[i])) == i
  {
  }

  lemma {:induction false} PutKeepsDistinct<T, K>(key: T -> K, rows: seq<T>, row: T)
    requires Distinct(key, rows)
    ensures Distinct(key, Put(key, rows, row))
    ensures forall x :: x in Put(key, rows, row) ==> x == row || (x in rows && key(x) != key(row))
    ensures forall x :: x in rows && key(x) != key(row) ==> x in Put(key, rows, row)
  {
    var i := Find(key, rows, key(row));
    var r := Put(key, rows, row);
    forall x | x in r ensures x == row || (x in rows && key(x) != key(row)) {
      var j :| 0 <= j < |r| && r[j] == x;
      if j < |rows| && j != i {
        assert rows[j] == x;
        if i < |rows| {
          assert key(rows[i]) != key(rows[j]);
        }
      }
    }
    forall x | x in rows && key(x) != key(row) ensures x in r {
      var j :| 0 <= j < |rows| && rows[j] == x;
      assert r[j] == x;
    }
  }

  lemma {:induction false} DropRemoves<T, K>(key: T -> K, rows: seq<T>, k: K)
    requires Distinct(key, rows)
    ensures Distinct(key, Drop(key, rows, k))
    ensures forall x :: x in Drop(key, rows, k) <==> x in rows && key(x) != k
    ensures !Has(key, Drop(key, rows, k), k)
  {
    var i := Find(key, rows, k);
    var r := Drop(key, rows, k);
    forall x | x in rows && key(x) != k ensures x in r {
      var j :| 0 <= j < |rows| && rows[j] == x;
      if i < |rows| {
        assert j != i;
        if j < i { assert r[j] == x; } else { assert r[j - 1] == x; }
      }
    }
    forall x | x in r ensures x in rows && key(x) != k {
      var j :| 0 <= j < |r| && r[j] == x;
      if i < |rows| {
        if j < i { assert rows[j] == x; } else { assert rows[j + 1] == x; }
      }
    }
    HasMeansSome(key, r, k);
  }
}
