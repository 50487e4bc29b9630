/** A stored array of records that is searched by key, and the map it stands for. */
module KeyedRows {

  ghost predicate DistinctKeys<K, R>(key: R -> K, rows: seq<R>) {
    forall i, j :: 0 <= i < |rows| && 0 <= j < |rows| && key(rows[i]) == key(rows[j]) ==> i == j
  }

  /** The map of a list of records; with distinct keys every record is in it. */
  ghost function AsMap<K, R>(key: R -> K, rows: seq<R>): map<K, R> {
    if rows == [] then map[]
    else
      var row := rows[|rows| - 1];
      AsMap(key, rows[..|rows| - 1])[key(row) := row]
  }

  lemma {:induction false} AsMapHas<K, R>(key: R -> K, rows: seq<R>, i: nat)
    requires DistinctKeys(key, rows) && i < |rows|
    ensures key(rows[i]) in AsMap(key, rows) && AsMap(key, rows)[key(rows[i])] == rows[i]
  {
    if i < |rows| - 1 { AsMapHas(key, rows[..|rows| - 1], i); }
  }

  lemma {:induction false} AsMapLacks<K, R>(key: R -> K, rows: seq<R>, k: K)
    requires forall i :: 0 <= i < |rows| ==> key(rows[i]) != k
    ensures k !in AsMap(key, rows)
  {
    if rows != [] { AsMapLacks(key, rows[..|rows| - 1], k); }
  }

  lemma {:induction false} AsMapFind<K, R>(key: R -> K, rows: seq<R>, k: K) returns (i: nat)
    requires k in AsMap(key, rows)
    ensures i < |rows| && key(rows[i]) == k
  {
    if key(rows[|rows| - 1]) == k { return |rows| - 1; }
    i := AsMapFind(key, rows[..|rows| - 1], k);
  }

  /** Overwriting one record under its own key. */
  lemma {:induction false} AsMapUpdate<K, R>(key: R -> K, rows: seq<R>, i: nat, row: R)
    requires DistinctKeys(key, rows) && i < |rows| && key(row) == key(rows[i])
    ensures DistinctKeys(key, rows[i := row])
    ensures AsMap(key, rows[i := row]) == AsMap(key, rows)[key(row) := row]
  {
    var init, rows' := rows[..|rows| - 1], rows[i := row];
    if i < |rows| - 1 {
      AsMapUpdate(key, init, i, row);
      assert rows'[..|rows| - 1] == init[i := row];
    } else {
      assert rows'[..|rows| - 1] == init;
    }
  }

  lemma AsMapAppend<K, R>(key: R -> K, rows: seq<R>, row: R)
    requires DistinctKeys(key, rows) && key(row) !in AsMap(key, rows)
    ensures DistinctKeys(key, rows + [row])
    ensures AsMap(key, rows + [row]) == AsMap(key, rows)[key(row) := row]
  {
    assert (rows + [row])[..|rows|] == rows;
    forall i | 0 <= i < |rows| ensures key(rows[i]) != key(row) {
      AsMapHas(key, rows, i);
    }
  }
}
