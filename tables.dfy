/**
 * An in-memory table as a JavaScript `Map<string, R>`: a finite map plus the
 * insertion order of its keys, which `Array.from(map.values())` follows.
 */
module Tables {
  import opened Wrappers

  datatype Table<R> = Table(keys: seq<string>, rows: map<string, R>)

  predicate Distinct(ks: seq<string>) {
    forall i, j :: 0 <= i < j < |ks| ==> ks[i] != ks[j]
  }

  /** The order lists every key of the map exactly once. */
  ghost predicate Valid<R>(t: Table<R>) {
    Distinct(t.keys) && forall k :: k in t.rows <==> k in t.keys
  }

  /** `new Map()`. */
  function Empty<R>(): (t: Table<R>)
    ensures Valid(t) && t.keys == [] && t.rows == map[]
  {
    Table([], map[])
  }

  /** `map.get(k)`, `undefined` being `None`. */
  function Get<R>(t: Table<R>, k: string): (r: Option<R>)
    ensures r.Some? <==> k in t.rows
    ensures r.Some? ==> r.value == t.rows[k]
  {
    if k in t.rows then Some(t.rows[k]) else None
  }

  /** `Array.from(map.values())`: the rows in insertion order of their keys. */
  function Values<R>(t: Table<R>): (vs: seq<R>)
    requires Valid(t)
    ensures |vs| == |t.keys|
    ensures forall i :: 0 <= i < |t.keys| ==> vs[i] == t.rows[t.keys[i]]
  {
    seq(|t.keys|, i requires 0 <= i < |t.keys| => t.rows[t.keys[i]])
  }

  /** `map.set(k, v)`: a new key goes to the end of the order, an existing key keeps its place. */
  function Put<R>(t: Table<R>, k: string, v: R): (t': Table<R>)
    requires Valid(t)
    ensures Valid(t')
    ensures t'.rows == t.rows[k := v]
  {
    if k in t.rows then Table(t.keys, t.rows[k := v]) else Table(t.keys + [k], t.rows[k := v])
  }

  /** Setting a fresh key appends its row to the values. */
  lemma PutNewAppends<R>(t: Table<R>, k: string, v: R)
    requires Valid(t) && k !in t.rows
    ensures Put(t, k, v).keys == t.keys + [k]
    ensures Values(Put(t, k, v)) == Values(t) + [v]
  {
    var t' := Put(t, k, v);
    assert forall i :: 0 <= i < |t.keys| ==> t.keys[i] != k;
    assert forall i :: 0 <= i < |t.keys| ==> Values(t')[i] == Values(t)[i];
  }

  /** Setting a present key replaces its row in place and leaves every other row where it was. */
  lemma PutExistingInPlace<R>(t: Table<R>, k: string, v: R)
    requires Valid(t) && k in t.rows
    ensures Put(t, k, v).keys == t.keys
    ensures forall i :: 0 <= i < |t.keys| ==>
      Values(Put(t, k, v))[i] == if t.keys[i] == k then v else Values(t)[i]
  {
  }

  /** `ks` without `k`, the others in their order. */
  function Without(ks: seq<string>, k: string): (r: seq<string>)
    ensures forall x :: x in r <==> x in ks && x != k
    ensures Distinct(ks) ==> Distinct(r)
    ensures k !in ks ==> r == ks
    decreases |ks|
  {
    if ks == [] then []
    else if ks[0] == k then Without(ks[1..], k)
    else
      var rest := Without(ks[1..], k);
      assert Distinct(ks) ==> ks[0] !in ks[1..] && Distinct(ks[1..]) by {
        if Distinct(ks) {
          forall j | 0 <= j < |ks| - 1 ensures ks[1..][j] != ks[0] {
            assert ks[1..][j] == ks[j + 1];
          }
        }
      }
      [ks[0]] + rest
  }

  /** `map.delete(k)`: the row and its place in the order go. */
  function Remove<R>(t: Table<R>, k: string): (t': Table<R>)
    requires Valid(t)
    ensures Valid(t')
    ensures t'.rows == t.rows - {k}
    ensures t'.keys == Without(t.keys, k)
  {
    Table(Without(t.keys, k), t.rows - {k})
  }

  lemma {:induction false} WithoutLast(ks: seq<string>, k: string)
    requires k !in ks
    ensures Without(ks + [k], k) == ks
    decreases |ks|
  {
    if ks == [] {
      assert [] + [k] == [k];
    } else {
      assert (ks + [k])[1..] == ks[1..] + [k];
      WithoutLast(ks[1..], k);
    }
  }

  /** Deleting a key that was just added restores the table exactly, order included. */
  lemma PutThenRemove<R>(t: Table<R>, k: string, v: R)
    requires Valid(t) && k !in t.rows
    ensures Remove(Put(t, k, v), k) == t
  {
    WithoutLast(t.keys, k);
    assert t.rows[k := v] - {k} == t.rows;
  }
}
