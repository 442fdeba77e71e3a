/**
 * A JavaScript plain object used as a dictionary (`Record<string, V>`): its
 * entries in insertion order, as `Object.keys`, `Object.values` and
 * `Object.entries` list them for keys that are not array indices. Assigning
 * to a present key keeps its position, assigning to a new key appends it,
 * and `delete` removes it.
 */
module Records {
  import opened Wrappers

  datatype Entry<V> = Entry(key: string, value: V)

  type Record<V> = seq<Entry<V>>

  /** `Object.keys(r)`. */
  function Keys<V>(r: Record<V>): (ks: seq<string>)
    ensures |ks| == |r|
    ensures forall i :: 0 <= i < |r| ==> ks[i] == r[i].key
  {
    if r == [] then [] else [r[0].key] + Keys(r[1..])
  }

  predicate Has<V>(r: Record<V>, k: string) {
    k in Keys(r)
  }

  /** No key occurs twice. */
  predicate Valid<V>(r: Record<V>) {
    r == [] || (r[0].key !in Keys(r[1..]) && Valid(r[1..]))
  }

  /** `r[k]`, with `None` for `undefined`. */
  function Get<V>(r: Record<V>, k: string): Option<V>
  {
    if r == [] then None
    else if r[0].key == k then Some(r[0].value)
    else Get(r[1..], k)
  }

  /** `r[k] = v`. */
  function Put<V>(r: Record<V>, k: string, v: V): Record<V>
  {
    if r == [] then [Entry(k, v)]
    else if r[0].key == k then [Entry(k, v)] + r[1..]
    else [r[0]] + Put(r[1..], k, v)
  }

  /** `delete r[k]`. */
  function Remove<V>(r: Record<V>, k: string): Record<V>
  {
    if r == [] then []
    else if r[0].key == k then Remove(r[1..], k)
    else [r[0]] + Remove(r[1..], k)
  }

  /** `Object.values(r).reduce((a, b) => a + b, 0)`. */
  function Sum(r: Record<int>): int
  {
    if r == [] then 0 else r[0].value + Sum(r[1..])
  }

  /** A key reads a value exactly when it is present, and the value read is its entry's. */
  lemma {:induction false} GetHas<V>(r: Record<V>, k: string)
    ensures Get(r, k).Some? <==> Has(r, k)
    ensures Get(r, k).Some? ==> Entry(k, Get(r, k).value) in r
  {
    if r != [] {
      assert Keys(r) == [r[0].key] + Keys(r[1..]);
      if r[0].key != k {
        GetHas(r[1..], k);
      }
    }
  }

  /** An assignment is read back, and leaves every other key as it was. */
  lemma {:induction false} GetPut<V>(r: Record<V>, k: string, v: V, j: string)
    ensures Get(Put(r, k, v), j) == if j == k then Some(v) else Get(r, j)
  {
    if r != [] && r[0].key != k {
      GetPut(r[1..], k, v, j);
    }
  }

  /** In a record without repeated keys, an entry is what its key reads. */
  lemma {:induction false} GetOfEntry<V>(r: Record<V>, k: string, v: V)
    requires Valid(r) && Entry(k, v) in r
    ensures Get(r, k) == Some(v)
  {
    if r[0] != Entry(k, v) {
      assert Entry(k, v) in r[1..];
      GetOfEntry(r[1..], k, v);
      var i :| 0 <= i < |r[1..]| && r[1..][i] == Entry(k, v);
      assert Keys(r[1..])[i] == k;
    }
  }

  /** A second assignment to the same key overrides the first. */
  lemma {:induction false} PutPut<V>(r: Record<V>, k: string, v: V, w: V)
    ensures Put(Put(r, k, v), k, w) == Put(r, k, w)
  {
    if r != [] && r[0].key != k {
      PutPut(r[1..], k, v, w);
    }
  }

  /** An assignment keeps the key order, appends a key that was missing, and keeps keys unique. */
  lemma {:induction false} KeysPut<V>(r: Record<V>, k: string, v: V)
    ensures Keys(Put(r, k, v)) == if Has(r, k) then Keys(r) else Keys(r) + [k]
    ensures Valid(r) ==> Valid(Put(r, k, v))
  {
    if r != [] && r[0].key != k {
      KeysPut(r[1..], k, v);
      assert Keys(r) == [r[0].key] + Keys(r[1..]);
    }
  }

  /** A removed key is gone, every other key keeps its value, and keys stay unique. */
  lemma {:induction false} GetRemove<V>(r: Record<V>, k: string, j: string)
    ensures Get(Remove(r, k), j) == if j == k then None else Get(r, j)
    ensures Valid(r) ==> Valid(Remove(r, k))
  {
    if r != [] {
      GetRemove(r[1..], k, j);
      if r[0].key != k {
        KeysRemove(r[1..], k);
      }
    }
  }

  lemma {:induction false} KeysRemove<V>(r: Record<V>, k: string)
    ensures forall j :: j in Keys(Remove(r, k)) <==> j in Keys(r) && j != k
  {
    if r != [] {
      KeysRemove(r[1..], k);
    }
  }

  /** Assigning `v` to `k` changes the sum of the values by `v` minus the old value. */
  lemma {:induction false} SumPut(r: Record<int>, k: string, v: int)
    requires Valid(r)
    ensures Sum(Put(r, k, v)) == Sum(r) - Get(r, k).GetOr(0) + v
  {
    if r != [] && r[0].key != k {
      SumPut(r[1..], k, v);
    }
  }

  /** Deleting a key takes its value out of the sum. */
  lemma {:induction false} SumRemove(r: Record<int>, k: string)
    requires Valid(r)
    ensures Sum(Remove(r, k)) == Sum(r) - Get(r, k).GetOr(0)
  {
    if r != [] {
      SumRemove(r[1..], k);
      if r[0].key == k {
        RemoveAbsent(r[1..], k);
      }
    }
  }

  /** Deleting a key just assigned leaves what deleting it leaves. */
  lemma {:induction false} RemovePut<V>(r: Record<V>, k: string, v: V)
    ensures Remove(Put(r, k, v), k) == Remove(r, k)
  {
    if r != [] && r[0].key != k {
      RemovePut(r[1..], k, v);
      assert Put(r, k, v) == [r[0]] + Put(r[1..], k, v);
    }
  }

  /** Deleting a missing key changes nothing. */
  lemma {:induction false} RemoveAbsent<V>(r: Record<V>, k: string)
    requires !Has(r, k)
    ensures Remove(r, k) == r
  {
    if r != [] {
      RemoveAbsent(r[1..], k);
    }
  }

  /** Every value is at least zero. */
  predicate NonNegative(r: Record<int>) {
    forall i :: 0 <= i < |r| ==> r[i].value >= 0
  }

  lemma {:induction false} SumNonNegative(r: Record<int>)
    requires NonNegative(r)
    ensures Sum(r) >= 0
  {
    if r != [] {
      SumNonNegative(r[1..]);
    }
  }

  lemma {:induction false} PutNonNegative(r: Record<int>, k: string, v: int)
    requires NonNegative(r) && v >= 0
    ensures NonNegative(Put(r, k, v))
  {
    if r != [] && r[0].key != k {
      PutNonNegative(r[1..], k, v);
      assert Put(r, k, v) == [r[0]] + Put(r[1..], k, v);
    }
  }

  lemma {:induction false} RemoveNonNegative(r: Record<int>, k: string)
    requires NonNegative(r)
    ensures NonNegative(Remove(r, k))
  {
    if r != [] {
      RemoveNonNegative(r[1..], k);
    }
  }
}
