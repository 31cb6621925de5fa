/** Python dicts with string keys, which keep their insertion order: a
    sequence of (key, value) pairs. `Get` is `d.get(k)` and `Put` is
    `d[k] = v`, which overwrites an existing key where it stands and
    appends a new one at the end. */
module Dicts {
  import opened Wrappers

  type Dict<V> = seq<(string, V)>

  function Keys<V>(d: Dict<V>): (ks: seq<string>)
    ensures |ks| == |d|
    ensures forall i :: 0 <= i < |d| ==> ks[i] == d[i].0
  {
    seq(|d|, i requires 0 <= i < |d| => d[i].0)
  }

  /** A well-formed dict: no key occurs twice. */
  predicate KeysUnique<V>(d: Dict<V>) {
    forall i, j :: 0 <= i < j < |d| ==> d[i].0 != d[j].0
  }

  /** `d.get(k)`: the value of the first pair with key `k`. */
  function Get<V>(d: Dict<V>, k: string): Option<V> {
    if d == [] then None
    else if d[0].0 == k then Some(d[0].1)
    else Get(d[1..], k)
  }

  /** Looking a key up in two dicts laid end to end finds it in the first
      when it is there, and in the second otherwise. */
  lemma {:induction false} GetConcat<V>(a: Dict<V>, b: Dict<V>, k: string)
    ensures Get(a + b, k) == if Get(a, k).Some? then Get(a, k) else Get(b, k)
  {
    if a == [] {
      assert a + b == b;
    } else {
      assert (a + b)[1..] == a[1..] + b;
      GetConcat(a[1..], b, k);
    }
  }

  /** `d.get(k, default)`. */
  function GetOr<V>(d: Dict<V>, k: string, default: V): V {
    Get(d, k).GetOr(default)
  }

  /** `d[k] = v`. */
  function Put<V>(d: Dict<V>, k: string, v: V): Dict<V> {
    if d == [] then [(k, v)]
    else if d[0].0 == k then [(k, v)] + d[1..]
    else [d[0]] + Put(d[1..], k, v)
  }

  /** `d.get(k)` finds a value exactly when `k` is a key of `d`, and the
      value it finds is paired with `k` in `d`. */
  lemma {:induction false} GetFinds<V>(d: Dict<V>, k: string)
    ensures Get(d, k).Some? <==> k in Keys(d)
    ensures Get(d, k).Some? ==> (k, Get(d, k).value) in d
  {
    if d != [] {
      assert Keys(d) == [d[0].0] + Keys(d[1..]);
      if d[0].0 != k {
        GetFinds(d[1..], k);
      }
    }
  }

  /** After `d[k] = v`, `d.get(k)` is `v` and every other key reads as
      before. */
  lemma {:induction false} GetPut<V>(d: Dict<V>, k: string, v: V, k': string)
    ensures Get(Put(d, k, v), k') == if k' == k then Some(v) else Get(d, k')
  {
    if d != [] && d[0].0 != k {
      GetPut(d[1..], k, v, k');
    }
  }

  /** Assigning the same key twice keeps the second value only. */
  lemma {:induction false} PutPut<V>(d: Dict<V>, k: string, a: V, b: V)
    ensures Put(Put(d, k, a), k, b) == Put(d, k, b)
  {
    if d != [] && d[0].0 != k {
      PutPut(d[1..], k, a, b);
    }
  }

  /** Every pair after `d[k] = v` is the new pair or a pair of `d`. */
  lemma {:induction false} PutValues<V>(d: Dict<V>, k: string, v: V)
    ensures forall p :: p in Put(d, k, v) ==> p == (k, v) || p in d
  {
    if d != [] && d[0].0 != k {
      PutValues(d[1..], k, v);
    }
  }

  /** `d[k] = v` keeps the key order; a new key goes to the end. */
  lemma {:induction false} PutKeys<V>(d: Dict<V>, k: string, v: V)
    ensures Keys(Put(d, k, v)) == if k in Keys(d) then Keys(d) else Keys(d) + [k]
  {
    if d != [] {
      assert Keys(d) == [d[0].0] + Keys(d[1..]);
      if d[0].0 == k {
        assert Keys(Put(d, k, v)) == [k] + Keys(d[1..]);
      } else {
        PutKeys(d[1..], k, v);
        assert Keys(Put(d, k, v)) == [d[0].0] + Keys(Put(d[1..], k, v));
      }
    }
  }

  /** Assigning into a well-formed dict keeps it well formed. */
  lemma PutKeepsKeysUnique<V>(d: Dict<V>, k: string, v: V)
    requires KeysUnique(d)
    ensures KeysUnique(Put(d, k, v))
  {
    var r := Put(d, k, v);
    var kd, kr := Keys(d), Keys(r);
    PutKeys(d, k, v);
    forall i, j | 0 <= i < j < |r| ensures r[i].0 != r[j].0 {
      assert kr[i] == r[i].0 && kr[j] == r[j].0;
      if j < |d| {
        assert kd[i] == d[i].0 && kd[j] == d[j].0;
      } else {
        assert k !in kd && kr[j] == k && kr[i] == kd[i];
      }
    }
  }

  /** The dict built by assigning each pair of `entries` in turn, as a
      `for key, val in entries: d[key] = val` loop does. */
  function PutAll<V>(d: Dict<V>, entries: Dict<V>): Dict<V>
    decreases |entries|
  {
    if entries == [] then d
    else PutAll(Put(d, entries[0].0, entries[0].1), entries[1..])
  }

  /** The loop after one more step: the last pair is assigned last. */
  lemma {:induction false} PutAllSnoc<V>(d: Dict<V>, entries: Dict<V>, k: string, v: V)
    ensures PutAll(d, entries + [(k, v)]) == Put(PutAll(d, entries), k, v)
    decreases |entries|
  {
    if entries == [] {
      assert entries + [(k, v)] == [(k, v)];
    } else {
      assert (entries + [(k, v)])[1..] == entries[1..] + [(k, v)];
      PutAllSnoc(Put(d, entries[0].0, entries[0].1), entries[1..], k, v);
    }
  }

  /** Assigning the pairs of a well-formed dict into an empty one copies it. */
  lemma {:induction false} PutAllFresh<V>(d: Dict<V>, entries: Dict<V>)
    requires KeysUnique(d + entries)
    ensures PutAll(d, entries) == d + entries
    decreases |entries|
  {
    if entries != [] {
      var (k, v) := entries[0];
      assert k !in Keys(d) by {
        forall i | 0 <= i < |d| ensures d[i].0 != k {
          assert (d + entries)[i] == d[i] && (d + entries)[|d|] == entries[0];
        }
      }
      PutAppend(d, k, v);
      assert d + entries == (d + [(k, v)]) + entries[1..];
      PutAllFresh(d + [(k, v)], entries[1..]);
    }
  }

  /** Assigning a new key appends it. */
  lemma {:induction false} PutAppend<V>(d: Dict<V>, k: string, v: V)
    requires k !in Keys(d)
    ensures Put(d, k, v) == d + [(k, v)]
  {
    if d != [] {
      assert Keys(d)[0] == d[0].0 && Keys(d)[1..] == Keys(d[1..]);
      assert d[0].0 != k && k !in Keys(d[1..]);
      PutAppend(d[1..], k, v);
      assert Put(d, k, v) == [d[0]] + (d[1..] + [(k, v)]);
      assert d == [d[0]] + d[1..];
    }
  }
}
