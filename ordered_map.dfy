/**
 * PHP arrays as ordered maps: a sequence of key/value pairs whose order is the
 * array's iteration order. Assignment to an existing key replaces its value
 * where it stands; a new key is appended.
 */
module OrderedMap {
  import opened Wrappers

  type OMap<K, V> = seq<(K, V)>

  /** The keys in iteration order (PHP's array_keys). */
  function Keys<K, V>(m: OMap<K, V>): (ks: seq<K>)
    ensures |ks| == |m|
    ensures forall i {:trigger ks[i]} :: 0 <= i < |m| ==> ks[i] == m[i].0
  {
    if m == [] then [] else [m[0].0] + Keys(m[1..])
  }

  predicate Distinct<T(==)>(s: seq<T>)
  {
    forall i, j :: 0 <= i < j < |s| ==> s[i] != s[j]
  }

  /** Every PHP array has pairwise distinct keys. */
  predicate UniqueKeys<K(==), V>(m: OMap<K, V>)
  {
    Distinct(Keys(m))
  }

  lemma KeysConcat<K, V>(a: OMap<K, V>, b: OMap<K, V>)
    ensures Keys(a + b) == Keys(a) + Keys(b)
  {
    assert |Keys(a + b)| == |Keys(a) + Keys(b)|;
    forall i | 0 <= i < |a + b| ensures Keys(a + b)[i] == (Keys(a) + Keys(b))[i] {
      if i >= |a| { assert (a + b)[i] == b[i - |a|]; }
    }
  }

  /** The keys of a non-empty map: those of all but its last entry, then the last key. */
  lemma KeysSnoc<K, V>(m: OMap<K, V>)
    requires m != []
    ensures Keys(m) == Keys(m[..|m| - 1]) + [m[|m| - 1].0]
  {
    var front, ks := m[..|m| - 1], Keys(m[..|m| - 1]) + [m[|m| - 1].0];
    assert |Keys(m)| == |ks|;
    forall i | 0 <= i < |m| ensures Keys(m)[i] == ks[i] {
      if i < |front| { assert front[i] == m[i]; }
    }
  }

  /** `$m[$k]` for a key that may be absent: the value of the first pair with key k. */
  function Get<K(==), V>(m: OMap<K, V>, k: K): (r: Option<V>)
    ensures r.None? <==> k !in Keys(m)
    ensures r.Some? ==> (k, r.value) in m
  {
    if m == [] then None
    else if m[0].0 == k then assert Keys(m)[0] == k; Some(m[0].1)
    else Get(m[1..], k)
  }

  /** In an array with distinct keys, the pair at any position is what Get finds for its key. */
  lemma {:induction false} GetAt<K, V>(m: OMap<K, V>, i: nat)
    requires UniqueKeys(m) && i < |m|
    ensures Get(m, m[i].0) == Some(m[i].1)
  {
    if i > 0 {
      assert Keys(m)[0] != Keys(m)[i];
      UniqueKeysTail(m);
      GetAt(m[1..], i - 1);
    }
  }

  /** Dropping the first pair keeps the keys distinct, and the first key does not recur. */
  lemma UniqueKeysTail<K, V>(m: OMap<K, V>)
    requires UniqueKeys(m) && m != []
    ensures UniqueKeys(m[1..]) && m[0].0 !in Keys(m[1..])
  {
    forall p, q | 0 <= p < q < |m[1..]| ensures Keys(m[1..])[p] != Keys(m[1..])[q] {
      assert Keys(m)[p + 1] != Keys(m)[q + 1];
    }
    forall p | 0 <= p < |m[1..]| ensures Keys(m[1..])[p] != m[0].0 {
      assert Keys(m)[p + 1] != Keys(m)[0];
    }
  }

  lemma GetAtEvery<K, V>(m: OMap<K, V>, k: K)
    requires UniqueKeys(m)
    ensures forall i :: 0 <= i < |m| && m[i].0 == k ==> Get(m, k) == Some(m[i].1)
  {
    forall i | 0 <= i < |m| && m[i].0 == k ensures Get(m, k) == Some(m[i].1) {
      GetAt(m, i);
    }
  }

  lemma GetAppend<K, V>(m: OMap<K, V>, e: (K, V), k: K)
    ensures Get(m + [e], k) == if k in Keys(m) then Get(m, k) else if k == e.0 then Some(e.1) else None
  {
    if m != [] {
      assert (m + [e])[1..] == m[1..] + [e];
      assert Keys(m) == [m[0].0] + Keys(m[1..]);
      GetAppend(m[1..], e, k);
    }
  }

  /** `$m[$k] = $v`: replace the value in place when k is present, else append the pair. */
  function Put<K(==,!new), V>(m: OMap<K, V>, k: K, v: V): (r: OMap<K, V>)
    ensures Keys(r) == if k in Keys(m) then Keys(m) else Keys(m) + [k]
  {
    if m == [] then [(k, v)]
    else if m[0].0 == k then
      assert Keys(m) == [k] + Keys(m[1..]);
      assert Keys([(k, v)] + m[1..]) == [k] + Keys(m[1..]);
      [(k, v)] + m[1..]
    else
      var rest := Put(m[1..], k, v);
      assert Keys(m) == [m[0].0] + Keys(m[1..]);
      assert Keys([m[0]] + rest) == [m[0].0] + Keys(rest);
      [m[0]] + rest
  }

  /** After `$m[$k] = $v`, k holds v and every other key holds what it held before. */
  lemma {:induction false} PutGet<K(!new), V>(m: OMap<K, V>, k: K, v: V, k': K)
    ensures Get(Put(m, k, v), k') == if k' == k then Some(v) else Get(m, k')
  {
    if m != [] && m[0].0 != k {
      PutCons(m, k, v);
      PutGet(m[1..], k, v, k');
      assert ([m[0]] + Put(m[1..], k, v))[1..] == Put(m[1..], k, v);
    }
  }

  /** PutGet for every key at once. */
  lemma PutGetAll<K(!new), V>(m: OMap<K, V>, k: K, v: V)
    ensures Get(Put(m, k, v), k) == Some(v)
    ensures forall k' :: k' != k ==> Get(Put(m, k, v), k') == Get(m, k')
  {
    forall k' {
      PutGet(m, k, v, k');
    }
  }

  /** Assigning a key other than the first one leaves the first pair where it is. */
  lemma PutCons<K(!new), V>(m: OMap<K, V>, k: K, v: V)
    requires m != [] && m[0].0 != k
    ensures Put(m, k, v) == [m[0]] + Put(m[1..], k, v)
  {
  }

  /** Assigning an absent key appends the pair. */
  lemma {:induction false} PutAbsent<K(!new), V>(m: OMap<K, V>, k: K, v: V)
    requires k !in Keys(m)
    ensures Put(m, k, v) == m + [(k, v)]
  {
    if m != [] {
      var rest := m[1..];
      assert m[0].0 != k && k !in Keys(rest) by {
        assert Keys(m)[0] == m[0].0;
        assert Keys(m) == [m[0].0] + Keys(rest);
      }
      PutCons(m, k, v);
      PutAbsent(rest, k, v);
      ConsSnoc(m, (k, v));
    }
  }

  /** Re-associating the first element of a non-empty sequence and one appended at its end. */
  lemma ConsSnoc<T>(s: seq<T>, x: T)
    requires s != []
    ensures [s[0]] + (s[1..] + [x]) == s + [x]
  {
    assert [s[0]] + s[1..] == s;
  }

  lemma DistinctAppend<T>(s: seq<T>, x: T)
    requires Distinct(s) && x !in s
    ensures Distinct(s + [x])
  {
  }

  lemma PutKeepsUniqueKeys<K(!new), V>(m: OMap<K, V>, k: K, v: V)
    requires UniqueKeys(m)
    ensures UniqueKeys(Put(m, k, v))
  {
    if k !in Keys(m) {
      DistinctAppend(Keys(m), k);
    }
  }

  /**
   * PHP's `a + b`: every pair of a, then, in b's order, the pairs of b whose key
   * is not yet present.
   */
  function Union<K(==), V>(a: OMap<K, V>, b: OMap<K, V>): OMap<K, V>
    decreases |b|
  {
    if b == [] then a
    else Union(if b[0].0 in Keys(a) then a else a + [b[0]], b[1..])
  }

  /** One step of `+`: b's first pair is appended exactly when a lacks its key. */
  lemma UnionStep<K, V>(a: OMap<K, V>, b: OMap<K, V>)
    requires b != []
    ensures Union(a, b) == Union(if b[0].0 in Keys(a) then a else a + [b[0]], b[1..])
  {
  }

  /** The left operand of `+` survives unchanged as a prefix. */
  lemma {:induction false} UnionPrefix<K, V>(a: OMap<K, V>, b: OMap<K, V>)
    ensures |a| <= |Union(a, b)| && Union(a, b)[..|a|] == a
    decreases |b|
  {
    if b != [] {
      var a' := if b[0].0 in Keys(a) then a else a + [b[0]];
      UnionStep(a, b);
      UnionPrefix(a', b[1..]);
      var r := Union(a', b[1..]);
      assert r[..|a|] == a by {
        assert r[..|a|] == r[..|a'|][..|a|];
        assert a'[..|a|] == a;
      }
    }
  }

  /** A key of a keeps a's value under `+`; any other key takes b's. */
  lemma {:induction false} UnionGet<K, V>(a: OMap<K, V>, b: OMap<K, V>, k: K)
    ensures Get(Union(a, b), k) == if k in Keys(a) then Get(a, k) else Get(b, k)
    decreases |b|
  {
    if b != [] {
      var a' := if b[0].0 in Keys(a) then a else a + [b[0]];
      UnionStep(a, b);
      UnionGet(a', b[1..], k);
      assert Keys(b) == [b[0].0] + Keys(b[1..]);
      if b[0].0 !in Keys(a) {
        GetAppend(a, b[0], k);
        KeysConcat(a, [b[0]]);
      }
    }
  }

  /** `+` of an array with distinct keys has distinct keys. */
  lemma {:induction false} UnionUnique<K, V>(a: OMap<K, V>, b: OMap<K, V>)
    requires UniqueKeys(a)
    ensures UniqueKeys(Union(a, b))
    decreases |b|
  {
    if b != [] {
      var a' := if b[0].0 in Keys(a) then a else a + [b[0]];
      if b[0].0 !in Keys(a) {
        KeysConcat(a, [b[0]]);
        DistinctAppend(Keys(a), b[0].0);
      }
      UnionStep(a, b);
      UnionUnique(a', b[1..]);
    }
  }

  /** The left operand of `+` survives unchanged as a prefix; a key of a keeps a's value. */
  lemma UnionProperties<K, V>(a: OMap<K, V>, b: OMap<K, V>)
    ensures |a| <= |Union(a, b)| && Union(a, b)[..|a|] == a
    ensures forall k :: Get(Union(a, b), k) == if k in Keys(a) then Get(a, k) else Get(b, k)
    ensures UniqueKeys(a) ==> UniqueKeys(Union(a, b))
  {
    UnionPrefix(a, b);
    forall k ensures Get(Union(a, b), k) == if k in Keys(a) then Get(a, k) else Get(b, k) {
      UnionGet(a, b, k);
    }
    if UniqueKeys(a) {
      UnionUnique(a, b);
    }
  }

  /** `unset($m[$k])`: the array without key k; nothing else moves. */
  function Unset<K(==,!new), V(!new)>(m: OMap<K, V>, k: K): (r: OMap<K, V>)
    ensures forall e :: e in r <==> e in m && e.0 != k
    ensures k !in Keys(m) ==> r == m
  {
    if m == [] then []
    else
      assert Keys(m) == [m[0].0] + Keys(m[1..]);
      (if m[0].0 == k then [] else [m[0]]) + Unset(m[1..], k)
  }

  /** One step of unset: the first pair unless it has key k, then the rest unset. */
  lemma UnsetCons<K(!new), V(!new)>(m: OMap<K, V>, k: K)
    requires m != []
    ensures Unset(m, k) == (if m[0].0 == k then [] else [m[0]]) + Unset(m[1..], k)
  {
  }

  lemma {:induction false} UnsetConcat<K(!new), V(!new)>(a: OMap<K, V>, b: OMap<K, V>, k: K)
    ensures Unset(a + b, k) == Unset(a, k) + Unset(b, k)
  {
    if a != [] {
      var head: OMap<K, V> := if a[0].0 == k then [] else [a[0]];
      assert (a + b)[0] == a[0] && (a + b)[1..] == a[1..] + b;
      UnsetCons(a + b, k);
      UnsetConcat(a[1..], b, k);
      UnsetCons(a, k);
      SeqAssoc(head, Unset(a[1..], k), Unset(b, k));
    } else {
      assert a + b == b;
    }
  }

  lemma SeqAssoc<T>(x: seq<T>, y: seq<T>, z: seq<T>)
    ensures x + (y + z) == (x + y) + z
  {
  }

  /** The elements of xs in the order of their first occurrence, each once. */
  function Dedup<T(==,!new)>(xs: seq<T>): (d: seq<T>)
    ensures Distinct(d)
    ensures forall x :: x in d <==> x in xs
  {
    if xs == [] then []
    else
      var d := Dedup(xs[..|xs| - 1]);
      var x := xs[|xs| - 1];
      assert xs == xs[..|xs| - 1] + [x];
      if x in d then d else DistinctAppend(d, x); d + [x]
  }

  lemma DedupAppend<T(!new)>(xs: seq<T>, x: T)
    ensures Dedup(xs + [x]) == if x in xs then Dedup(xs) else Dedup(xs) + [x]
  {
    assert (xs + [x])[..|xs|] == xs;
  }

  /** On a sequence without repeats, Dedup changes nothing. */
  lemma {:induction false} DedupOfDistinct<T(!new)>(xs: seq<T>)
    requires Distinct(xs)
    ensures Dedup(xs) == xs
  {
    if xs != [] {
      var front := xs[..|xs| - 1];
      assert xs == front + [xs[|xs| - 1]];
      DedupOfDistinct(front);
      DedupAppend(front, xs[|xs| - 1]);
    }
  }
}
