/**
 * Query-parameter flattening, the rule shared by `buildQueryParameters` in the
 * resource base and `prepareRequestParameters` in the HTTP client: groups are
 * read in order, each group's entries in order, every entry is assigned into
 * one array, so the last write to a key wins and the key stays where it first
 * appeared. Values are converted to text and passed through `urlencode`, which
 * the model takes as a parameter.
 */
module Query {
  import opened Wrappers
  import opened OrderedMap
  import opened PhpValue

  /** `urlencode`, a foreign library function. */
  type Encoder = string -> string

  /** PHP's `(array)` cast applied to each group: null is empty, a scalar becomes `[0 => scalar]`. */
  function ToArray(v: Value): OMap<Key, Value>
  {
    match v
    case Arr(e) => e
    case Null => []
    case _ => [(IntKey(0), v)]
  }

  /** The text urlencode receives: an array is comma-joined, anything else cast to string. */
  function QueryValue(v: Value): string
  {
    if v.Arr? then ImplodeValues(v.entries) else Stringify(v)
  }

  /** Assign every entry of one group, in order, into acc. */
  function PutAll(acc: OMap<Key, string>, entries: OMap<Key, Value>, encode: Encoder): OMap<Key, string>
    decreases |entries|
  {
    if entries == [] then acc
    else
      var last := entries[|entries| - 1];
      Put(PutAll(acc, entries[..|entries| - 1], encode), last.0, encode(QueryValue(last.1)))
  }

  /** The array the nested loops leave behind after all groups. */
  function Flattened(groups: seq<Value>, encode: Encoder): OMap<Key, string>
    decreases |groups|
  {
    if groups == [] then []
    else PutAll(Flattened(groups[..|groups| - 1], encode), ToArray(groups[|groups| - 1]), encode)
  }

  /** Assigning one more entry of a group. */
  lemma PutAllSnoc(acc: OMap<Key, string>, entries: OMap<Key, Value>, j: nat, encode: Encoder)
    requires j < |entries|
    ensures PutAll(acc, entries[..j + 1], encode) == Put(PutAll(acc, entries[..j], encode), entries[j].0, encode(QueryValue(entries[j].1)))
  {
    assert entries[..j + 1][..j] == entries[..j];
  }

  /** Processing one more group. */
  lemma FlattenedSnoc(groups: seq<Value>, i: nat, encode: Encoder)
    requires i < |groups|
    ensures Flattened(groups[..i + 1], encode) == PutAll(Flattened(groups[..i], encode), ToArray(groups[i]), encode)
  {
    assert groups[..i + 1][..i] == groups[..i];
  }

  /** The value of the last entry with key k in one group. */
  function LastIn(entries: OMap<Key, Value>, k: Key): Option<Value>
    decreases |entries|
  {
    if entries == [] then None
    else if entries[|entries| - 1].0 == k then Some(entries[|entries| - 1].1)
    else LastIn(entries[..|entries| - 1], k)
  }

  /** The value k has in the last group that contains it. */
  function LastValue(groups: seq<Value>, k: Key): Option<Value>
    decreases |groups|
  {
    if groups == [] then None
    else
      match LastIn(ToArray(groups[|groups| - 1]), k)
      case Some(v) => Some(v)
      case None => LastValue(groups[..|groups| - 1], k)
  }

  /** With one group, the value is the last one in that group. */
  lemma LastValueSingle(group: Value, k: Key)
    ensures LastValue([group], k) == LastIn(ToArray(group), k)
  {
    assert [group][..0] == [];
  }

  /** With two groups, the second one's value wins when it has the key. */
  lemma LastValuePair(first: Value, second: Value, k: Key)
    ensures LastValue([first, second], k) == match LastIn(ToArray(second), k) case Some(v) => Some(v) case None => LastIn(ToArray(first), k)
  {
    assert [first, second][..1] == [first];
    LastValueSingle(first, k);
  }

  /** Every group's keys, groups and entries in order, repeats kept. */
  function AllKeys(groups: seq<Value>): seq<Key>
    decreases |groups|
  {
    if groups == [] then [] else AllKeys(groups[..|groups| - 1]) + Keys(ToArray(groups[|groups| - 1]))
  }

  function EncodedLast(groups: seq<Value>, k: Key, encode: Encoder): Option<string>
  {
    match LastValue(groups, k)
    case Some(v) => Some(encode(QueryValue(v)))
    case None => None
  }

  lemma {:induction false} PutAllGet(acc: OMap<Key, string>, entries: OMap<Key, Value>, encode: Encoder, k: Key)
    ensures Get(PutAll(acc, entries, encode), k) ==
            match LastIn(entries, k)
            case Some(v) => Some(encode(QueryValue(v)))
            case None => Get(acc, k)
    decreases |entries|
  {
    if entries != [] {
      var last := entries[|entries| - 1];
      PutAllGet(acc, entries[..|entries| - 1], encode, k);
      PutGet(PutAll(acc, entries[..|entries| - 1], encode), last.0, encode(QueryValue(last.1)), k);
    }
  }

  /** Last write wins: a key holds the encoded value from the last group containing it. */
  lemma {:induction false} FlattenedLastWins(groups: seq<Value>, encode: Encoder, k: Key)
    ensures Get(Flattened(groups, encode), k) == EncodedLast(groups, k, encode)
    decreases |groups|
  {
    if groups != [] {
      var front := groups[..|groups| - 1];
      FlattenedLastWins(front, encode, k);
      PutAllGet(Flattened(front, encode), ToArray(groups[|groups| - 1]), encode, k);
    }
  }

  /** With one group, the result is that group assigned into an empty array. */
  lemma FlattenedOne(group: Value, encode: Encoder)
    ensures Flattened([group], encode) == PutAll([], ToArray(group), encode)
  {
    assert [group][..0] == [];
  }

  /** Assigning a two-entry group: the first key, then the second. */
  lemma PutAllTwo(acc: OMap<Key, string>, a: (Key, Value), b: (Key, Value), encode: Encoder)
    ensures PutAll(acc, [a, b], encode) == Put(Put(acc, a.0, encode(QueryValue(a.1))), b.0, encode(QueryValue(b.1)))
  {
    var e := [a, b];
    var once := Put(acc, a.0, encode(QueryValue(a.1)));
    assert PutAll(acc, e[..1], encode) == once by {
      PutAllSnoc(acc, e, 0, encode);
      assert e[..0] == [];
    }
    assert PutAll(acc, e, encode) == Put(PutAll(acc, e[..1], encode), b.0, encode(QueryValue(b.1))) by {
      PutAllSnoc(acc, e, 1, encode);
      assert e[..2] == e;
    }
  }

  /** Two distinct keys assigned into an empty array stand in assignment order. */
  lemma PutTwoFresh<V>(k1: Key, x: V, k2: Key, y: V)
    requires k1 != k2
    ensures Put(Put([], k1, x), k2, y) == [(k1, x), (k2, y)]
  {
    PutAbsent([(k1, x)], k2, y);
  }

  /** One group of two distinct keys is sent as those two keys, in order. */
  lemma FlattenedTwoKeys(k1: Key, v1: Value, k2: Key, v2: Value, encode: Encoder)
    requires k1 != k2
    ensures Flattened([Arr([(k1, v1), (k2, v2)])], encode) == [(k1, encode(QueryValue(v1))), (k2, encode(QueryValue(v2)))]
  {
    var e := [(k1, v1), (k2, v2)];
    FlattenedOne(Arr(e), encode);
    assert ToArray(Arr(e)) == e;
    PutAllTwo([], (k1, v1), (k2, v2), encode);
    PutTwoFresh(k1, encode(QueryValue(v1)), k2, encode(QueryValue(v2)));
  }

  /** With one group: the encoded last value for k in that group. */
  lemma FlattenedSingleGet(group: Value, encode: Encoder, k: Key)
    ensures Get(Flattened([group], encode), k)
         == match LastIn(ToArray(group), k) case Some(v) => Some(encode(QueryValue(v))) case None => None
  {
    FlattenedLastWins([group], encode, k);
    LastValueSingle(group, k);
  }

  /** With two groups: the second group's last value for k, else the first group's. */
  lemma FlattenedPairGet(first: Value, second: Value, encode: Encoder, k: Key)
    ensures Get(Flattened([first, second], encode), k)
         == match LastIn(ToArray(second), k)
            case Some(v) => Some(encode(QueryValue(v)))
            case None =>
              match LastIn(ToArray(first), k)
              case Some(v) => Some(encode(QueryValue(v)))
              case None => None
  {
    FlattenedLastWins([first, second], encode, k);
    LastValuePair(first, second, k);
  }

  /** With two groups where the second lacks k, the first group decides. */
  lemma FlattenedSecondMisses(first: Value, second: Value, encode: Encoder, k: Key)
    requires LastIn(ToArray(second), k) == None
    ensures Get(Flattened([first, second], encode), k)
         == match LastIn(ToArray(first), k) case Some(v) => Some(encode(QueryValue(v))) case None => None
  {
    FlattenedPairGet(first, second, encode, k);
  }

  /** A one-entry second group whose key the first group lacks is appended at the end. */
  lemma FlattenedPairAppends(first: Value, k: Key, v: Value, encode: Encoder)
    requires k !in Keys(Flattened([first], encode))
    ensures Flattened([first, Arr([(k, v)])], encode) == Flattened([first], encode) + [(k, encode(QueryValue(v)))]
  {
    var groups := [first, Arr([(k, v)])];
    var acc := Flattened([first], encode);
    var entries := [(k, v)];
    assert groups[..1] == [first];
    assert Flattened(groups, encode) == PutAll(acc, entries, encode) by {
      assert groups[..|groups| - 1] == [first];
    }
    assert PutAll(acc, entries, encode) == Put(acc, k, encode(QueryValue(v))) by {
      assert entries[..0] == [];
    }
    PutAbsent(acc, k, encode(QueryValue(v)));
  }

  /** Assigning a key to a map whose keys are the first occurrences of xs. */
  lemma PutDedupKeys(m: OMap<Key, string>, xs: seq<Key>, k: Key, v: string)
    requires Keys(m) == Dedup(xs)
    ensures Keys(Put(m, k, v)) == Dedup(xs + [k])
  {
    DedupAppend(xs, k);
  }

  lemma {:induction false} PutAllKeys(acc: OMap<Key, string>, prior: seq<Key>, entries: OMap<Key, Value>, encode: Encoder)
    requires Keys(acc) == Dedup(prior)
    ensures Keys(PutAll(acc, entries, encode)) == Dedup(prior + Keys(entries))
    decreases |entries|
  {
    if entries == [] {
      assert prior + Keys(entries) == prior;
    } else {
      var front := entries[..|entries| - 1];
      var last := entries[|entries| - 1];
      PutAllKeys(acc, prior, front, encode);
      PutDedupKeys(PutAll(acc, front, encode), prior + Keys(front), last.0, encode(QueryValue(last.1)));
      KeysSnoc(entries);
      assert prior + Keys(entries) == (prior + Keys(front)) + [last.0];
    }
  }

  /**
   * The keys of the result are all groups' keys, each once, in the order of
   * their first occurrence across the groups.
   */
  lemma {:induction false} FlattenedKeys(groups: seq<Value>, encode: Encoder)
    ensures Keys(Flattened(groups, encode)) == Dedup(AllKeys(groups))
    decreases |groups|
  {
    if groups != [] {
      var front := groups[..|groups| - 1];
      FlattenedKeys(front, encode);
      PutAllKeys(Flattened(front, encode), AllKeys(front), ToArray(groups[|groups| - 1]), encode);
    }
  }

  /** The key set of the result is exactly the union of the groups' key sets, without repeats. */
  lemma FlattenedKeySet(groups: seq<Value>, encode: Encoder, k: Key)
    ensures UniqueKeys(Flattened(groups, encode))
    ensures k in Keys(Flattened(groups, encode)) <==> exists i :: 0 <= i < |groups| && HasKey(groups[i], k)
  {
    FlattenedKeys(groups, encode);
    AllKeysMembers(groups, k);
  }

  /** Group g names key k. */
  predicate HasKey(g: Value, k: Key)
  {
    k in Keys(ToArray(g))
  }

  lemma {:induction false} AllKeysMembers(groups: seq<Value>, k: Key)
    ensures k in AllKeys(groups) <==> exists i :: 0 <= i < |groups| && HasKey(groups[i], k)
    decreases |groups|
  {
    if groups != [] {
      var n := |groups| - 1;
      var front := groups[..n];
      AllKeysMembers(front, k);
      assert AllKeys(groups) == AllKeys(front) + Keys(ToArray(groups[n]));
      if k in AllKeys(groups) {
        if k in AllKeys(front) {
          var i :| 0 <= i < |front| && HasKey(front[i], k);
          assert front[i] == groups[i];
        } else {
          assert HasKey(groups[n], k);
        }
      } else {
        forall i | 0 <= i < |groups| ensures !HasKey(groups[i], k) {
          if i < n {
            assert front[i] == groups[i];
          }
        }
      }
    }
  }
}
