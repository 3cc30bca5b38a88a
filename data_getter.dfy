/** Unwrapping a response envelope by its key. */
module DataGetter {
  import opened Wrappers
  import opened OrderedMap
  import opened PhpValue
  import opened Errors

  function MissingKeyMessage(key: string): string
  {
    "Response doesn't contain '" + key + "'"
  }

  /**
   * getDataByKey: the value under key when the key exists (array_key_exists,
   * so a null value counts as present), else InvalidArgumentException.
   */
  function GetDataByKey(data: OMap<Key, Value>, key: string): (r: Result<Value, Error>)
    ensures r.Success? <==> StrKey(key) in Keys(data)
    ensures r.Success? ==> (StrKey(key), r.value) in data
    ensures r.Failure? ==> r.error == InvalidArgument(MissingKeyMessage(key))
  {
    if StrKey(key) in Keys(data) then Success(Get(data, StrKey(key)).value)
    else Failure(InvalidArgument(MissingKeyMessage(key)))
  }

  /** In a well-formed array the result is the value stored under the key, null included. */
  lemma GetDataByKeyFindsEntry(data: OMap<Key, Value>, key: string, i: nat)
    requires UniqueKeys(data) && i < |data| && data[i].0 == StrKey(key)
    ensures GetDataByKey(data, key) == Success(data[i].1)
  {
    GetAt(data, i);
  }

  /**
   * `getDataByKey(['issue' => ['id' => 5]], 'issue')` is `['id' => 5]`, a null
   * value is returned as null, and an empty response is rejected.
   */
  lemma GetDataByKeyExamples()
    ensures GetDataByKey([(StrKey("issue"), Arr([(StrKey("id"), Int(5))]))], "issue") == Success(Arr([(StrKey("id"), Int(5))]))
    ensures GetDataByKey([(StrKey("issue"), Null)], "issue") == Success(Null)
    ensures GetDataByKey([], "issue") == Failure(InvalidArgument("Response doesn't contain 'issue'"))
  {
    assert Keys([(StrKey("issue"), Null)]) == [StrKey("issue")];
    assert MissingKeyMessage("issue") == "Response doesn't contain 'issue'";
  }
}
