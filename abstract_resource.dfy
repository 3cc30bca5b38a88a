/**
 * The base every resource shares: query building, whitelist sanitising, the
 * routing of responses and failures through parseJson and
 * throwRequestException, and the extraction of an error's message and code.
 */
module AbstractResource {
  import opened Wrappers
  import opened OrderedMap
  import opened PhpValue
  import opened Errors
  import opened Json
  import opened Query
  import opened Http

  /** The resource's own HTTP client: the base URL is passed through as given. */
  function ResourceConfig(baseUrl: string, apiKey: string): (c: Config)
    ensures c.baseUri == baseUrl
    ensures Get(c.headers, "X-Redmine-API-Key") == Some(apiKey)
    ensures Get(c.headers, "Content-Type") == Some("application/json")
  {
    Config(baseUrl, DefaultHeaders(apiKey))
  }

  /** `['offset' => 0, 'limit' => 25]`, the default pagination of the list operations. */
  const DefaultPagination: Value := Arr([(StrKey("offset"), Int(0)), (StrKey("limit"), Int(25))])

  // ---------------------------------------------------------------------------
  // Query building

  /**
   * The argument `urlencode` receives in buildQueryParameters as written: an
   * imploded array or the value itself. The file declares strict types, so a
   * value that is not a string makes urlencode throw a TypeError.
   */
  function UrlencodeArgument(v: Value): Option<string>
  {
    match v
    case Arr(e) => Some(ImplodeValues(e))
    case Str(s) => Some(s)
    case _ => None
  }

  predicate GroupEncodable(entries: OMap<Key, Value>)
  {
    forall j :: 0 <= j < |entries| ==> UrlencodeArgument(entries[j].1).Some?
  }

  predicate AllEncodable(groups: seq<Value>)
  {
    forall i :: 0 <= i < |groups| ==> GroupEncodable(ToArray(groups[i]))
  }

  const UrlencodeTypeErrorMessage := "urlencode(): Argument #1 ($string) must be of type string"

  /** buildQueryParameters as written: a TypeError as soon as one value is a non-string scalar. */
  function FlattenedAsWritten(groups: seq<Value>, encode: Encoder): Result<OMap<Key, string>, Error>
  {
    if AllEncodable(groups) then Success(Flattened(groups, encode))
    else Failure(EngineError(UrlencodeTypeErrorMessage))
  }

  lemma EncodableArgument(v: Value)
    requires UrlencodeArgument(v).Some?
    ensures UrlencodeArgument(v) == Some(QueryValue(v))
  {
  }

  lemma AllEncodableExtend(groups: seq<Value>, i: nat)
    requires i < |groups| && AllEncodable(groups[..i]) && GroupEncodable(ToArray(groups[i]))
    ensures AllEncodable(groups[..i + 1])
  {
    assert groups[..i + 1] == groups[..i] + [groups[i]];
  }

  lemma GroupEncodableExtend(entries: OMap<Key, Value>, j: nat)
    requires j < |entries| && GroupEncodable(entries[..j]) && UrlencodeArgument(entries[j].1).Some?
    ensures GroupEncodable(entries[..j + 1])
  {
    assert entries[..j + 1] == entries[..j] + [entries[j]];
  }

  lemma NotAllEncodable(groups: seq<Value>, i: nat, j: nat)
    requires i < |groups| && j < |ToArray(groups[i])| && UrlencodeArgument(ToArray(groups[i])[j].1).None?
    ensures !AllEncodable(groups)
  {
    assert !GroupEncodable(ToArray(groups[i]));
  }

  /** One more encodable entry of group i assigned. */
  lemma EncodedEntryStep(groups: seq<Value>, i: nat, j: nat, encode: Encoder)
    requires i < |groups| && j < |ToArray(groups[i])|
    requires GroupEncodable(ToArray(groups[i])[..j]) && UrlencodeArgument(ToArray(groups[i])[j].1).Some?
    ensures GroupEncodable(ToArray(groups[i])[..j + 1])
    ensures var parameters := ToArray(groups[i]);
      PutAll(Flattened(groups[..i], encode), parameters[..j + 1], encode)
      == Put(PutAll(Flattened(groups[..i], encode), parameters[..j], encode), parameters[j].0, encode(UrlencodeArgument(parameters[j].1).value))
  {
    var parameters := ToArray(groups[i]);
    EncodableArgument(parameters[j].1);
    GroupEncodableExtend(parameters, j);
    PutAllSnoc(Flattened(groups[..i], encode), parameters, j, encode);
  }

  /** Group i finished with every entry encodable. */
  lemma EncodedGroupStep(groups: seq<Value>, i: nat, queryParts: OMap<Key, string>, encode: Encoder)
    requires i < |groups| && AllEncodable(groups[..i])
    requires var parameters := ToArray(groups[i]);
      GroupEncodable(parameters[..|parameters|])
      && queryParts == PutAll(Flattened(groups[..i], encode), parameters[..|parameters|], encode)
    ensures AllEncodable(groups[..i + 1]) && queryParts == Flattened(groups[..i + 1], encode)
  {
    var parameters := ToArray(groups[i]);
    assert parameters[..|parameters|] == parameters;
    AllEncodableExtend(groups, i);
    FlattenedSnoc(groups, i, encode);
  }

  /** The loop of buildQueryParameters exactly as written, with its TypeError. */
  method BuildQueryParametersAsWritten(groups: seq<Value>, encode: Encoder)
    returns (r: Result<OMap<Key, string>, Error>)
    ensures r == FlattenedAsWritten(groups, encode)
  {
    var queryParts: OMap<Key, string> := [];
    for i := 0 to |groups|
      invariant AllEncodable(groups[..i])
      invariant queryParts == Flattened(groups[..i], encode)
    {
      var parameters := ToArray(groups[i]);
      for j := 0 to |parameters|
        invariant GroupEncodable(parameters[..j])
        invariant queryParts == PutAll(Flattened(groups[..i], encode), parameters[..j], encode)
      {
        var (name, parameter) := parameters[j];
        var argument := UrlencodeArgument(parameter);
        if argument.None? {
          NotAllEncodable(groups, i, j);
          return Failure(EngineError(UrlencodeTypeErrorMessage));
        }
        EncodedEntryStep(groups, i, j, encode);
        queryParts := Put(queryParts, name, encode(argument.value));
      }
      EncodedGroupStep(groups, i, queryParts, encode);
    }
    assert groups[..|groups|] == groups;
    return Success(queryParts);
  }

  /**
   * buildQueryParameters with each scalar cast to string before encoding, as
   * the HTTP client's prepareRequestParameters does.
   */
  method BuildQueryParameters(groups: seq<Value>, encode: Encoder) returns (queryParts: OMap<Key, string>)
    ensures queryParts == Flattened(groups, encode)
  {
    queryParts := [];
    for i := 0 to |groups|
      invariant queryParts == Flattened(groups[..i], encode)
    {
      var parameters := ToArray(groups[i]);
      for j := 0 to |parameters|
        invariant queryParts == PutAll(Flattened(groups[..i], encode), parameters[..j], encode)
      {
        var (name, parameter) := parameters[j];
        PutAllSnoc(Flattened(groups[..i], encode), parameters, j, encode);
        queryParts := Put(queryParts, name, encode(QueryValue(parameter)));
      }
      assert parameters[..|parameters|] == parameters;
      FlattenedSnoc(groups, i, encode);
    }
    assert groups[..|groups|] == groups;
  }

  /** As written, the default pagination alone already makes the query building throw. */
  lemma DefaultPaginationRejectedAsWritten(encode: Encoder)
    ensures FlattenedAsWritten([DefaultPagination], encode) == Failure(EngineError(UrlencodeTypeErrorMessage))
  {
    assert !GroupEncodable(ToArray(DefaultPagination)) by {
      assert UrlencodeArgument(ToArray(DefaultPagination)[0].1).None?;
    }
  }

  /** With the cast, the default pagination becomes `offset=0&limit=25`. */
  lemma DefaultPaginationFlattened(encode: Encoder)
    ensures Flattened([DefaultPagination], encode) == [(StrKey("offset"), encode("0")), (StrKey("limit"), encode("25"))]
  {
    assert QueryValue(Int(0)) == "0";
    assert QueryValue(Int(25)) == "25" by {
      assert NatToString(25) == NatToString(2) + [DigitChar(5)];
    }
    FlattenedTwoKeys(StrKey("offset"), Int(0), StrKey("limit"), Int(25), encode);
  }

  // ---------------------------------------------------------------------------
  // Sanitising

  /** The value a permitted field keeps: present under a whitelisted name and not null. */
  function KeptValue(data: OMap<Key, Value>, permitted: seq<string>, k: Key): Option<Value>
  {
    if k.StrKey? && k.s in permitted then
      match Get(data, k)
      case Some(v) => if v == Null then None else Some(v)
      case None => None
    else None
  }

  /** The whitelist loop of sanitizeData for a non-empty whitelist. */
  function Whitelisted(data: OMap<Key, Value>, permitted: seq<string>): OMap<Key, Value>
    decreases |permitted|
  {
    if permitted == [] then []
    else
      var field := permitted[|permitted| - 1];
      var values := Whitelisted(data, permitted[..|permitted| - 1]);
      var value := match Get(data, StrKey(field)) case Some(v) => v case None => Null;
      if value != Null then Put(values, StrKey(field), value) else values
  }

  /** sanitizeData: an empty whitelist passes the data through untouched. */
  function SanitizedData(data: OMap<Key, Value>, permitted: seq<string>): (r: OMap<Key, Value>)
    ensures permitted == [] ==> r == data
  {
    if permitted == [] then data else Whitelisted(data, permitted)
  }

  /** The loop of sanitizeData, assigning into `$values` field by field. */
  method SanitizeData(data: OMap<Key, Value>, permitted: seq<string>) returns (values: OMap<Key, Value>)
    ensures values == SanitizedData(data, permitted)
  {
    values := [];
    if permitted == [] {
      return data;
    }
    for i := 0 to |permitted|
      invariant values == Whitelisted(data, permitted[..i])
    {
      var field := permitted[i];
      var value := match Get(data, StrKey(field)) case Some(v) => v case None => Null;
      assert permitted[..i + 1][..i] == permitted[..i];
      if value != Null {
        values := Put(values, StrKey(field), value);
      }
    }
    assert permitted[..|permitted|] == permitted;
  }

  /**
   * A key survives sanitising exactly when it is a whitelisted field present
   * with a non-null value, and it keeps the input's value.
   */
  lemma {:induction false} WhitelistedGet(data: OMap<Key, Value>, permitted: seq<string>, k: Key)
    ensures Get(Whitelisted(data, permitted), k) == KeptValue(data, permitted, k)
    decreases |permitted|
  {
    if permitted != [] {
      var front := permitted[..|permitted| - 1];
      var field := permitted[|permitted| - 1];
      WhitelistedGet(data, front, k);
      assert permitted == front + [field];
      var value := match Get(data, StrKey(field)) case Some(v) => v case None => Null;
      PutGet(Whitelisted(data, front), StrKey(field), value, k);
    }
  }

  /** Sanitising an empty array by any whitelist leaves it empty. */
  lemma {:induction false} WhitelistedOfEmpty(permitted: seq<string>)
    ensures Whitelisted([], permitted) == []
    decreases |permitted|
  {
    if permitted != [] {
      WhitelistedOfEmpty(permitted[..|permitted| - 1]);
    }
  }

  /** The fields that survive, in whitelist order (a repeated field once per mention). */
  function KeptFields(data: OMap<Key, Value>, permitted: seq<string>): seq<Key>
    decreases |permitted|
  {
    if permitted == [] then []
    else
      var field := permitted[|permitted| - 1];
      KeptFields(data, permitted[..|permitted| - 1]) + (if KeptValue(data, [field], StrKey(field)).Some? then [StrKey(field)] else [])
  }

  /** The surviving keys appear in whitelist order, each once. */
  lemma {:induction false} WhitelistedKeys(data: OMap<Key, Value>, permitted: seq<string>)
    ensures Keys(Whitelisted(data, permitted)) == Dedup(KeptFields(data, permitted))
    decreases |permitted|
  {
    if permitted != [] {
      var front := permitted[..|permitted| - 1];
      var field := permitted[|permitted| - 1];
      WhitelistedKeys(data, front);
      var kept := KeptValue(data, [field], StrKey(field)).Some?;
      if kept {
        DedupAppend(KeptFields(data, front), StrKey(field));
      } else {
        assert KeptFields(data, permitted) == KeptFields(data, front);
      }
    }
  }

  /** Sanitising a one-field array by a whitelist that names the field keeps exactly that field. */
  lemma {:induction false} WhitelistedSingle(f: string, v: Value, permitted: seq<string>)
    requires v != Null
    ensures Whitelisted([(StrKey(f), v)], permitted) == if f in permitted then [(StrKey(f), v)] else []
    decreases |permitted|
  {
    if permitted != [] {
      var front := permitted[..|permitted| - 1];
      WhitelistedSingle(f, v, front);
      assert permitted == front + [permitted[|permitted| - 1]];
    }
  }

  /** A two-field whitelist whose fields are present and non-null keeps both, in whitelist order. */
  lemma WhitelistedTwo(data: OMap<Key, Value>, f1: string, f2: string, x: Value, y: Value)
    requires f1 != f2 && x != Null && y != Null
    requires Get(data, StrKey(f1)) == Some(x) && Get(data, StrKey(f2)) == Some(y)
    ensures Whitelisted(data, [f1, f2]) == [(StrKey(f1), x), (StrKey(f2), y)]
  {
    var first := [(StrKey(f1), x)];
    assert Whitelisted(data, [f1]) == first by {
      assert [f1][..0] == [];
    }
    assert Whitelisted(data, [f1, f2]) == Put(first, StrKey(f2), y) by {
      assert [f1, f2][..1] == [f1];
    }
    assert StrKey(f2) !in Keys(first);
    PutAbsent(first, StrKey(f2), y);
  }

  /** `sanitizeData(['a' => x, 'b' => y, 'c' => z], ['a', 'b'])` is `['a' => x, 'b' => y]` when x and y are not null. */
  lemma SanitizeExample(x: Value, y: Value, z: Value)
    requires x != Null && y != Null
    ensures SanitizedData([(StrKey("a"), x), (StrKey("b"), y), (StrKey("c"), z)], ["a", "b"])
            == [(StrKey("a"), x), (StrKey("b"), y)]
  {
    var data := [(StrKey("a"), x), (StrKey("b"), y), (StrKey("c"), z)];
    assert Get(data, StrKey("a")) == Some(x);
    assert Get(data, StrKey("b")) == Some(y) by {
      assert data[1..] == [(StrKey("b"), y), (StrKey("c"), z)];
    }
    WhitelistedTwo(data, "a", "b", x, y);
  }

  // ---------------------------------------------------------------------------
  // Errors

  /** getErrorMessage: the upstream body when it can be read and is truthy, else the throwable's message. */
  function GetErrorMessage(e: Throwable): (m: string)
    ensures m == if e.upstream.ResponseBody? && TruthyString(e.upstream.content) then e.upstream.content else e.message
  {
    var message := match e.upstream
      case NoResponseAccessor => ""
      case ResponseUnreadable => e.message
      case ResponseBody(content) => content;
    if TruthyString(message) then message else e.message
  }

  /** getErrorCode: an HTTP error status is kept, anything else becomes 500. */
  function GetErrorCode(e: Throwable): (code: int)
    ensures 400 <= code <= 599
    ensures var raw := if e.statusCode.Some? then e.statusCode.value else e.code;
            400 <= raw <= 599 ==> code == raw
    ensures var raw := if e.statusCode.Some? then e.statusCode.value else e.code;
            !(400 <= raw <= 599) ==> code == 500
  {
    var code := if e.statusCode.Some? then e.statusCode.value else e.code;
    if code >= 400 && code <= 599 then code else 500
  }

  /** throwRequestException: the single exception every caught throwable becomes. */
  function ThrowRequestException(e: Throwable): (r: Error)
    ensures r.RequestError? && 400 <= r.code <= 599
    ensures r.message == GetErrorMessage(e)
  {
    RequestError(GetErrorMessage(e), GetErrorCode(e))
  }

  /**
   * Status 404 is reported as 404 whatever getCode() says; 999, or a throwable
   * with no status and code 0, 302 or 1000, as 500; without a status a code
   * of 503 is kept.
   */
  lemma ErrorCodeExamples(m: string)
    ensures GetErrorCode(Throwable(m, 302, Some(404), NoResponseAccessor)) == 404
    ensures GetErrorCode(Throwable(m, 404, Some(999), NoResponseAccessor)) == 500
    ensures GetErrorCode(Throwable(m, 0, None, NoResponseAccessor)) == 500
    ensures GetErrorCode(Throwable(m, 302, None, NoResponseAccessor)) == 500
    ensures GetErrorCode(Throwable(m, 1000, None, NoResponseAccessor)) == 500
    ensures GetErrorCode(Throwable(m, 503, None, NoResponseAccessor)) == 503
  {
  }

  // ---------------------------------------------------------------------------
  // Requests

  /**
   * requestGet, requestPost and requestPut once the request is performed: the
   * body is parsed inside the try, so every failure, a decoding failure
   * included, leaves as a RequestException.
   */
  function Send(outcome: Transport, decode: Decoder): (r: Result<OMap<Key, Value>, Error>)
    ensures r.Failure? ==> r.error.RequestError? && 400 <= r.error.code <= 599
    ensures outcome.Threw? ==> r == Failure(ThrowRequestException(outcome.e))
    ensures outcome.Responded? && ParseBody(outcome.body, decode).Success? ==> r == ParseBody(outcome.body, decode)
  {
    match outcome
    case Threw(e) => Failure(ThrowRequestException(e))
    case Responded(_, content) =>
      match ParseBody(content, decode)
      case Success(data) => Success(data)
      case Failure(err) => Failure(ThrowRequestException(Rethrown(err)))
  }

  /** A body that does not decode surfaces as RequestError with the decoder's message and code 500. */
  lemma DecodeFailureIsRequestError(status: int, content: string, decode: Decoder)
    requires !Blank(content) && decode(Trim(content)).Failure?
    ensures Send(Responded(status, content), decode) == Failure(RequestError(decode(Trim(content)).error, 500))
  {
    var msg := decode(Trim(content)).error;
    assert ParseBody(content, decode) == Failure(ResponseError(msg));
    var rethrown := Rethrown(ResponseError(msg));
    assert GetErrorMessage(rethrown) == msg && GetErrorCode(rethrown) == 500;
  }

  /** A blank body is an empty array, whatever the decoder would say. */
  lemma BlankBodyIsEmpty(status: int, content: string, decode: Decoder)
    requires Blank(content)
    ensures Send(Responded(status, content), decode) == Success([])
  {
  }

  /** requestDelete: the status code, or the RequestException built from what was thrown. */
  function RequestDelete(outcome: Transport): (r: Result<int, Error>)
    ensures outcome.Responded? ==> r == Success(outcome.status)
    ensures outcome.Threw? ==> r == Failure(ThrowRequestException(outcome.e))
  {
    match outcome
    case Responded(status, _) => Success(status)
    case Threw(e) => Failure(ThrowRequestException(e))
  }
}
