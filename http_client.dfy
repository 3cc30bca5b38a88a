/**
 * The stand-alone HTTP client: base URI normalisation, its own copy of the
 * query flattening, response parsing outside the try block, the delete
 * status predicate and the upload headers.
 */
module HttpClient {
  import opened Wrappers
  import opened OrderedMap
  import opened PhpValue
  import opened Errors
  import opened Json
  import opened Query
  import opened Http

  /** `rtrim($s, '/')`: strip every trailing slash. */
  function RTrimSlash(s: string): (r: string)
    ensures |r| <= |s| && r == s[..|r|]
    ensures forall i :: |r| <= i < |s| ==> s[i] == '/'
    ensures r == [] || r[|r| - 1] != '/'
  {
    if s != [] && s[|s| - 1] == '/' then RTrimSlash(s[..|s| - 1]) else s
  }

  /** `rtrim($baseUrl, '/').'/'`: the base URI ends in exactly one slash. */
  function BaseUri(baseUrl: string): (u: string)
    ensures |u| > 0 && u[|u| - 1] == '/'
    ensures |u| >= 2 ==> u[|u| - 2] != '/'
    ensures |u| - 1 <= |baseUrl| && u[..|u| - 1] == baseUrl[..|u| - 1]
    ensures forall i :: |u| - 1 <= i < |baseUrl| ==> baseUrl[i] == '/'
  {
    var stem := RTrimSlash(baseUrl);
    assert (stem + "/")[..|stem|] == stem;
    stem + "/"
  }

  /** Normalising twice is normalising once. */
  lemma BaseUriIdempotent(baseUrl: string)
    ensures BaseUri(BaseUri(baseUrl)) == BaseUri(baseUrl)
  {
    var u := BaseUri(baseUrl);
    var stem := u[..|u| - 1];
    assert u == stem + "/";
    assert RTrimSlash(stem) == stem;
    assert u[..|u| - 1] == stem;
  }

  /** The constructor's configuration. */
  function NewClient(baseUrl: string, apiKey: string): (c: Config)
    ensures c.baseUri == BaseUri(baseUrl)
    ensures Get(c.headers, "X-Redmine-API-Key") == Some(apiKey)
    ensures Get(c.headers, "Content-Type") == Some("application/json")
  {
    Config(BaseUri(baseUrl), DefaultHeaders(apiKey))
  }

  /**
   * The values of the caller's query: get and delete pass the query array
   * itself, and prepareRequestParameters reads its values as the groups,
   * dropping the outer keys.
   */
  function QueryGroups(query: OMap<Key, Value>): (groups: seq<Value>)
    ensures |groups| == |query|
    ensures forall i {:trigger groups[i]} :: 0 <= i < |groups| ==> groups[i] == query[i].1
  {
    seq(|query|, i requires 0 <= i < |query| => query[i].1)
  }

  /** prepareRequestParameters: the double loop filling `$prepared` from the values of the query. */
  method PrepareRequestParameters(args: OMap<Key, Value>, encode: Encoder) returns (prepared: OMap<Key, string>)
    ensures prepared == Flattened(QueryGroups(args), encode)
  {
    var groups := QueryGroups(args);
    prepared := [];
    for i := 0 to |args|
      invariant prepared == Flattened(groups[..i], encode)
    {
      var parameters := ToArray(args[i].1);
      assert parameters == ToArray(groups[i]);
      for j := 0 to |parameters|
        invariant prepared == PutAll(Flattened(groups[..i], encode), parameters[..j], encode)
      {
        var (name, parameter) := parameters[j];
        PutAllSnoc(Flattened(groups[..i], encode), parameters, j, encode);
        prepared := Put(prepared, name, encode(if parameter.Arr? then ImplodeValues(parameter.entries) else Stringify(parameter)));
      }
      assert parameters[..|parameters|] == parameters;
      FlattenedSnoc(groups, i, encode);
    }
    assert groups[..|groups|] == groups;
  }

  /** A value that `(array)` turns into the one-entry array `[0 => value]`. */
  predicate Scalar(v: Value)
  {
    !v.Null? && !v.Arr?
  }

  /** A scalar group is assigned to key 0 on top of what the earlier groups left. */
  lemma ScalarStep(groups: seq<Value>, encode: Encoder)
    requires groups != [] && Scalar(groups[|groups| - 1])
    ensures var n := |groups| - 1;
      Flattened(groups, encode) == Put(Flattened(groups[..n], encode), IntKey(0), encode(Stringify(groups[n])))
  {
    var n := |groups| - 1;
    var g := groups[n];
    var acc := Flattened(groups[..n], encode);
    var entry := [(IntKey(0), g)];
    assert ToArray(g) == entry;
    assert Flattened(groups, encode) == PutAll(acc, entry, encode) by {
      FlattenedSnoc(groups, n, encode);
      assert groups[..n + 1] == groups;
    }
    assert PutAll(acc, entry, encode) == Put(acc, IntKey(0), encode(QueryValue(g))) by {
      PutAllSnoc(acc, entry, 0, encode);
      assert entry[..0] == [] && entry[..1] == entry;
    }
  }

  /** Assigning the only key of a one-pair array replaces its value. */
  lemma PutSameSingle<K(!new), V>(k: K, x: V, v: V)
    ensures Put([(k, x)], k, v) == [(k, v)]
  {
    assert [(k, x)][1..] == [];
  }

  /** Groups that are all scalars collapse onto key 0, holding the last one. */
  lemma {:induction false} ScalarGroupsCollapse(groups: seq<Value>, encode: Encoder)
    requires groups != [] && forall i :: 0 <= i < |groups| ==> Scalar(groups[i])
    ensures Flattened(groups, encode) == [(IntKey(0), encode(Stringify(groups[|groups| - 1])))]
    decreases |groups|
  {
    var n := |groups| - 1;
    var front, v := groups[..n], encode(Stringify(groups[n]));
    ScalarStep(groups, encode);
    if front == [] {
      assert Flattened(front, encode) == [];
    } else {
      assert forall i :: 0 <= i < |front| ==> Scalar(front[i]) by {
        assert forall i :: 0 <= i < |front| ==> front[i] == groups[i];
      }
      ScalarGroupsCollapse(front, encode);
      PutSameSingle(IntKey(0), encode(Stringify(front[n - 1])), v);
    }
  }

  /**
   * A flat query of scalars loses its names: every value is assigned to key
   * 0, so only the last one is sent, under 0.
   */
  lemma FlatQueryCollapses(query: OMap<Key, Value>, encode: Encoder)
    requires query != [] && forall i :: 0 <= i < |query| ==> Scalar(query[i].1)
    ensures Flattened(QueryGroups(query), encode) == [(IntKey(0), encode(Stringify(query[|query| - 1].1)))]
  {
    ScalarGroupsCollapse(QueryGroups(query), encode);
  }

  /** `get($uri, ['limit' => 25, 'offset' => 0])` sends the query `0=0`. */
  lemma FlatQueryExample(encode: Encoder)
    ensures Flattened(QueryGroups([(StrKey("limit"), Int(25)), (StrKey("offset"), Int(0))]), encode)
         == [(IntKey(0), encode("0"))]
  {
    var query := [(StrKey("limit"), Int(25)), (StrKey("offset"), Int(0))];
    assert Scalar(query[0].1) && Scalar(query[1].1);
    FlatQueryCollapses(query, encode);
  }

  /** parseResponse: the shared JSON body rule. */
  function ParseResponse(content: string, decode: Decoder): (r: Result<OMap<Key, Value>, Error>)
    ensures Blank(content) ==> r == Success([])
    ensures !Blank(content) && decode(Trim(content)).Failure? ==>
              r == Failure(ResponseError(decode(Trim(content)).error))
    ensures !Blank(content) && decode(Trim(content)).Success? && decode(Trim(content)).value.Arr? ==>
              r == Success(decode(Trim(content)).value.entries)
    ensures r.Failure? ==> r.error.ResponseError? || r.error.EngineError?
  {
    ParseBody(content, decode)
  }

  /**
   * get, post, put and upload after the request is performed: a throwable is
   * re-raised as RequestException with its own message and code; the body is
   * parsed after the try, so a decoding failure stays a ResponseException.
   */
  function Send(outcome: Transport, decode: Decoder): (r: Result<OMap<Key, Value>, Error>)
    ensures outcome.Threw? ==> r == Failure(RequestError(outcome.e.message, outcome.e.code))
    ensures outcome.Responded? ==> r == ParseResponse(outcome.body, decode)
  {
    match outcome
    case Threw(e) => Failure(RequestError(e.message, e.code))
    case Responded(_, content) => ParseResponse(content, decode)
  }

  /** Unlike the resource base, the client does not clamp the code, nor wrap a decoding failure. */
  lemma SendKeepsCodeAndDecoderError(e: Throwable, status: int, content: string, decode: Decoder)
    ensures Send(Threw(e), decode) == Failure(RequestError(e.message, e.code))
    ensures !Blank(content) && decode(Trim(content)).Failure? ==>
              Send(Responded(status, content), decode) == Failure(ResponseError(decode(Trim(content)).error))
  {
  }

  /** The success test of delete, as written. */
  predicate DeleteSucceeded(statusCode: int)
  {
    statusCode <= 200 && statusCode > 400
  }

  function Delete(outcome: Transport): (r: Result<bool, Error>)
    ensures outcome.Threw? ==> r == Failure(RequestError(outcome.e.message, outcome.e.code))
    ensures outcome.Responded? ==> r.Success?
  {
    match outcome
    case Responded(status, _) => Success(DeleteSucceeded(status))
    case Threw(e) => Failure(RequestError(e.message, e.code))
  }

  /** No status code satisfies the predicate, so a delete that returns reports false. */
  lemma DeleteNeverReportsSuccess(outcome: Transport)
    ensures Delete(outcome) != Success(true)
  {
  }

  /** The options of an upload request. */
  datatype UploadOptions = UploadOptions(json: Value, headers: OMap<string, string>)

  /**
   * upload: the content goes in the `json` option and the configured headers
   * are merged with an octet-stream content type, the right operand winning.
   */
  function Upload(config: Config, content: string): (o: UploadOptions)
    ensures o.json == Str(content)
    ensures Get(o.headers, "Content-Type") == Some("application/octet-stream")
    ensures forall h :: h != "Content-Type" ==> Get(o.headers, h) == Get(config.headers, h)
    ensures "Content-Type" in Keys(config.headers) ==> Keys(o.headers) == Keys(config.headers)
  {
    PutGetAll(config.headers, "Content-Type", "application/octet-stream");
    UploadOptions(Str(content), Put(config.headers, "Content-Type", "application/octet-stream"))
  }

  /** With the constructor's headers, the upload keeps the API key and only the content type changes. */
  lemma UploadHeadersFromConstructor(baseUrl: string, apiKey: string, content: string)
    ensures Upload(NewClient(baseUrl, apiKey), content).headers
            == [("X-Redmine-API-Key", apiKey), ("Content-Type", "application/octet-stream")]
  {
  }
}
