/**
 * The IssueCategory resource: the list query over the pagination, the
 * create body passed through `array_filter`, the update whitelist, and a
 * delete whose reassignment argument never reaches the request.
 */
module IssueCategory {
  import opened Wrappers
  import opened OrderedMap
  import opened PhpValue
  import opened Errors
  import opened Query
  import opened Http
  import opened AbstractResource

  /** The whitelist of update. */
  const UpdateFields: seq<string> := ["name", "assigned_to_id"]

  /** A nullable integer argument: PHP's null, or the integer. */
  function NullableInt(i: Option<int>): Value
  {
    match i
    case Some(n) => Int(n)
    case None => Null
  }

  function ListUri(projectId: Value): string
  {
    "/projects/" + Stringify(projectId) + "/issue_categories.json"
  }

  function CategoryUri(id: int): string
  {
    "/issue_categories/" + IntToString(id) + ".json"
  }

  /**
   * list as written: a pagination value that is neither a string nor an array
   * makes buildQueryParameters throw a TypeError before any request is made;
   * otherwise a GET with the pagination as its only query group.
   */
  function ListRequest(projectId: Value, pagination: OMap<Key, Value>, encode: Encoder): (r: Result<Request, Error>)
    ensures r.Success? <==> GroupEncodable(pagination)
    ensures r.Success? ==> r.value == ListRequestWithCast(projectId, pagination, encode)
    ensures r.Failure? ==> r.error == EngineError(UrlencodeTypeErrorMessage)
  {
    assert ToArray([Arr(pagination)][0]) == pagination;
    match FlattenedAsWritten([Arr(pagination)], encode)
    case Success(query) => Success(HttpGet(ListUri(projectId), query))
    case Failure(e) => Failure(e)
  }

  /** list with each scalar cast to string: always a GET with the pagination as its only query group. */
  function ListRequestWithCast(projectId: Value, pagination: OMap<Key, Value>, encode: Encoder): (r: Request)
    ensures r.HttpGet? && r.uri == ListUri(projectId) && r.query == Flattened([Arr(pagination)], encode)
  {
    HttpGet(ListUri(projectId), Flattened([Arr(pagination)], encode))
  }

  /** Every pagination key is sent with the encoded value of its last occurrence. */
  lemma ListQueryValues(projectId: Value, pagination: OMap<Key, Value>, encode: Encoder, k: Key)
    ensures Get(ListRequestWithCast(projectId, pagination, encode).query, k)
         == match LastIn(pagination, k) case Some(v) => Some(encode(QueryValue(v))) case None => None
  {
    assert ListRequestWithCast(projectId, pagination, encode).query == Flattened([Arr(pagination)], encode);
    assert ToArray(Arr(pagination)) == pagination;
    FlattenedSingleGet(Arr(pagination), encode, k);
  }

  /** With the cast, the default pagination sends `offset=0&limit=25`. */
  lemma ListDefault(projectId: Value, encode: Encoder)
    ensures ListRequestWithCast(projectId, DefaultPagination.entries, encode).query
         == [(StrKey("offset"), encode("0")), (StrKey("limit"), encode("25"))]
  {
    DefaultPaginationFlattened(encode);
  }

  /** As written, list with its default pagination throws before any request is made. */
  lemma ListDefaultRejectedAsWritten(projectId: Value, encode: Encoder)
    ensures ListRequest(projectId, DefaultPagination.entries, encode) == Failure(EngineError(UrlencodeTypeErrorMessage))
  {
    assert !GroupEncodable(DefaultPagination.entries) by {
      assert UrlencodeArgument(DefaultPagination.entries[0].1).None?;
    }
  }

  /** The literal handed to `array_filter` by create. */
  function CreateFields(name: string, assignedToId: Option<int>): OMap<Key, Value>
  {
    [(StrKey("name"), Str(name)), (StrKey("assigned_to_id"), NullableInt(assignedToId))]
  }

  /** create: POST `{issue_category: array_filter([...])}`. */
  function CreateRequest(projectId: Value, name: string, assignedToId: Option<int>): (r: Request)
    ensures r.HttpPost? && r.uri == ListUri(projectId) && Keys(r.body) == [StrKey("issue_category")]
  {
    HttpPost(ListUri(projectId), [(StrKey("issue_category"), Arr(ArrayFilter(CreateFields(name, assignedToId))))])
  }

  /**
   * The category holds the name when it is truthy, and the assignee when one
   * is given and is not 0; a null assignee is left out.
   */
  lemma CreateBody(projectId: Value, name: string, assignedToId: Option<int>)
    ensures var category := ArrayFilter(CreateFields(name, assignedToId));
      && CreateRequest(projectId, name, assignedToId).body == [(StrKey("issue_category"), Arr(category))]
      && Get(category, StrKey("name")) == (if TruthyString(name) then Some(Str(name)) else None)
      && Get(category, StrKey("assigned_to_id"))
         == (if assignedToId.Some? && assignedToId.value != 0 then Some(Int(assignedToId.value)) else None)
  {
    var fields := CreateFields(name, assignedToId);
    assert Keys(fields) == [StrKey("name"), StrKey("assigned_to_id")];
    assert UniqueKeys(fields) by {
      assert "name" != "assigned_to_id";
    }
    ArrayFilterAt(fields, 0);
    ArrayFilterAt(fields, 1);
  }

  /** update: PUT the data sanitised to name and assignee, with no wrapper. */
  function UpdateRequest(id: int, data: OMap<Key, Value>): (r: Request)
    ensures r.HttpPut? && r.uri == CategoryUri(id)
  {
    HttpPut(CategoryUri(id), SanitizedData(data, UpdateFields))
  }

  /** The update body holds the non-null name and assignee of the data, and nothing else. */
  lemma UpdateBody(id: int, data: OMap<Key, Value>, k: Key)
    ensures Get(UpdateRequest(id, data).body, k) == KeptValue(data, UpdateFields, k)
    ensures k != StrKey("name") && k != StrKey("assigned_to_id") ==> k !in Keys(UpdateRequest(id, data).body)
  {
    assert UpdateRequest(id, data).body == Whitelisted(data, UpdateFields);
    WhitelistedGet(data, UpdateFields, k);
  }

  /** The query delete builds: the reassignment target when it is truthy. */
  function DeleteQuery(reassignToId: Option<int>): OMap<Key, Value>
  {
    ArrayFilter([(StrKey("reassign_to_id"), NullableInt(reassignToId))])
  }

  /**
   * delete: requestDelete takes only the URI, so the query built from the
   * reassignment target is dropped.
   */
  function DeleteRequest(id: int, reassignToId: Option<int>): (r: Request)
    ensures r.HttpDelete? && r.uri == CategoryUri(id)
  {
    HttpDelete(CategoryUri(id))
  }

  /** Whatever reassignment target is given, the same request goes out. */
  lemma DeleteIgnoresReassign(id: int, a: Option<int>, b: Option<int>)
    ensures DeleteRequest(id, a) == DeleteRequest(id, b)
  {
  }
}
