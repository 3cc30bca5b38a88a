/**
 * The Project resource: the list query, the create body (explicit name and
 * identifier merged over the caller data, then sanitised) and the update body.
 */
module Project {
  import opened Wrappers
  import opened OrderedMap
  import opened PhpValue
  import opened Errors
  import opened Query
  import opened Http
  import opened AbstractResource

  /** getPermittedFields. */
  const PermittedFields: seq<string> := [
    "name", "identifier", "description", "homepage", "is_public", "parent_id",
    "inherit_members", "tracker_ids", "enabled_module_names"
  ]

  /** The groups list hands to buildQueryParameters: the pagination, then `['include' => includes]`. */
  function ListGroups(pagination: OMap<Key, Value>, includes: OMap<Key, Value>): seq<Value>
  {
    [Arr(pagination), Arr([(StrKey("include"), Arr(includes))])]
  }

  /** The query of list once every scalar is cast to string before encoding. */
  function ListQuery(pagination: OMap<Key, Value>, includes: OMap<Key, Value>, encode: Encoder): OMap<Key, string>
  {
    Flattened(ListGroups(pagination, includes), encode)
  }

  /** The include group is always encodable, so only the pagination can make the query building throw. */
  lemma ListEncodable(pagination: OMap<Key, Value>, includes: OMap<Key, Value>)
    ensures AllEncodable(ListGroups(pagination, includes)) <==> GroupEncodable(pagination)
  {
    var groups := ListGroups(pagination, includes);
    assert ToArray(groups[0]) == pagination;
    assert GroupEncodable(ToArray(groups[1])) by {
      assert ToArray(groups[1]) == [(StrKey("include"), Arr(includes))];
      assert UrlencodeArgument(Arr(includes)).Some?;
    }
  }

  /**
   * list as written: a pagination value that is neither a string nor an array
   * makes buildQueryParameters throw a TypeError before any request is made;
   * otherwise a GET of `/projects.json` with the query.
   */
  function ListRequest(pagination: OMap<Key, Value>, includes: OMap<Key, Value>, encode: Encoder): (r: Result<Request, Error>)
    ensures r.Success? <==> GroupEncodable(pagination)
    ensures r.Success? ==> r.value == ListRequestWithCast(pagination, includes, encode)
    ensures r.Failure? ==> r.error == EngineError(UrlencodeTypeErrorMessage)
  {
    ListEncodable(pagination, includes);
    match FlattenedAsWritten(ListGroups(pagination, includes), encode)
    case Success(query) => Success(HttpGet("/projects.json", query))
    case Failure(e) => Failure(e)
  }

  /** list with each scalar cast to string: always a GET of `/projects.json` with the query. */
  function ListRequestWithCast(pagination: OMap<Key, Value>, includes: OMap<Key, Value>, encode: Encoder): (r: Request)
    ensures r.HttpGet? && r.uri == "/projects.json" && r.query == ListQuery(pagination, includes, encode)
  {
    HttpGet("/projects.json", ListQuery(pagination, includes, encode))
  }

  /** A pagination given as strings passes the query building as written. */
  lemma ListStringPagination(offset: string, limit: string, includes: OMap<Key, Value>, encode: Encoder)
    ensures ListRequest([(StrKey("offset"), Str(offset)), (StrKey("limit"), Str(limit))], includes, encode).Success?
  {
    var pagination := [(StrKey("offset"), Str(offset)), (StrKey("limit"), Str(limit))];
    assert UrlencodeArgument(pagination[0].1).Some? && UrlencodeArgument(pagination[1].1).Some?;
  }

  /** The include group comes last, so its value wins over an `include` key in the pagination. */
  lemma ListIncludeWins(pagination: OMap<Key, Value>, includes: OMap<Key, Value>, encode: Encoder)
    ensures Get(ListQuery(pagination, includes, encode), StrKey("include")) == Some(encode(ImplodeValues(includes)))
  {
    var groups := [Arr(pagination), Arr([(StrKey("include"), Arr(includes))])];
    FlattenedLastWins(groups, encode, StrKey("include"));
    assert LastIn(ToArray(groups[1]), StrKey("include")) == Some(Arr(includes));
  }

  /** Every other key carries the encoded pagination value. */
  lemma ListPaginationKeys(pagination: OMap<Key, Value>, includes: OMap<Key, Value>, encode: Encoder, k: Key)
    requires k != StrKey("include")
    ensures Get(ListQuery(pagination, includes, encode), k)
         == match LastIn(pagination, k) case Some(v) => Some(encode(QueryValue(v))) case None => None
  {
    var includeGroup := [(StrKey("include"), Arr(includes))];
    assert LastIn(includeGroup, k) == None by {
      assert includeGroup[..0] == [];
    }
    FlattenedSecondMisses(Arr(pagination), Arr(includeGroup), encode, k);
  }

  /** The default call: offset, limit, then include, in that order. */
  lemma ListDefault(encode: Encoder)
    ensures ListQuery(DefaultPagination.entries, [], encode)
         == [(StrKey("offset"), encode("0")), (StrKey("limit"), encode("25")), (StrKey("include"), encode(""))]
  {
    assert ListQuery(DefaultPagination.entries, [], encode)
        == Flattened([DefaultPagination, Arr([(StrKey("include"), Arr([]))])], encode) by {
      assert Arr(DefaultPagination.entries) == DefaultPagination;
    }
    DefaultThenEmptyInclude(encode);
  }

  /** As written, list with its default pagination throws on the integer offset before any request is made. */
  lemma ListDefaultRejectedAsWritten(includes: OMap<Key, Value>, encode: Encoder)
    ensures ListRequest(DefaultPagination.entries, includes, encode) == Failure(EngineError(UrlencodeTypeErrorMessage))
  {
    assert !GroupEncodable(DefaultPagination.entries) by {
      assert UrlencodeArgument(DefaultPagination.entries[0].1).None?;
    }
  }

  /** The default pagination group followed by an empty include group. */
  lemma DefaultThenEmptyInclude(encode: Encoder)
    ensures Flattened([DefaultPagination, Arr([(StrKey("include"), Arr([]))])], encode)
         == [(StrKey("offset"), encode("0")), (StrKey("limit"), encode("25"))] + [(StrKey("include"), encode(""))]
  {
    var acc := [(StrKey("offset"), encode("0")), (StrKey("limit"), encode("25"))];
    DefaultPaginationFlattened(encode);
    assert StrKey("include") !in Keys(acc) by {
      assert Keys(acc) == [StrKey("offset"), StrKey("limit")];
    }
    assert QueryValue(Arr([])) == "";
    FlattenedPairAppends(DefaultPagination, StrKey("include"), Arr([]), encode);
  }

  /** The data create sanitises: name and identifier first, then the caller's other keys. */
  function Merged(name: string, identifier: string, data: OMap<Key, Value>): OMap<Key, Value>
  {
    Union([(StrKey("name"), Str(name)), (StrKey("identifier"), Str(identifier))], data)
  }

  /** The `project` object of create. */
  function CreateProject(name: string, identifier: string, data: OMap<Key, Value>): OMap<Key, Value>
  {
    SanitizedData(Merged(name, identifier, data), PermittedFields)
  }

  /** create: POST `{project: sanitizeData(['name' => ..., 'identifier' => ...] + data)}`. */
  function CreateRequest(name: string, identifier: string, data: OMap<Key, Value>): (r: Request)
    ensures r.HttpPost? && r.uri == "/projects.json" && Keys(r.body) == [StrKey("project")]
  {
    HttpPost("/projects.json", [(StrKey("project"), Arr(CreateProject(name, identifier, data)))])
  }

  /** The merge: the explicit name and identifier override the data, everything else comes from it. */
  lemma MergedLookup(name: string, identifier: string, data: OMap<Key, Value>, k: Key)
    ensures Get(Merged(name, identifier, data), StrKey("name")) == Some(Str(name))
    ensures Get(Merged(name, identifier, data), StrKey("identifier")) == Some(Str(identifier))
    ensures k != StrKey("name") && k != StrKey("identifier") ==> Get(Merged(name, identifier, data), k) == Get(data, k)
  {
    var explicit := [(StrKey("name"), Str(name)), (StrKey("identifier"), Str(identifier))];
    assert Keys(explicit) == [StrKey("name"), StrKey("identifier")];
    GetAt(explicit, 0);
    GetAt(explicit, 1);
    UnionProperties(explicit, data);
  }

  /**
   * The project's name and identifier are always the explicit arguments;
   * every other key is a whitelisted, non-null value of the data.
   */
  lemma CreateProjectFields(name: string, identifier: string, data: OMap<Key, Value>, k: Key)
    ensures Get(CreateProject(name, identifier, data), StrKey("name")) == Some(Str(name))
    ensures Get(CreateProject(name, identifier, data), StrKey("identifier")) == Some(Str(identifier))
    ensures k != StrKey("name") && k != StrKey("identifier") ==>
      Get(CreateProject(name, identifier, data), k) == KeptValue(data, PermittedFields, k)
  {
    var merged := Merged(name, identifier, data);
    MergedLookup(name, identifier, data, k);
    PermittedFieldsShape();
    WhitelistedGet(merged, PermittedFields, StrKey("name"));
    WhitelistedGet(merged, PermittedFields, StrKey("identifier"));
    WhitelistedGet(merged, PermittedFields, k);
    WhitelistedGet(data, PermittedFields, k);
  }

  /** update: PUT the sanitised data itself, to the relative URI `projects/{id}.json`. */
  function UpdateRequest(id: Value, data: OMap<Key, Value>): (r: Request)
    ensures r.HttpPut? && r.uri == "projects/" + Stringify(id) + ".json"
  {
    HttpPut("projects/" + Stringify(id) + ".json", SanitizedData(data, PermittedFields))
  }

  /** The update body holds exactly the kept fields; a `project` key never survives. */
  lemma UpdateBody(id: Value, data: OMap<Key, Value>, k: Key)
    ensures Get(UpdateRequest(id, data).body, k) == KeptValue(data, PermittedFields, k)
    ensures StrKey("project") !in Keys(UpdateRequest(id, data).body)
  {
    var body := SanitizedData(data, PermittedFields);
    assert UpdateRequest(id, data).body == body;
    PermittedFieldsShape();
    WhitelistedGet(data, PermittedFields, k);
    WhitelistedGet(data, PermittedFields, StrKey("project"));
  }

  /** The whitelist has nine fields, admits name and identifier, and never the `project` wrapper. */
  lemma PermittedFieldsShape()
    ensures |PermittedFields| == 9
    ensures "name" in PermittedFields && "identifier" in PermittedFields
    ensures "project" !in PermittedFields
  {
    assert PermittedFields[0] == "name" && PermittedFields[1] == "identifier";
    AbsentByShape("project", PermittedFields);
  }
}
