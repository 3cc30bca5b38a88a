/**
 * The TimeEntry resource: the check on the referencing type, and the create
 * and update bodies, where the id is stored under a key built from the type.
 */
module TimeEntry {
  import opened Wrappers
  import opened OrderedMap
  import opened PhpValue
  import opened Errors
  import opened Http
  import opened AbstractResource

  /** getPermittedFields: the caller data a time entry may carry. */
  const PermittedFields: seq<string> := ["issue_id", "project_id", "spent_on", "hours", "activity_id", "comments"]

  const InvalidTypeMessage := "The $type must be as issue or project"

  /** checkReferencingType: strictly one of 'issue' and 'project'. */
  function CheckReferencingType(referencingType: string): (r: Option<Error>)
    ensures r.None? <==> referencingType == "issue" || referencingType == "project"
    ensures r.Some? ==> r.value == InvalidArgument(InvalidTypeMessage)
  {
    if referencingType !in ["issue", "project"] then Some(InvalidArgument(InvalidTypeMessage)) else None
  }

  /** The explicit fields of create: the id under `<type>_id`, then the hours. */
  function ExplicitFields(id: int, hours: Value, referencingType: string): OMap<Key, Value>
  {
    [(StrKey(referencingType + "_id"), Int(id)), (StrKey("hours"), hours)]
  }

  /** The `time_entry` object of create: the explicit fields, then the sanitised data they do not name. */
  function CreateEntry(id: int, hours: Value, referencingType: string, data: OMap<Key, Value>): OMap<Key, Value>
  {
    Union(ExplicitFields(id, hours, referencingType), SanitizedData(data, PermittedFields))
  }

  /** create: the type is checked before anything is sanitised or sent. */
  function CreateRequest(id: int, hours: Value, referencingType: string, data: OMap<Key, Value>): (r: Result<Request, Error>)
    ensures r.Failure? <==> CheckReferencingType(referencingType).Some?
    ensures r.Failure? ==> r.error == InvalidArgument(InvalidTypeMessage)
    ensures r.Success? ==> r.value == HttpPost("/time_entries.json", [(StrKey("time_entry"), Arr(CreateEntry(id, hours, referencingType, data)))])
  {
    match CheckReferencingType(referencingType)
    case Some(e) => Failure(e)
    case None => Success(HttpPost("/time_entries.json", [(StrKey("time_entry"), Arr(CreateEntry(id, hours, referencingType, data)))]))
  }

  /** The two explicit keys differ for every accepted type. */
  lemma ExplicitFieldsLookup(id: int, hours: Value, referencingType: string)
    requires CheckReferencingType(referencingType).None?
    ensures var explicit := ExplicitFields(id, hours, referencingType);
      && Keys(explicit) == [StrKey(referencingType + "_id"), StrKey("hours")]
      && UniqueKeys(explicit)
      && Get(explicit, StrKey(referencingType + "_id")) == Some(Int(id))
      && Get(explicit, StrKey("hours")) == Some(hours)
  {
    var explicit := ExplicitFields(id, hours, referencingType);
    assert |referencingType + "_id"| > 5;
    assert Keys(explicit) == [StrKey(referencingType + "_id"), StrKey("hours")];
    GetAt(explicit, 0);
    GetAt(explicit, 1);
  }

  /**
   * The explicit id and hours win over the same keys in the data; every other
   * key is what sanitising kept, and the explicit fields come first.
   */
  lemma CreateEntryFields(id: int, hours: Value, referencingType: string, data: OMap<Key, Value>, k: Key)
    requires CheckReferencingType(referencingType).None?
    ensures var explicit := ExplicitFields(id, hours, referencingType);
      var entry := CreateEntry(id, hours, referencingType, data);
      && |explicit| <= |entry| && entry[..|explicit|] == explicit
      && Get(entry, StrKey(referencingType + "_id")) == Some(Int(id))
      && Get(entry, StrKey("hours")) == Some(hours)
      && (k !in Keys(explicit) ==> Get(entry, k) == KeptValue(data, PermittedFields, k))
      && UniqueKeys(entry)
  {
    ExplicitFieldsLookup(id, hours, referencingType);
    UnionProperties(ExplicitFields(id, hours, referencingType), SanitizedData(data, PermittedFields));
    WhitelistedGet(data, PermittedFields, k);
  }

  /** An entry referenced by project still carries an `issue_id` from the data, which is whitelisted. */
  lemma ProjectEntryKeepsIssueId(id: int, hours: Value, data: OMap<Key, Value>, issueId: Value)
    requires Get(data, StrKey("issue_id")) == Some(issueId) && issueId != Null
    ensures Get(CreateEntry(id, hours, "project", data), StrKey("project_id")) == Some(Int(id))
    ensures Get(CreateEntry(id, hours, "project", data), StrKey("issue_id")) == Some(issueId)
  {
    assert "project" + "_id" == "project_id";
    ExplicitFieldsLookup(id, hours, "project");
    assert StrKey("issue_id") !in Keys(ExplicitFields(id, hours, "project"));
    PermittedFieldsShape();
    CreateEntryFields(id, hours, "project", data, StrKey("issue_id"));
  }

  /** With the default type `issue` and no data, create posts exactly `{time_entry: {issue_id: id, hours: hours}}`. */
  lemma CreateDefaults(id: int, hours: Value)
    ensures CreateRequest(id, hours, "issue", [])
         == Success(HttpPost("/time_entries.json", [(StrKey("time_entry"), Arr([(StrKey("issue_id"), Int(id)), (StrKey("hours"), hours)]))]))
  {
    assert "issue" + "_id" == "issue_id";
    assert CheckReferencingType("issue").None?;
    WhitelistedOfEmpty(PermittedFields);
    assert SanitizedData([], PermittedFields) == [];
    assert CreateEntry(id, hours, "issue", []) == ExplicitFields(id, hours, "issue");
  }

  /** Any other type is refused whatever the remaining arguments. */
  lemma CreateRejectsOtherTypes(id: int, hours: Value, data: OMap<Key, Value>)
    ensures CreateRequest(id, hours, "user", data) == Failure(InvalidArgument(InvalidTypeMessage))
    ensures CreateRequest(id, hours, "Issue", data) == Failure(InvalidArgument(InvalidTypeMessage))
  {
    assert "user" != "issue" && "user" != "project";
    assert "Issue"[0] != "issue"[0];
  }

  /** update: PUT the sanitised data itself, without a `time_entry` wrapper. */
  function UpdateRequest(id: int, data: OMap<Key, Value>): (r: Request)
    ensures r.HttpPut? && r.uri == "/time_entries/" + IntToString(id) + ".json"
  {
    HttpPut("/time_entries/" + IntToString(id) + ".json", SanitizedData(data, PermittedFields))
  }

  /** The update body holds exactly the kept fields; a `time_entry` key never survives. */
  lemma UpdateBody(id: int, data: OMap<Key, Value>, k: Key)
    ensures Get(UpdateRequest(id, data).body, k) == KeptValue(data, PermittedFields, k)
    ensures StrKey("time_entry") !in Keys(UpdateRequest(id, data).body)
  {
    var body := SanitizedData(data, PermittedFields);
    assert UpdateRequest(id, data).body == body;
    PermittedFieldsShape();
    WhitelistedGet(data, PermittedFields, k);
    WhitelistedGet(data, PermittedFields, StrKey("time_entry"));
  }

  /** The whitelist has 6 fields, admits issue_id, and never the `time_entry` wrapper. */
  lemma PermittedFieldsShape()
    ensures |PermittedFields| == 6
    ensures "issue_id" in PermittedFields
    ensures "time_entry" !in PermittedFields
  {
    assert PermittedFields[0] == "issue_id";
    AbsentByShape("time_entry", PermittedFields);
  }
}
