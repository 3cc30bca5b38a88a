/**
 * The Version resource: create and update send the same `version` object,
 * five named fields passed through `array_filter`, so every falsy field is
 * left out of the request.
 */
module Version {
  import opened Wrappers
  import opened OrderedMap
  import opened PhpValue
  import opened Http

  /** The default status and sharing of create and update. */
  const DefaultStatus := "open"
  const DefaultSharing := "none"

  /** A nullable string argument: PHP's null, or the string. */
  function NullableString(s: Option<string>): Value
  {
    match s
    case Some(t) => Str(t)
    case None => Null
  }

  /** The literal handed to `array_filter`, the due date cast with `(string)`. */
  function Fields(name: string, status: string, sharing: string, dueDate: Value, description: Option<string>): OMap<Key, Value>
  {
    [ (StrKey("name"), Str(name)),
      (StrKey("status"), Str(status)),
      (StrKey("sharing"), Str(sharing)),
      (StrKey("due_date"), Str(Stringify(dueDate))),
      (StrKey("description"), NullableString(description)) ]
  }

  /** The `version` object: the truthy fields, in their listed order. */
  function VersionBody(name: string, status: string, sharing: string, dueDate: Value, description: Option<string>): OMap<Key, Value>
  {
    ArrayFilter(Fields(name, status, sharing, dueDate, description))
  }

  /** create: PUT (as written, not POST) to `/projects/{projectId}/versions.json`. */
  function CreateRequest(projectId: Value, name: string, status: string, sharing: string, dueDate: Value, description: Option<string>): (r: Request)
    ensures r.HttpPut? && r.uri == "/projects/" + Stringify(projectId) + "/versions.json"
    ensures Keys(r.body) == [StrKey("version")]
  {
    HttpPut("/projects/" + Stringify(projectId) + "/versions.json",
            [(StrKey("version"), Arr(VersionBody(name, status, sharing, dueDate, description)))])
  }

  /** update: PUT to `/versions/{id}.json`. */
  function UpdateRequest(id: int, name: string, status: string, sharing: string, dueDate: Value, description: Option<string>): (r: Request)
    ensures r.HttpPut? && r.uri == "/versions/" + IntToString(id) + ".json"
    ensures Keys(r.body) == [StrKey("version")]
  {
    HttpPut("/versions/" + IntToString(id) + ".json",
            [(StrKey("version"), Arr(VersionBody(name, status, sharing, dueDate, description)))])
  }

  /** create with only the project and the name: the defaults for everything else. */
  function CreateWithDefaults(projectId: Value, name: string): Request
  {
    CreateRequest(projectId, name, DefaultStatus, DefaultSharing, Null, None)
  }

  /** The five field names are distinct. */
  lemma FieldsUnique(name: string, status: string, sharing: string, dueDate: Value, description: Option<string>)
    ensures Keys(Fields(name, status, sharing, dueDate, description))
         == [StrKey("name"), StrKey("status"), StrKey("sharing"), StrKey("due_date"), StrKey("description")]
    ensures UniqueKeys(Fields(name, status, sharing, dueDate, description))
  {
    var ks := Keys(Fields(name, status, sharing, dueDate, description));
    assert ks == [StrKey("name"), StrKey("status"), StrKey("sharing"), StrKey("due_date"), StrKey("description")];
    assert "name" != "status" && "name" != "sharing" && "name" != "due_date" && "name" != "description";
    assert "status" != "sharing" && "status" != "due_date" && "status" != "description";
    assert "sharing" != "due_date" && "sharing" != "description" && "due_date" != "description";
  }

  /** Each field of the `version` object is there exactly when its value is truthy, and then unchanged. */
  lemma BodyFields(name: string, status: string, sharing: string, dueDate: Value, description: Option<string>)
    ensures var body := VersionBody(name, status, sharing, dueDate, description);
      && Get(body, StrKey("name")) == (if TruthyString(name) then Some(Str(name)) else None)
      && Get(body, StrKey("status")) == (if TruthyString(status) then Some(Str(status)) else None)
      && Get(body, StrKey("sharing")) == (if TruthyString(sharing) then Some(Str(sharing)) else None)
      && Get(body, StrKey("due_date")) == (if TruthyString(Stringify(dueDate)) then Some(Str(Stringify(dueDate))) else None)
      && Get(body, StrKey("description")) == (if description.Some? && TruthyString(description.value) then Some(Str(description.value)) else None)
  {
    var fields := Fields(name, status, sharing, dueDate, description);
    FieldsUnique(name, status, sharing, dueDate, description);
    ArrayFilterAt(fields, 0);
    ArrayFilterAt(fields, 1);
    ArrayFilterAt(fields, 2);
    ArrayFilterAt(fields, 3);
    ArrayFilterAt(fields, 4);
  }

  /** A null description and a null due date (cast to "") never reach the request. */
  lemma NullsDropped(name: string, status: string, sharing: string)
    ensures StrKey("description") !in Keys(VersionBody(name, status, sharing, Null, None))
    ensures StrKey("due_date") !in Keys(VersionBody(name, status, sharing, Null, None))
  {
    BodyFields(name, status, sharing, Null, None);
  }

  /** A name PHP reads as false, such as "0", is dropped like an empty one. */
  lemma ZeroNameDropped(status: string, sharing: string, dueDate: Value, description: Option<string>)
    ensures StrKey("name") !in Keys(VersionBody("0", status, sharing, dueDate, description))
  {
    BodyFields("0", status, sharing, dueDate, description);
  }

  /** With the defaults, the object carries status `open` and sharing `none`, the name when truthy, nothing else. */
  lemma DefaultsBody(projectId: Value, name: string)
    ensures var body := VersionBody(name, DefaultStatus, DefaultSharing, Null, None);
      && CreateWithDefaults(projectId, name).body == [(StrKey("version"), Arr(body))]
      && Get(body, StrKey("status")) == Some(Str("open"))
      && Get(body, StrKey("sharing")) == Some(Str("none"))
      && Get(body, StrKey("name")) == (if TruthyString(name) then Some(Str(name)) else None)
      && StrKey("due_date") !in Keys(body)
      && StrKey("description") !in Keys(body)
  {
    BodyFields(name, DefaultStatus, DefaultSharing, Null, None);
  }

  /** Given the same field arguments, create and update send the same body. */
  lemma SameBody(projectId: Value, id: int, name: string, status: string, sharing: string, dueDate: Value, description: Option<string>)
    ensures CreateRequest(projectId, name, status, sharing, dueDate, description).body
         == UpdateRequest(id, name, status, sharing, dueDate, description).body
  {
  }
}
