/**
 * The User resource: the id check in front of get, the current-user
 * shorthand, and the create and update bodies.
 */
module User {
  import opened Wrappers
  import opened OrderedMap
  import opened PhpValue
  import opened Errors
  import opened Query
  import opened Http
  import opened AbstractResource

  /** getPermittedFields: the caller data a user may be created or updated with. */
  const PermittedFields: seq<string> := [
    "login", "password", "firstname", "lastname", "mail", "auth_source_id",
    "mail_notification", "must_change_passwd", "generate_password"
  ]

  const InvalidIdMessage := "The $id must be integer or \"current\""

  /** checkId: an integer or exactly the string "current"; anything else is refused. */
  function CheckId(id: Value): (r: Option<Error>)
    ensures r.None? <==> id.Int? || id == Str("current")
    ensures r.Some? ==> r.value == InvalidArgument(InvalidIdMessage)
  {
    if !id.Int? && id != Str("current") then Some(InvalidArgument(InvalidIdMessage)) else None
  }

  /** get: the id is checked before the request is built. */
  function GetRequest(id: Value, includes: OMap<Key, Value>, encode: Encoder): (r: Result<Request, Error>)
    ensures r.Failure? <==> CheckId(id).Some?
    ensures r.Failure? ==> r.error == InvalidArgument(InvalidIdMessage)
  {
    match CheckId(id)
    case Some(e) => Failure(e)
    case None => Success(HttpGet("/users/" + Stringify(id) + ".json", Flattened([Arr([(StrKey("include"), Arr(includes))])], encode)))
  }

  /** getCurrent: get with the id "current". */
  function GetCurrentRequest(includes: OMap<Key, Value>, encode: Encoder): (r: Result<Request, Error>)
    ensures r.Success? && r.value.HttpGet? && r.value.uri == "/users/current.json"
  {
    assert Stringify(Str("current")) == "current";
    assert "/users/" + "current" + ".json" == "/users/current.json";
    GetRequest(Str("current"), includes, encode)
  }

  /** getCurrent always passes the id check and asks for the current user's URI. */
  lemma GetCurrentPassesCheck(includes: OMap<Key, Value>, encode: Encoder)
    ensures GetCurrentRequest(includes, encode)
         == Success(HttpGet("/users/current.json", Flattened([Arr([(StrKey("include"), Arr(includes))])], encode)))
  {
    assert Stringify(Str("current")) == "current";
    assert "/users/" + "current" + ".json" == "/users/current.json";
  }

  /** An integer id is written in decimal into the URI. */
  lemma GetByIntegerId(id: int, includes: OMap<Key, Value>, encode: Encoder)
    ensures GetRequest(Int(id), includes, encode).Success?
    ensures GetRequest(Int(id), includes, encode).value.uri == "/users/" + IntToString(id) + ".json"
  {
  }

  /** The explicit fields of create, in their order. */
  function ExplicitFields(login: string, firstName: string, lastName: string, email: string): OMap<Key, Value>
  {
    [(StrKey("login"), Str(login)), (StrKey("first_name"), Str(firstName)),
     (StrKey("last_name"), Str(lastName)), (StrKey("mail"), Str(email))]
  }

  /** The `user` object of create: the explicit fields, then the sanitised data they do not name. */
  function CreateUser(login: string, firstName: string, lastName: string, email: string, data: OMap<Key, Value>): OMap<Key, Value>
  {
    Union(ExplicitFields(login, firstName, lastName, email), SanitizedData(data, PermittedFields))
  }

  /** create: POST `{user: explicit + sanitised, send_information: sendNotification}`. */
  function CreateRequest(login: string, firstName: string, lastName: string, email: string,
                         data: OMap<Key, Value>, sendNotification: bool): (r: Request)
    ensures r.HttpPost? && r.uri == "/users.json"
    ensures Keys(r.body) == [StrKey("user"), StrKey("send_information")]
    ensures Get(r.body, StrKey("send_information")) == Some(Bool(sendNotification))
  {
    HttpPost("/users.json", [(StrKey("user"), Arr(CreateUser(login, firstName, lastName, email, data))),
                             (StrKey("send_information"), Bool(sendNotification))])
  }

  /** The explicit fields have distinct keys, so each is found with its own argument. */
  lemma ExplicitFieldsLookup(login: string, firstName: string, lastName: string, email: string)
    ensures var explicit := ExplicitFields(login, firstName, lastName, email);
      && Keys(explicit) == [StrKey("login"), StrKey("first_name"), StrKey("last_name"), StrKey("mail")]
      && UniqueKeys(explicit)
      && Get(explicit, StrKey("login")) == Some(Str(login))
      && Get(explicit, StrKey("first_name")) == Some(Str(firstName))
      && Get(explicit, StrKey("last_name")) == Some(Str(lastName))
      && Get(explicit, StrKey("mail")) == Some(Str(email))
  {
    var explicit := ExplicitFields(login, firstName, lastName, email);
    assert Keys(explicit) == [StrKey("login"), StrKey("first_name"), StrKey("last_name"), StrKey("mail")];
    GetAt(explicit, 0);
    GetAt(explicit, 1);
    GetAt(explicit, 2);
    GetAt(explicit, 3);
  }

  /**
   * The explicit arguments win over same-named keys of the data; every other
   * key is what sanitising kept. The explicit fields come first.
   */
  lemma CreateUserFields(login: string, firstName: string, lastName: string, email: string,
                         data: OMap<Key, Value>, k: Key)
    ensures var explicit := ExplicitFields(login, firstName, lastName, email);
      var user := CreateUser(login, firstName, lastName, email, data);
      && |explicit| <= |user| && user[..|explicit|] == explicit
      && Get(user, StrKey("login")) == Some(Str(login))
      && Get(user, StrKey("first_name")) == Some(Str(firstName))
      && Get(user, StrKey("last_name")) == Some(Str(lastName))
      && Get(user, StrKey("mail")) == Some(Str(email))
      && (k !in Keys(explicit) ==> Get(user, k) == KeptValue(data, PermittedFields, k))
      && UniqueKeys(user)
  {
    var explicit := ExplicitFields(login, firstName, lastName, email);
    var sanitized := SanitizedData(data, PermittedFields);
    ExplicitFieldsLookup(login, firstName, lastName, email);
    UnionProperties(explicit, sanitized);
    WhitelistedGet(data, PermittedFields, k);
  }

  /**
   * `firstname` and `lastname` are the whitelisted names, so caller values
   * under them travel beside the explicit `first_name` and `last_name`.
   */
  lemma CreateKeepsWhitelistedNames(login: string, firstName: string, lastName: string, email: string,
                                    data: OMap<Key, Value>, v: Value)
    requires Get(data, StrKey("firstname")) == Some(v) && v != Null
    ensures Get(CreateUser(login, firstName, lastName, email, data), StrKey("firstname")) == Some(v)
    ensures Get(CreateUser(login, firstName, lastName, email, data), StrKey("first_name")) == Some(Str(firstName))
  {
    var explicit := ExplicitFields(login, firstName, lastName, email);
    assert StrKey("firstname") !in Keys(explicit) by {
      ExplicitFieldsLookup(login, firstName, lastName, email);
      assert |"firstname"| == 9;
    }
    assert KeptValue(data, PermittedFields, StrKey("firstname")) == Some(v) by {
      PermittedFieldsShape();
    }
    CreateUserFields(login, firstName, lastName, email, data, StrKey("firstname"));
  }

  /** update: PUT the sanitised data itself, without a `user` wrapper. */
  function UpdateRequest(id: int, data: OMap<Key, Value>): (r: Request)
    ensures r.HttpPut? && r.uri == "/users/" + IntToString(id) + ".json"
  {
    HttpPut("/users/" + IntToString(id) + ".json", SanitizedData(data, PermittedFields))
  }

  /** The update body holds exactly the kept caller fields; a `user` key never survives. */
  lemma UpdateBody(id: int, data: OMap<Key, Value>, k: Key)
    ensures Get(UpdateRequest(id, data).body, k) == KeptValue(data, PermittedFields, k)
    ensures StrKey("user") !in Keys(UpdateRequest(id, data).body)
  {
    var body := SanitizedData(data, PermittedFields);
    assert UpdateRequest(id, data).body == body;
    PermittedFieldsShape();
    WhitelistedGet(data, PermittedFields, k);
    WhitelistedGet(data, PermittedFields, StrKey("user"));
  }

  /** The whitelist has 9 fields, admits firstname and lastname, and never the `user` wrapper. */
  lemma PermittedFieldsShape()
    ensures |PermittedFields| == 9
    ensures "firstname" in PermittedFields && "lastname" in PermittedFields
    ensures "user" !in PermittedFields
  {
    assert PermittedFields[2] == "firstname" && PermittedFields[3] == "lastname";
    AbsentByShape("user", PermittedFields);
  }
}
