# A model of the Redmine REST client's data shaping

`mcmatters/redmine-api` is a thin PHP client for the Redmine REST API. Most of it
forwards calls to Guzzle. Around that plumbing a small amount of deterministic
logic decides what is sent and what comes back, and this project models that logic
and proves its properties in Dafny:

- Every resource shares a base, `AbstractResource`. It flattens query
  parameters (`buildQueryParameters`) and whitelists write payloads
  (`sanitizeData`). It parses response bodies (`parseJson`) and turns every failure
  into a `RequestException`, whose message and code it picks out.
- The stand-alone HTTP client (`Http\Client`) does a few things of its own:
  - it normalises the base URI;
  - `prepareRequestParameters` flattens the values of the caller's query.
    `get` and `delete` pass it the query array itself, so the outer keys are dropped
    and a flat query of scalars collapses onto key 0;
  - it parses responses outside its `try` blocks;
  - its `delete` status test can never succeed;
  - `upload` merges its headers with an octet-stream content type.
- `DataGetter::getDataByKey` unwraps a response envelope by key.
- `RedmineClient::resource` keeps a lazy cache of resource instances, keyed by the
  lower-cased resource name.
- The resources with real payload logic:
  - Issue: the field whitelists of create and update, the `addNote` and
    `updateStatus` shorthands, and the system-note filter of `getNotes`;
  - User: the id check, and the explicit fields merged with `+` over the
    sanitised data;
  - TimeEntry: the check on the referencing type, and the `{type}_id` key;
  - Project: the list query, and `name`/`identifier` merged over the data
    before sanitising;
  - Version and IssueCategory: bodies passed through `array_filter`, the update
    whitelist, and a delete that drops its query.

PHP arrays are ordered maps (`OrderedMap.OMap`), a sequence of key/value pairs:

- `Get` finds the first pair with the key.
- Assignment (`Put`) replaces a value in place, or appends a new key at the end.
- `Union` is PHP's `+`: the left operand's keys win, and the right operand's other
  keys are appended.
- `Unset` removes a key.

PHP values (`PhpValue.Value`) are null, booleans, integers, strings and arrays.
`PhpValue` also defines PHP's truthiness (`""` and `"0"` are false), the `(string)`
cast, `implode`, `trim` with its default character list, `strtolower` and
`array_filter`.

`urlencode` and `json_decode` are foreign library functions. Every operation that
needs them takes them as a function-valued parameter (`Query.Encoder`,
`Json.Decoder`), so each property holds for any encoder and any decoder. Performing
an HTTP request is left outside the model, in two parts:

- An operation's outgoing side is a function that returns the `Http.Request` it
  would issue: verb, URI, and the encoded query or the JSON body.
- Its incoming side takes the outcome of the transport as an input
  (`Http.Transport`): a status and a body, or a thrown `Errors.Throwable`.

Where the code differs from the project's documentation, the model follows the code
as written. Where the code is evidently wrong (see "## Findings"), the model has both
the as-written member and a separately named corrected one. The differences:

- `getErrorMessage` falls back with `?:`, which treats a body of `"0"` as empty.
  Such a body therefore yields the throwable's own message
  (`AbstractResource.GetErrorMessage`).
- The HTTP client passes `getCode()` through unclamped (`HttpClient.Send`). Only
  the resource base clamps codes to 400..599.
- `Version::create` sends its body with PUT, not POST (`Version.CreateRequest`).
- An `assigned_to_id` of 0 is falsy, so `array_filter` drops it from an issue
  category's create body along with null (`IssueCategory.CreateBody`).
- `Project::update` and `Project::delete` use the relative URI `projects/{id}.json`
  (`Project.UpdateRequest`).
- The client's `delete` reports `false` for every status (`HttpClient.Delete`).
  This is stated and proved as the code behaves, not corrected.

## Model

| member | source | states |
|---|---|---|
| OrderedMap.PutGet | src/Resources/AbstractResource.php:190 | After assigning `$a[k] = v`, reading k gives v. Every other key reads as before. |
| OrderedMap.PutAbsent | src/Resources/AbstractResource.php:190 | Assigning a key the array lacks appends the pair at the end. |
| OrderedMap.PutKeepsUniqueKeys | src/Resources/AbstractResource.php:161 | Assignment never creates a second pair with the same key. |
| OrderedMap.UnionProperties | src/Resources/User.php:87-93 | PHP `a + b`: `a` is an unchanged prefix of the result. A key of `a` reads as in `a`, any other key as in `b`. Distinct keys stay distinct. |
| OrderedMap.UnsetConcat | src/Resources/Issue.php:211 | `unset` distributes over concatenation: it removes the key's pairs from each part and keeps the order. |
| PhpValue.ArrayFilterGet | src/Resources/Version.php:65-71 | `array_filter` keeps a key exactly when its value is truthy, with the value unchanged. |
| PhpValue.TrimEmptyIffBlank | src/Resources/AbstractResource.php:135-137 | `trim(s) === ''` exactly when s consists of space, tab, LF, CR, NUL and vertical tab only. |
| PhpValue.ToLowerIdempotent | src/RedmineClient.php:59 | `strtolower` of a lower-cased name changes nothing. |
| Query.PutAllGet | src/Resources/AbstractResource.php:160-165 | After one group is assigned, a key it contains holds the encoded value of its last occurrence there. Other keys keep their earlier value. |
| Query.FlattenedLastWins | src/Resources/AbstractResource.php:159-165 | A key holds the encoded value from the last group that contains it: arrays comma-joined, scalars cast to string. |
| Query.FlattenedKeys | src/Resources/AbstractResource.php:157-169 | The result's keys are all groups' keys, each once, in the order of first occurrence. |
| Query.FlattenedKeySet | src/Resources/AbstractResource.php:157-169 | The result has distinct keys. A key is in it exactly when some group has that key. |
| AbstractResource.ResourceConfig | src/Resources/AbstractResource.php:33-42 | The resource's own Guzzle client gets the base URL as given, the API key header and a JSON content type. |
| AbstractResource.BuildQueryParametersAsWritten | src/Resources/AbstractResource.php:155-170 | The nested loops as written compute the flattened query. Under strict types they fail with a TypeError exactly when some value is a non-string scalar. |
| AbstractResource.BuildQueryParameters | src/Resources/AbstractResource.php:155-170 | The nested loops with each scalar cast to string compute exactly the flattened query of the groups. |
| AbstractResource.DefaultPaginationRejectedAsWritten | src/Resources/AbstractResource.php:161-165 | As written, the default pagination `offset => 0` alone makes query building throw a TypeError. |
| AbstractResource.DefaultPaginationFlattened | src/Resources/AbstractResource.php:161-165 | With the cast, the default pagination becomes the query `offset=0&limit=25`, in that order. |
| AbstractResource.SanitizedData | src/Resources/AbstractResource.php:182-184 | An empty whitelist returns the data unchanged. |
| AbstractResource.SanitizeData | src/Resources/AbstractResource.php:178-195 | The whitelist loop that assigns into `$values` computes the sanitised data. |
| AbstractResource.WhitelistedGet | src/Resources/AbstractResource.php:186-194 | A key survives exactly when it is a whitelisted name present with a non-null value, and it keeps the input's value. |
| AbstractResource.WhitelistedKeys | src/Resources/AbstractResource.php:186-194 | The surviving keys appear in whitelist order, each once. |
| AbstractResource.WhitelistedOfEmpty | src/Resources/AbstractResource.php:186-194 | Sanitising an empty array by any whitelist gives an empty array. |
| AbstractResource.WhitelistedSingle | src/Resources/AbstractResource.php:186-194 | A one-field array keeps its field exactly when the whitelist names it. |
| AbstractResource.WhitelistedTwo | src/Resources/AbstractResource.php:186-194 | With a two-field whitelist whose fields are present and non-null, both are kept with their values, in whitelist order. |
| AbstractResource.SanitizeExample | src/Resources/AbstractResource.php:178-195 | `sanitizeData(['a'=>x,'b'=>y,'c'=>z], ['a','b'])` is `['a'=>x,'b'=>y]` when x and y are not null. |
| AbstractResource.GetErrorMessage | src/Resources/AbstractResource.php:216-231 | The message is the upstream response body when that can be read and is truthy. Otherwise it is the throwable's own message. |
| AbstractResource.GetErrorCode | src/Resources/AbstractResource.php:238-247 | The code always lies in 400..599. `getStatusCode()` is preferred over `getCode()` when it exists. The chosen code is kept when it lies in 400..599, and any other becomes 500, whether it came from the status or from `getCode()`. |
| AbstractResource.ErrorCodeExamples | src/Resources/AbstractResource.php:238-247 | Status 404 stays 404 whatever `getCode()` says. Status 999 reports 500. Without a status, `getCode()` values 0, 302 and 1000 report 500, and 503 is kept. |
| AbstractResource.ThrowRequestException | src/Resources/AbstractResource.php:202-208 | Every caught throwable becomes a RequestException with a code in 400..599 and the message `getErrorMessage` picks (see GetErrorMessage and GetErrorCode). |
| AbstractResource.Send | src/Resources/AbstractResource.php:52-66 | Every failure is a RequestException with a code in 400..599. A thrown error is wrapped, and a parsable body is returned as parsed. |
| AbstractResource.DecodeFailureIsRequestError | src/Resources/AbstractResource.php:54-65 | parseJson runs inside the `try`, so a body that does not decode surfaces as a RequestException with the decoder's message and code 500. |
| AbstractResource.BlankBodyIsEmpty | src/Resources/AbstractResource.php:135-139 | A blank body yields an empty array, whatever the decoder would say. |
| AbstractResource.RequestDelete | src/Resources/AbstractResource.php:116-125 | requestDelete returns the status code, or the RequestException built from what was thrown. |
| Json.ParseBody | src/Resources/AbstractResource.php:133-148 | A blank body is `[]`. A decoder failure is a ResponseException with its message. A decoded array is returned, and a decoded scalar breaks the `array` return type. |
| HttpClient.RTrimSlash | src/Http/Client.php:38 | `rtrim($s, '/')` is the longest prefix of s that does not end in `/`; everything it strips is a slash. |
| HttpClient.BaseUri | src/Http/Client.php:38 | The base URI ends in exactly one `/` and otherwise agrees with the given URL. |
| HttpClient.BaseUriIdempotent | src/Http/Client.php:38 | Normalising an already normalised base URI changes nothing. |
| HttpClient.NewClient | src/Http/Client.php:35-44 | The constructor configures the normalised base URI, the API key header and a JSON content type. |
| HttpClient.PrepareRequestParameters | src/Http/Client.php:190-205 | Over the values of the caller's query array, the double loop computes the flattened query: last write wins, arrays comma-joined, scalars cast to string. The outer keys take no part. |
| HttpClient.FlatQueryCollapses | src/Http/Client.php:194-200 | A non-empty flat query of scalars loses its names. Each value is `(array)`-cast to `[0 => value]`, so the only key sent is 0, holding the last value encoded. |
| HttpClient.FlatQueryExample | src/Http/Client.php:59 | `get($uri, ['limit' => 25, 'offset' => 0])` sends only `0 => urlencode('0')`. |
| HttpClient.ParseResponse | src/Http/Client.php:213-228 | A blank body is `[]`. A decoder failure is a ResponseException carrying the decoder's message. A decoded array is returned as it is. Any other failure is the return-type error. |
| HttpClient.Send | src/Http/Client.php:54-72 | A throwable becomes a RequestException with the same message and code. A body is parsed outside the `try`. |
| HttpClient.SendKeepsCodeAndDecoderError | src/Http/Client.php:63-71 | The code is not clamped. A decoding failure stays a ResponseException and is not wrapped. |
| HttpClient.Delete | src/Http/Client.php:131-149 | A thrown error becomes a RequestException with the same message and code. A response always yields a boolean. |
| HttpClient.DeleteNeverReportsSuccess | src/Http/Client.php:139-141 | `status <= 200 && status > 400` holds for no status, so delete never reports `true`. |
| HttpClient.Upload | src/Http/Client.php:159-171 | The content travels as the `json` option. Content-Type becomes `application/octet-stream`, every other header is unchanged, and no header is added when Content-Type was already configured. |
| HttpClient.UploadHeadersFromConstructor | src/Http/Client.php:166-169 | Over the headers the constructor configures, the merge keeps the API key and replaces Content-Type in place with the octet-stream type. |
| DataGetter.GetDataByKey | src/Resources/Traits/DataGetter.php:26-35 | The call succeeds exactly when the key exists (null values included). It then returns the stored value, and otherwise fails with `Response doesn't contain '<key>'`. |
| DataGetter.GetDataByKeyFindsEntry | src/Resources/Traits/DataGetter.php:28-34 | In a PHP array (distinct keys), the result is the value stored under the key. |
| DataGetter.GetDataByKeyExamples | src/Resources/Traits/DataGetter.php:28-34 | An `issue` envelope is unwrapped, a null under the key is returned as null, and an empty response is rejected with the exact message. |
| Registry.ResourceInstance.constructor | src/RedmineClient.php:73-76 | A resource instance receives the client's base URL and API key. |
| Registry.RedmineClient.constructor | src/RedmineClient.php:45-49 | The client stores the base URL and API key, and starts with an empty cache. |
| Registry.RedmineClient.Resource | src/RedmineClient.php:57-79 | A hit returns the cached instance and changes nothing. A miss on a known class constructs one fresh instance with the client's configuration and adds it under the lower-cased name. An unknown name raises BadResourceException, and the abstract base an engine error, both leaving the cache unchanged. |
| Registry.SameInstanceForCaseVariants | src/RedmineClient.php:59-62 | Two names that differ only in case reach the same instance. |
| Issue.PermittedFieldsShape | src/Resources/Issue.php:176-198 | The create list has the 14 base fields. The update list is those followed by `notes` and `private_notes`, which the create list lacks. |
| Issue.CreateRequest | src/Resources/Issue.php:68-73 | create is a POST to `/issues.json`. |
| Issue.CreateBody | src/Resources/Issue.php:68-72 | The create body is `{issue: …}`, holding exactly the kept base fields with their values. |
| Issue.CreateDropsNotes | src/Resources/Issue.php:68-72 | `notes` and `private_notes` never survive create. |
| Issue.UpdateRequest | src/Resources/Issue.php:83-88 | update is a PUT to `/issues/{id}.json`. |
| Issue.UpdateBody | src/Resources/Issue.php:83-87 | For all data, the update body is `{issue: …}`, holding exactly the kept update fields with their values, notes and private notes included. |
| Issue.UpdateKeepsNotes | src/Resources/Issue.php:83-87 | The update body is `{issue: …}` and carries a non-null note given in the data. |
| Issue.AddNoteRequest | src/Resources/Issue.php:125-128 | addNote is an update, a PUT to the issue's URI; AddNoteBody states its exact body. |
| Issue.UpdateStatusRequest | src/Resources/Issue.php:137-140 | updateStatus is an update, a PUT to the issue's URI; UpdateStatusBody states its exact body. |
| Issue.AddNoteBody | src/Resources/Issue.php:125-128 | addNote sends exactly `{issue: {notes: note}}` to the issue's URI. |
| Issue.UpdateStatusBody | src/Resources/Issue.php:137-140 | updateStatus sends exactly `{issue: {status_id: statusId}}` to the issue's URI. |
| Issue.SurvivingMembers | src/Resources/Issue.php:207-212 | An entry survives exactly when its trimmed note is not empty. |
| Issue.SurvivingConcat | src/Resources/Issue.php:207-212 | Survivors keep their relative order, because the filter distributes over concatenation. |
| Issue.FirstErrorMeaning | src/Resources/Issue.php:208 | The filter fails exactly when some entry's note cannot be read or trimmed, and then with that entry's error. |
| Issue.FilterSystemNotes | src/Resources/Issue.php:205-216 | The loop that unsets entries of `$notes` in place, then re-indexes, computes the specified filter. |
| Issue.FilterExample | src/Resources/Issue.php:205-215 | Of a blank, a missing and a written note only the written one survives. It moves to index 0 with its entry unmodified. |
| Issue.NotesRequest | src/Resources/Issue.php:111 | getNotes fetches the issue with a GET of its URI; NotesRequestQuery states the query. |
| Issue.GetNotes | src/Resources/Issue.php:109-116 | A throwable during the fetch becomes that RequestException, and there is a result only when the fetch succeeded; GetNotesJournals and GetNotesFetchError state the rest. |
| Issue.NotesRequestQuery | src/Resources/Issue.php:111 | getNotes asks for the issue with `include=journals` and nothing else. |
| Issue.GetNotesJournals | src/Resources/Issue.php:109-116 | Without skipping, `issue.journals` comes back as received. With skipping, it comes back filtered. |
| Issue.GetNotesFetchError | src/Resources/Issue.php:109-111 | A failed fetch fails getNotes with the same error. |
| User.CheckId | src/Resources/User.php:151-156 | An id passes exactly when it is an integer or the string `"current"`. Anything else raises InvalidArgumentException. |
| User.GetRequest | src/Resources/User.php:43-51 | get fails exactly when the id check fails, before any request is built. |
| User.GetCurrentRequest | src/Resources/User.php:60-63 | getCurrent always succeeds with a GET of `/users/current.json`; GetCurrentPassesCheck states the whole request. |
| User.GetCurrentPassesCheck | src/Resources/User.php:60-63 | getCurrent is get with `"current"` and always asks for `/users/current.json`. |
| User.GetByIntegerId | src/Resources/User.php:43-48 | Any integer id passes and is written in decimal into the URI. |
| User.CreateRequest | src/Resources/User.php:77-98 | create is a POST to `/users.json` with body keys `user` and then `send_information`, the latter being the notification flag. |
| User.CreateUserFields | src/Resources/User.php:85-93 | The explicit login, first_name, last_name and mail come first and win over the data. Every other key is what sanitising kept. |
| User.CreateKeepsWhitelistedNames | src/Resources/User.php:85-93 | A caller's `firstname` is whitelisted and travels beside the explicit `first_name`. |
| User.UpdateRequest | src/Resources/User.php:108-114 | update is a PUT to `/users/{id}.json`. |
| User.UpdateBody | src/Resources/User.php:110-113 | The update body is the sanitised data itself, without a `user` wrapper. |
| User.PermittedFieldsShape | src/Resources/User.php:131-144 | The whitelist has nine fields, among them `firstname` and `lastname`, and not `user`. |
| TimeEntry.CheckReferencingType | src/Resources/TimeEntry.php:133-138 | The type passes exactly when it is `issue` or `project` (strict comparison). Anything else raises InvalidArgumentException. |
| TimeEntry.CreateRequest | src/Resources/TimeEntry.php:66-84 | create fails exactly when the type check fails, before anything is sanitised or sent. Otherwise it posts `{time_entry: …}`. |
| TimeEntry.CreateEntryFields | src/Resources/TimeEntry.php:74-81 | The explicit `<type>_id` and `hours` come first and win over the data. Every other key is what sanitising kept. |
| TimeEntry.ProjectEntryKeepsIssueId | src/Resources/TimeEntry.php:76-81 | An entry referenced by project carries `project_id` and still any whitelisted `issue_id` of the data. |
| TimeEntry.CreateDefaults | src/Resources/TimeEntry.php:66-81 | With the default type `issue` and no data, create posts exactly `{time_entry: {issue_id: id, hours: hours}}`. |
| TimeEntry.CreateRejectsOtherTypes | src/Resources/TimeEntry.php:72 | `user` and `Issue` are refused whatever the other arguments. |
| TimeEntry.UpdateRequest | src/Resources/TimeEntry.php:94-99 | update is a PUT to `/time_entries/{id}.json`. |
| TimeEntry.UpdateBody | src/Resources/TimeEntry.php:94-98 | The update body is the sanitised data itself, without a `time_entry` wrapper. |
| TimeEntry.PermittedFieldsShape | src/Resources/TimeEntry.php:116-126 | The whitelist has six fields, among them `issue_id`, and not `time_entry`. |
| Project.ListRequest | src/Resources/Project.php:22-32 | As written, list fails with urlencode's TypeError before any request exactly when some pagination value is neither a string nor an array. Otherwise it is the GET of the version with the cast. |
| Project.ListEncodable | src/Resources/Project.php:26-29 | The include group is always encodable, so only the pagination decides whether the query building throws. |
| Project.ListRequestWithCast | src/Resources/Project.php:22-32 | With the cast, list is a GET of `/projects.json`. Its query is the pagination group followed by `['include' => includes]`. |
| Project.ListStringPagination | src/Resources/Project.php:23-29 | A pagination given as strings passes the as-written query building. |
| Project.ListIncludeWins | src/Resources/Project.php:26-29 | In the query with the cast, the include group comes last, so its value overwrites an `include` key in the pagination. |
| Project.ListPaginationKeys | src/Resources/Project.php:26-29 | Every other key carries the encoded value of its last occurrence in the pagination. |
| Project.ListDefault | src/Resources/Project.php:22-29 | With the cast, the default call sends offset 0, limit 25 and an empty include, in that order. |
| Project.ListDefaultRejectedAsWritten | src/Resources/Project.php:23-29 | As written, list with its default pagination fails with urlencode's TypeError before any request is made. |
| Project.CreateRequest | src/Resources/Project.php:57-68 | create is a POST to `/projects.json` whose body has the single key `project`. |
| Project.MergedLookup | src/Resources/Project.php:63 | In the merge, the explicit name and identifier override the data. Every other key comes from the data. |
| Project.CreateProjectFields | src/Resources/Project.php:62-65 | The project always holds the explicit name and identifier. Every other key is a whitelisted, non-null value of the data. |
| Project.UpdateRequest | src/Resources/Project.php:77-82 | update is a PUT to the relative URI `projects/{id}.json`. |
| Project.UpdateBody | src/Resources/Project.php:79-81 | The update body is the sanitised data itself, without a `project` wrapper. |
| Project.PermittedFieldsShape | src/Resources/Project.php:98-111 | The whitelist has nine fields, among them `name` and `identifier`, and not `project`. |
| Version.CreateRequest | src/Resources/Version.php:54-74 | create sends a PUT to `/projects/{projectId}/versions.json` whose body has the single key `version`. |
| Version.UpdateRequest | src/Resources/Version.php:88-108 | update sends a PUT to `/versions/{id}.json` whose body has the single key `version`. |
| Version.FieldsUnique | src/Resources/Version.php:65-71 | The five fields are name, status, sharing, due_date and description, in that order, with distinct keys. |
| Version.BodyFields | src/Resources/Version.php:65-71 | Each field is present exactly when its value is truthy, and then unchanged. The due date is cast with `(string)`. |
| Version.NullsDropped | src/Resources/Version.php:69-70 | A null description and a null due date (cast to `''`) never reach the request. |
| Version.ZeroNameDropped | src/Resources/Version.php:66 | A name of `"0"` is dropped like an empty one. |
| Version.DefaultsBody | src/Resources/Version.php:57-58 | With the defaults, the `version` object has status `open` and sharing `none`. It has the name when that is truthy, and no due date or description. |
| Version.SameBody | src/Resources/Version.php:65-71 | Given the same field arguments, create and update send the same body. |
| IssueCategory.ListRequest | src/Resources/IssueCategory.php:26-34 | As written, list fails with urlencode's TypeError before any request exactly when some pagination value is neither a string nor an array. Otherwise it is the GET of the version with the cast. |
| IssueCategory.ListRequestWithCast | src/Resources/IssueCategory.php:26-34 | With the cast, list is a GET of `/projects/{projectId}/issue_categories.json` whose only query group is the pagination. |
| IssueCategory.ListQueryValues | src/Resources/IssueCategory.php:30-33 | With the cast, each pagination key is sent with the encoded value of its last occurrence, and no other key is sent. |
| IssueCategory.ListDefault | src/Resources/IssueCategory.php:28-32 | With the cast, the default sends `offset=0&limit=25`. |
| IssueCategory.ListDefaultRejectedAsWritten | src/Resources/IssueCategory.php:28-32 | As written, list with its default pagination fails with urlencode's TypeError before any request is made. |
| IssueCategory.CreateRequest | src/Resources/IssueCategory.php:57-71 | create is a POST to the project's category URI whose body has the single key `issue_category`. |
| IssueCategory.CreateBody | src/Resources/IssueCategory.php:64-69 | The category holds the name exactly when it is truthy. It holds the assignee exactly when one is given and is not 0, so a null assignee is omitted. |
| IssueCategory.UpdateRequest | src/Resources/IssueCategory.php:81-87 | update is a PUT to `/issue_categories/{id}.json`. |
| IssueCategory.UpdateBody | src/Resources/IssueCategory.php:83-86 | The update body holds exactly the non-null `name` and `assigned_to_id` of the data, and nothing else. |
| IssueCategory.DeleteRequest | src/Resources/IssueCategory.php:97-103 | delete issues a DELETE of `/issue_categories/{id}.json` with no query. |
| IssueCategory.DeleteIgnoresReassign | src/Resources/IssueCategory.php:99-102 | requestDelete takes only the URI, so whatever reassignment target is given, the same request goes out. |

## Left out

- HTTP transport (Guzzle calls, connections, timeouts, the headers actually sent): an operation is modelled as the request it issues plus a function of the transport's outcome, which is an input.
- Headers Guzzle adds to its configuration on its own, such as `User-Agent`: `getConfig('headers')` in `upload` returns them too. HttpClient.Upload states the merge for any configured headers, and HttpClient.UploadHeadersFromConstructor only over the two the constructor sets.
- The internals of `urlencode` and `json_decode`: both are parameters of the operations that use them, so every property holds for any such function.
- Floating-point values: `Value` has no float, so the `hours` of a time entry is an arbitrary value the model only passes along. `(string)` of a float is not modelled.
- PHP's conversion of numeric-string keys such as `"5"` to integer keys: `Key` keeps integer and string keys apart as given.
- The exact texts of engine errors (TypeError, Error): the model uses one fixed message per kind. For example, reading `issue.journals` from a non-array gives a single "must be of type array" error whatever the PHP version would print.
- Class autoloading and filesystem case sensitivity in `RedmineClient::resource`: class lookup is case-insensitive over the fixed set of classes in `src/Resources`.
- The nested whitelist of `Wiki` and the resources Group, File, Attachment and CustomField: they call the raw Guzzle client directly and rely on a trait the base class does not use. Their behaviour is not a stable contract.
- Resources that are only URI templates (Enumeration, News, Role, IssueStatus, Tracker, IssueRelation, ProjectMembership, Query).
- Operations of the modelled resources whose only logic is a URI template, each a plain call of requestGet or requestDelete:
  - Issue: `list`, `get`, `delete`, `addWatcher`, `removeWatcher`;
  - User: `list`, `delete`;
  - TimeEntry: `list`, `get`, `delete`;
  - Project: `get`, `delete`;
  - Version: `list`, `get`, `delete`;
  - IssueCategory: `get`.

  Their query building is covered by `Query.Flattened` and `AbstractResource.BuildQueryParameters`, and their responses by `AbstractResource.Send` and `AbstractResource.RequestDelete`.
- Issue.FilterSystemNotes: requires distinct keys in the journal list, which every PHP array has. The semantics assumed for a non-array journal entry are PHP 8's:
  - null and false become an array and count as system notes;
  - any other scalar raises an Error;
  - a note that is neither a string nor null raises trim's TypeError.
- Registry.RedmineClient.Resource: the HTTP client the registry stores but never uses is not modelled.

## Findings

| source | as written | input that shows it | evidently intended | confidence | as-written member | corrected member |
|---|---|---|---|---|---|---|
| src/Resources/AbstractResource.php:161-165 | The file declares `strict_types`, and `urlencode` is called on a non-array value without a cast, so an integer value raises a TypeError. | The default pagination `['offset' => 0, 'limit' => 25]` of `Project::list`, `IssueCategory::list`, `Issue::list` and `TimeEntry::list` | Cast each scalar to string before encoding, as `prepareRequestParameters` in src/Http/Client.php:196-200 does | not executed | AbstractResource.DefaultPaginationRejectedAsWritten | AbstractResource.DefaultPaginationFlattened |
