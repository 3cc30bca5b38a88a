/**
 * The facade: a client holding the base URL and API key, and a cache of
 * resource instances keyed by the lower-cased resource name, filled on first
 * access and never emptied.
 */
module Registry {
  import opened Wrappers
  import opened PhpValue
  import opened Errors

  /** The concrete classes of the Resources namespace. */
  datatype ResourceKind =
    | Attachment | CustomField | Enumeration | File | Group | Issue | IssueCategory
    | IssueRelation | IssueStatus | News | Project | ProjectMembership | Query | Role
    | TimeEntry | Tracker | User | Version | Wiki

  /** What a class lookup finds for a name; PHP resolves class names case-insensitively. */
  datatype Lookup = Concrete(kind: ResourceKind) | AbstractClass | NoClass

  /** `class_exists` on the resource name, with the name already lower-cased. */
  function Classify(lower: string): Lookup
  {
    match lower
    case "attachment" => Concrete(Attachment)
    case "customfield" => Concrete(CustomField)
    case "enumeration" => Concrete(Enumeration)
    case "file" => Concrete(File)
    case "group" => Concrete(Group)
    case "issue" => Concrete(Issue)
    case "issuecategory" => Concrete(IssueCategory)
    case "issuerelation" => Concrete(IssueRelation)
    case "issuestatus" => Concrete(IssueStatus)
    case "news" => Concrete(News)
    case "project" => Concrete(Project)
    case "projectmembership" => Concrete(ProjectMembership)
    case "query" => Concrete(Query)
    case "role" => Concrete(Role)
    case "timeentry" => Concrete(TimeEntry)
    case "tracker" => Concrete(Tracker)
    case "user" => Concrete(User)
    case "version" => Concrete(Version)
    case "wiki" => Concrete(Wiki)
    case "abstractresource" => AbstractClass
    case _ => NoClass
  }

  const AbstractInstantiationMessage := "Cannot instantiate abstract class"

  /** A resource object: its kind and the configuration its constructor received. */
  class ResourceInstance {
    const kind: ResourceKind
    const baseUrl: string
    const apiKey: string

    constructor (kind: ResourceKind, baseUrl: string, apiKey: string)
      ensures this.kind == kind && this.baseUrl == baseUrl && this.apiKey == apiKey
    {
      this.kind := kind;
      this.baseUrl := baseUrl;
      this.apiKey := apiKey;
    }
  }

  class RedmineClient {
    var baseUrl: string
    var apiKey: string
    var resources: map<string, ResourceInstance>

    /**
     * Every cached key is a lower-cased class name, and the instance stored
     * under it is of that class and carries the client's configuration.
     */
    ghost predicate Valid()
      reads this
    {
      forall key :: key in resources ==>
        && ToLower(key) == key
        && Classify(key) == Concrete(resources[key].kind)
        && resources[key].baseUrl == baseUrl
        && resources[key].apiKey == apiKey
    }

    constructor (baseUrl: string, apiKey: string)
      ensures Valid()
      ensures this.baseUrl == baseUrl && this.apiKey == apiKey && resources == map[]
    {
      this.baseUrl := baseUrl;
      this.apiKey := apiKey;
      resources := map[];
    }

    /**
     * resource($name): a cached instance is returned as it is; otherwise a
     * known class gets exactly one new instance, stored under the lower-cased
     * name. A name without a class, or one naming the abstract base, changes
     * nothing.
     */
    method Resource(name: string) returns (r: Result<ResourceInstance, Error>)
      requires Valid()
      modifies this
      ensures Valid()
      ensures baseUrl == old(baseUrl) && apiKey == old(apiKey)
      ensures forall key :: key in old(resources) ==> key in resources && resources[key] == old(resources)[key]
      ensures var key := ToLower(name);
        if key in old(resources) then
          r == Success(old(resources)[key]) && resources == old(resources)
        else match Classify(key)
          case Concrete(kind) =>
            && r.Success? && fresh(r.value)
            && r.value.kind == kind && r.value.baseUrl == baseUrl && r.value.apiKey == apiKey
            && resources == old(resources)[key := r.value]
          case AbstractClass =>
            r == Failure(EngineError(AbstractInstantiationMessage)) && resources == old(resources)
          case NoClass =>
            r == Failure(BadResource) && resources == old(resources)
    {
      var lowerCaseName := ToLower(name);
      if lowerCaseName in resources {
        return Success(resources[lowerCaseName]);
      }
      match Classify(lowerCaseName)
      case NoClass =>
        return Failure(BadResource);
      case AbstractClass =>
        return Failure(EngineError(AbstractInstantiationMessage));
      case Concrete(kind) =>
        var instance := new ResourceInstance(kind, baseUrl, apiKey);
        ToLowerIdempotent(name);
        resources := resources[lowerCaseName := instance];
        return Success(instance);
    }
  }

  /** Two names that differ only in case reach the same instance, constructed once. */
  method SameInstanceForCaseVariants(client: RedmineClient, a: string, b: string)
    returns (first: Result<ResourceInstance, Error>, second: Result<ResourceInstance, Error>)
    requires client.Valid() && ToLower(a) == ToLower(b)
    modifies client
    ensures client.Valid()
    ensures first == second
    ensures first.Success? ==> ToLower(a) in client.resources && client.resources[ToLower(a)] == first.value
  {
    first := client.Resource(a);
    second := client.Resource(b);
  }
}
