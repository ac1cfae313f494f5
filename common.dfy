/** Values shared by the distillers and the indexing worker: optional values,
    the JSON-like values a document maps its keys to, the exceptions the
    distillers raise, and HTTP responses as the distillers see them. */
module Common {

  datatype Option<+T> = None | Some(value: T) {
    function GetOr(default: T): T {
      match this
      case Some(v) => v
      case None => default
    }
  }

  /** A value stored under one key of an index document. Timestamps are
      opaque, totally ordered instants. */
  datatype Value =
    | Str(s: string)
    | Num(n: int)
    | Flag(b: bool)
    | Strs(items: seq<string>)
    | Time(t: int)

  /** The field names the distillers put in documents. */
  datatype Key =
    | Url | Blob | LocalId | Title | Excerpt | Subject | Status | Queue | Priority
    | RealName | Email | LastUpdated | CustomerVisible | Category | PublicBlob
    | LastContact | CustomerId | CustomerName | CustomerUrl | Customer
    | FunctionalUrl | PrimaryContacts | BillingContacts | TechnicalContacts
  {
    /** The name the field has in the index. */
    function Name(): string {
      match this
      case Url => "url"
      case Blob => "blob"
      case LocalId => "local_id"
      case Title => "title"
      case Excerpt => "excerpt"
      case Subject => "subject"
      case Status => "status"
      case Queue => "queue"
      case Priority => "priority"
      case RealName => "realname"
      case Email => "email"
      case LastUpdated => "last_updated"
      case CustomerVisible => "customer_visible"
      case Category => "category"
      case PublicBlob => "public_blob"
      case LastContact => "last_contact"
      case CustomerId => "customer_id"
      case CustomerName => "customer_name"
      case CustomerUrl => "customer_url"
      case Customer => "customer"
      case FunctionalUrl => "functional_url"
      case PrimaryContacts => "primary_contacts"
      case BillingContacts => "billing_contacts"
      case TechnicalContacts => "technical_contacts"
    }
  }

  /** An index document: a dictionary from field to value. */
  type Document = map<Key, Value>

  /** The Python exceptions the modelled code raises. */
  datatype Error = ValueError | RuntimeError | KeyError

  /** What one run of a distiller's document generator amounts to: it either
      raised, or it finished after yielding the given documents. */
  datatype Outcome = Raised(error: Error) | Yielded(docs: seq<Document>)

  /** An HTTP response: its status code and its decoded JSON body. */
  datatype HttpResponse<T> = HttpResponse(status: int, body: T)

  /** An optional string is truthy in Python: present and not empty. */
  predicate Truthy(s: Option<string>) {
    s.Some? && s.value != ""
  }

  /** `raise_for_status()` of the requests library raises exactly for the
      client-error and server-error ranges. */
  predicate RaisesForStatus(status: int) {
    400 <= status < 600
  }
}
