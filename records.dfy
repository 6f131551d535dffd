/**
 * The documents the backend keeps in its key-value store. Timestamps,
 * which the service writes as ISO-8601 texts, are milliseconds since the epoch.
 */
module Records {
  import opened Common

  /** A JSON value, for the free-form fields of a project. */
  datatype Json =
    | JNull
    | JBool(b: bool)
    | JNumber(n: int)
    | JString(s: string)
    | JArray(items: seq<Json>)
    | JObject(members: map<string, Json>)

  /** A contact-form submission; `status` is one of new, read, replied. */
  datatype Contact = Contact(
    id: string,
    name: string,
    email: string,
    subject: string,
    message: string,
    timestamp: int,
    status: string,
    updatedAt: Option<int>)

  /** A portfolio project: the submitted fields plus its id and the time of its last save. */
  datatype Project = Project(id: string, fields: map<string, Json>, updatedAt: int)

  /**
   * One recorded page visit. `status` and `updatedAt` are absent when it is
   * recorded; the status route can add them to any stored record.
   */
  datatype Visit = Visit(
    id: string,
    page: string,
    userAgent: string,
    referrer: string,
    timestamp: int,
    ip: string,
    status: Option<string>,
    updatedAt: Option<int>)

  /** One entry of the analytics window. */
  datatype DayVisits = DayVisits(date: string, visits: int)

  /** What a key of the store can hold. */
  datatype Value =
    | ContactRecord(contact: Contact)
    | IdList(ids: seq<string>)
    | ProjectRecord(project: Project)
    | ProjectArray(projects: seq<Project>)
    | Number(n: int)
    | VisitRecord(visit: Visit)

  /** JavaScript truthiness of a stored value: only the number 0 is falsy. */
  predicate Truthy(v: Value)
  {
    !(v.Number? && v.n == 0)
  }

  /** `await kv.get(key) || []` for an id list; None when the key holds something else. */
  function IdListOf(v: Option<Value>): (r: Option<seq<string>>)
    ensures v.None? ==> r == Some([])
    ensures v.Some? && v.value.IdList? ==> r == Some(v.value.ids)
    ensures v.Some? && !Truthy(v.value) ==> r == Some([])
    ensures r.Some? ==> v.None? || !Truthy(v.value) || v.value.IdList?
  {
    match v
    case None => Some([])
    case Some(IdList(ids)) => Some(ids)
    case Some(x) => if Truthy(x) then None else Some([])
  }

  /** `await kv.get(key) || []` for a project list; None when the key holds something else. */
  function ProjectsOf(v: Option<Value>): (r: Option<seq<Project>>)
    ensures v.None? ==> r == Some([])
    ensures v.Some? && v.value.ProjectArray? ==> r == Some(v.value.projects)
    ensures v.Some? && !Truthy(v.value) ==> r == Some([])
    ensures r.Some? ==> v.None? || !Truthy(v.value) || v.value.ProjectArray?
  {
    match v
    case None => Some([])
    case Some(ProjectArray(ps)) => Some(ps)
    case Some(x) => if Truthy(x) then None else Some([])
  }

  /** `await kv.get(key) || 0` for a counter; None when the key holds something else. */
  function CounterOf(v: Option<Value>): (r: Option<int>)
    ensures v.None? ==> r == Some(0)
    ensures v.Some? && v.value.Number? ==> r == Some(v.value.n)
    ensures r.Some? ==> v.None? || v.value.Number?
  {
    match v
    case None => Some(0)
    case Some(Number(n)) => Some(n)
    case Some(_) => None
  }
}
