/**
 * The request handlers of the backend function, one method per route, over the
 * key-value store. Each handler runs to completion on its own (no interleaving);
 * the clock (`now`, milliseconds) and the random part of generated ids (`rand`)
 * are parameters.
 */
module Server {
  import opened Common
  import opened Text
  import opened Records
  import opened KeyValue
  import opened Listing

  // ---------------------------------------------------------------------------
  // Keys, ids and responses

  const ContactIndexKey := "contact_submissions"
  const ProjectIndexKey := "portfolio_projects"
  const HealthKey := "health_check_test"
  const ContactPrefix := "contact_"

  function ProjectKey(id: string): string
  {
    "project_" + id
  }

  function VisitsKey(date: string): string
  {
    "visits_" + date
  }

  /** A generated id: `${prefix}${Date.now()}_${random}`. */
  function FreshId(prefix: string, now: nat, rand: string): string
  {
    prefix + IntText(now) + "_" + rand
  }

  lemma FreshIdShape(prefix: string, now: nat, rand: string)
    ensures prefix <= FreshId(prefix, now, rand)
    ensures |FreshId(prefix, now, rand)| > |prefix| && IsDigit(FreshId(prefix, now, rand)[|prefix|])
  {
    var d := Digits(now);
    assert FreshId(prefix, now, rand) == prefix + (d + "_" + rand);
    assert FreshId(prefix, now, rand)[|prefix|] == d[0];
  }

  /** The answer of a route: a JSON body and its HTTP status. */
  datatype Response =
    | Accepted(id: string)
    | ContactList(contacts: seq<Option<Contact>>)
    | StatusUpdated(record: Value)
    | ProjectList(projects: seq<Project>)
    | ProjectSaved(project: Project)
    | ProjectDeleted
    | VisitRecorded
    | AnalyticsReport(days: seq<DayVisits>, totalVisits: int, totalContacts: nat, avgVisitsPerDay: real)
    | Healthy(timestamp: nat, database: bool)
    | Degraded(timestamp: nat)
    | Error(code: int, message: string)
  {
    function Status(): int
    {
      match this
      case Error(code, _) => code
      case Degraded(_) => 503
      case _ => 200
    }
  }

  const MissingFields := Error(400, "All fields are required")
  const Unauthorized := Error(401, "Unauthorized")
  const ContactNotFound := Error(404, "Contact not found")
  const SubmitFailed := Error(500, "Failed to process contact form submission")
  const ListFailed := Error(500, "Failed to fetch contacts")
  const UpdateFailed := Error(500, "Failed to update contact status")
  const ProjectsFailed := Error(500, "Failed to fetch projects")
  const SaveFailed := Error(500, "Failed to save project")
  const DeleteFailed := Error(500, "Failed to delete project")
  const VisitFailed := Error(500, "Failed to record visit")
  const AnalyticsFailed := Error(500, "Failed to fetch analytics")

  /** The admin routes' check: an `Authorization` header that starts with `Bearer `. */
  predicate Authorized(header: Option<string>): (ok: bool)
    ensures ok ==> header.Some? && |header.value| >= 7 && header.value[..7] == "Bearer "
    ensures forall token :: header == Some("Bearer " + token) ==> ok
  {
    header.Some? && "Bearer " <= header.value
  }

  // ---------------------------------------------------------------------------
  // Store invariants

  /** Every id in the contact index is a contact id whose record is stored. */
  ghost predicate ContactIndexSound(data: map<string, Value>)
  {
    match IdListOf(Lookup(data, ContactIndexKey))
    case None => false
    case Some(ids) => forall id :: id in ids ==> ContactPrefix <= id && id in data && data[id].ContactRecord?
  }

  /** The project index is a list with at most one entry per id. */
  ghost predicate ProjectIndexSound(data: map<string, Value>)
  {
    match ProjectsOf(Lookup(data, ProjectIndexKey))
    case None => false
    case Some(ps) => UniqueIds(ps)
  }

  /** A key written by a handler other than the contact routes is neither an index nor a contact id. */
  predicate ForeignKey(key: string)
  {
    key != ContactIndexKey && key != ProjectIndexKey && !(ContactPrefix <= key)
  }

  /** A key whose first letter is not `c` and whose second letter is not `o` is foreign. */
  lemma ForeignByHead(key: string)
    requires |key| > 1 && key[0] != 'c' && key[1] != 'o'
    ensures ForeignKey(key)
  {
  }

  /** Writing or deleting a foreign key keeps both index invariants. */
  lemma ForeignWriteKeepsIndexes(data: map<string, Value>, key: string, v: Option<Value>)
    requires ForeignKey(key)
    ensures var data' := if v.Some? then data[key := v.value] else data - {key};
      (ContactIndexSound(data) ==> ContactIndexSound(data')) &&
      (ProjectIndexSound(data) ==> ProjectIndexSound(data'))
  {
    var data' := if v.Some? then data[key := v.value] else data - {key};
    assert Lookup(data', ContactIndexKey) == Lookup(data, ContactIndexKey);
    assert Lookup(data', ProjectIndexKey) == Lookup(data, ProjectIndexKey);
  }

  /** Rewriting the project index keeps the contact index sound. */
  lemma ProjectIndexWriteKeepsContacts(data: map<string, Value>, v: Value)
    requires ContactIndexSound(data)
    ensures ContactIndexSound(data[ProjectIndexKey := v])
  {
    assert ProjectIndexKey[0] == 'p';
    assert Lookup(data[ProjectIndexKey := v], ContactIndexKey) == Lookup(data, ContactIndexKey);
  }

  // ---------------------------------------------------------------------------
  // POST /contact

  datatype ContactForm = ContactForm(name: Option<string>, email: Option<string>, subject: Option<string>, message: Option<string>)

  predicate Complete(form: ContactForm)
  {
    Present(form.name) && Present(form.email) && Present(form.subject) && Present(form.message)
  }

  function NewContact(form: ContactForm, id: string, now: nat): Contact
    requires Complete(form)
  {
    Contact(id, form.name.value, form.email.value, form.subject.value, form.message.value, now, "new", None)
  }

  method SubmitContact(kv: KvStore, form: ContactForm, now: nat, rand: string) returns (r: Response)
    modifies kv`data
    ensures !Complete(form) ==> r == MissingFields && kv.data == old(kv.data)
    ensures Complete(form) && !kv.online ==> r == SubmitFailed && kv.data == old(kv.data)
    ensures Complete(form) && kv.online ==>
      var id := FreshId(ContactPrefix, now, rand);
      var stored := old(kv.data)[id := ContactRecord(NewContact(form, id, now))];
      match IdListOf(Lookup(old(kv.data), ContactIndexKey))
      case Some(ids) => r == Accepted(id) && kv.data == stored[ContactIndexKey := IdList(ids + [id])]
      case None => r == SubmitFailed && kv.data == stored
    ensures ContactIndexSound(old(kv.data)) ==> ContactIndexSound(kv.data)
    ensures ProjectIndexSound(old(kv.data)) ==> ProjectIndexSound(kv.data)
  {
    if !Complete(form) {
      return MissingFields;
    }
    if !kv.online {
      return SubmitFailed;
    }
    var id := FreshId(ContactPrefix, now, rand);
    FreshIdShape(ContactPrefix, now, rand);
    assert ContactIndexKey[8] == 's';
    assert id != ContactIndexKey && id != ProjectIndexKey;
    kv.Set(id, ContactRecord(NewContact(form, id, now)));
    var stored := kv.Get(ContactIndexKey);
    var ids := IdListOf(stored);
    if ids.None? {
      return SubmitFailed;
    }
    kv.Set(ContactIndexKey, IdList(ids.value + [id]));
    r := Accepted(id);
  }

  // ---------------------------------------------------------------------------
  // GET /admin/contacts

  method ListContacts(kv: KvStore, auth: Option<string>) returns (r: Response)
    ensures !Authorized(auth) ==> r == Unauthorized
    ensures r.Status() == 401 <==> !Authorized(auth)
    ensures Authorized(auth) && !kv.online ==> r == ListFailed
    ensures Authorized(auth) && kv.online ==>
      match IdListOf(Lookup(kv.data, ContactIndexKey))
      case None => r == ListFailed
      case Some(ids) =>
        var found := FindAll(kv.data, ids);
        if AllContacts(found) then
          && r == ContactList(SortNewestFirst(ContactsIn(found)))
          && NewestFirst(r.contacts) && multiset(r.contacts) == multiset(ContactsIn(found))
          && forall k :: Tied(r.contacts, k) == Tied(ContactsIn(found), k)
        else r == ListFailed
  {
    if !Authorized(auth) {
      return Unauthorized;
    }
    if !kv.online {
      return ListFailed;
    }
    var stored := kv.Get(ContactIndexKey);
    var ids := IdListOf(stored);
    if ids.None? {
      return ListFailed;
    }
    var found := kv.MGet(ids.value);
    if !AllContacts(found) {
      return ListFailed;
    }
    forall k {
      SortNewestFirstStable(ContactsIn(found), k);
    }
    r := ContactList(SortNewestFirst(ContactsIn(found)));
  }

  // ---------------------------------------------------------------------------
  // PUT /admin/contacts/:id

  /**
   * `record.status = status; record.updatedAt = now` on whatever the id names.
   * A record gets both fields and keeps every other one. On an array the two
   * properties are not part of its JSON, so the stored list comes back as it
   * was. Setting a property on a number throws (module code is strict), which
   * is None here.
   */
  function WithStatus(v: Value, status: string, now: nat): (r: Option<Value>)
    ensures r.None? <==> v.Number?
    ensures v.IdList? || v.ProjectArray? ==> r == Some(v)
    ensures v.ContactRecord? ==>
      && r.Some? && r.value.ContactRecord?
      && r.value.contact.status == status && r.value.contact.updatedAt == Some(now)
      && r.value.contact.(status := v.contact.status, updatedAt := v.contact.updatedAt) == v.contact
    ensures v.VisitRecord? ==>
      && r.Some? && r.value.VisitRecord?
      && r.value.visit.status == Some(status) && r.value.visit.updatedAt == Some(now)
      && r.value.visit.(status := v.visit.status, updatedAt := v.visit.updatedAt) == v.visit
    ensures v.ProjectRecord? ==>
      && r.Some? && r.value.ProjectRecord?
      && r.value.project.id == v.project.id && r.value.project.updatedAt == now
      && Lookup(r.value.project.fields, "status") == Some(JString(status))
      && forall f :: f != "status" ==> Lookup(r.value.project.fields, f) == Lookup(v.project.fields, f)
  {
    match v
    case ContactRecord(c) => Some(ContactRecord(c.(status := status, updatedAt := Some(now))))
    case VisitRecord(w) => Some(VisitRecord(w.(status := Some(status), updatedAt := Some(now))))
    case ProjectRecord(p) => Some(ProjectRecord(p.(fields := p.fields["status" := JString(status)], updatedAt := now)))
    case IdList(_) => Some(v)
    case ProjectArray(_) => Some(v)
    case Number(_) => None
  }

  /**
   * Rewriting a stored contact with a contact, and a stored list or number
   * with itself, keeps both index invariants.
   */
  lemma SameKindWriteKeepsIndexes(data: map<string, Value>, key: string, v: Value)
    requires key in data
    requires data[key].IdList? || data[key].ProjectArray? || data[key].Number? ==> v == data[key]
    requires data[key].ContactRecord? ==> v.ContactRecord?
    ensures ContactIndexSound(data) ==> ContactIndexSound(data[key := v])
    ensures ProjectIndexSound(data) ==> ProjectIndexSound(data[key := v])
  {
    var data' := data[key := v];
    if key != ContactIndexKey {
      assert Lookup(data', ContactIndexKey) == Lookup(data, ContactIndexKey);
    } else if ContactIndexSound(data) {
      assert data' == data;
    }
    if key != ProjectIndexKey {
      assert Lookup(data', ProjectIndexKey) == Lookup(data, ProjectIndexKey);
    } else if ProjectIndexSound(data) {
      assert data' == data;
    }
  }

  /**
   * The status update. The route reads no `Authorization` header: `auth` is
   * accepted and ignored, so every caller gets the same answer, whatever
   * key the id names.
   */
  method UpdateContactStatus(kv: KvStore, auth: Option<string>, contactId: string, status: string, now: nat)
    returns (r: Response)
    modifies kv`data
    ensures !kv.online ==> r == UpdateFailed && kv.data == old(kv.data)
    ensures kv.online ==>
      var found := Lookup(old(kv.data), contactId);
      if found.None? || !Truthy(found.value) then
        r == ContactNotFound && kv.data == old(kv.data)
      else match WithStatus(found.value, status, now)
        case Some(updated) => r == StatusUpdated(updated) && kv.data == old(kv.data)[contactId := updated]
        case None => r == UpdateFailed && kv.data == old(kv.data)
    ensures ContactIndexSound(old(kv.data)) ==> ContactIndexSound(kv.data)
    ensures ProjectIndexSound(old(kv.data)) ==> ProjectIndexSound(kv.data)
  {
    if !kv.online {
      return UpdateFailed;
    }
    var found := kv.Get(contactId);
    if found.None? || !Truthy(found.value) {
      return ContactNotFound;
    }
    var updated := WithStatus(found.value, status, now);
    if updated.None? {
      return UpdateFailed;
    }
    SameKindWriteKeepsIndexes(kv.data, contactId, updated.value);
    kv.Set(contactId, updated.value);
    r := StatusUpdated(updated.value);
  }

  // ---------------------------------------------------------------------------
  // GET /projects

  method ListProjects(kv: KvStore) returns (r: Response)
    ensures !kv.online ==> r == ProjectsFailed
    ensures kv.online ==>
      match ProjectsOf(Lookup(kv.data, ProjectIndexKey))
      case Some(ps) => r == ProjectList(ps)
      case None => r == ProjectsFailed
    ensures kv.online && ProjectIndexSound(kv.data) ==> r.ProjectList? && UniqueIds(r.projects)
  {
    if !kv.online {
      return ProjectsFailed;
    }
    var stored := kv.Get(ProjectIndexKey);
    var ps := ProjectsOf(stored);
    if ps.None? {
      return ProjectsFailed;
    }
    r := ProjectList(ps.value);
  }

  // ---------------------------------------------------------------------------
  // POST /admin/projects

  /** A project body: its `id` if it carries one, and its other fields. */
  datatype ProjectForm = ProjectForm(id: Option<string>, fields: map<string, Json>)

  /** `projectData.id || generated id` */
  function ProjectIdFor(form: ProjectForm, now: nat, rand: string): (id: string)
    ensures id != ""
    ensures Present(form.id) ==> id == form.id.value
    ensures !Present(form.id) ==> "project_" <= id && |id| > 8 && IsDigit(id[8])
  {
    FreshIdShape("project_", now, rand);
    OrElse(form.id, FreshId("project_", now, rand))
  }

  /** `{ ...projectData, id, updatedAt }` */
  function SavedProject(form: ProjectForm, id: string, now: nat): Project
  {
    Project(id, form.fields - {"id", "updatedAt"}, now)
  }

  method UpsertProject(kv: KvStore, auth: Option<string>, form: ProjectForm, now: nat, rand: string)
    returns (r: Response)
    modifies kv`data
    ensures !Authorized(auth) ==> r == Unauthorized && kv.data == old(kv.data)
    ensures r.Status() == 401 <==> !Authorized(auth)
    ensures Authorized(auth) && !kv.online ==> r == SaveFailed && kv.data == old(kv.data)
    ensures Authorized(auth) && kv.online ==>
      var project := SavedProject(form, ProjectIdFor(form, now, rand), now);
      var stored := old(kv.data)[ProjectKey(project.id) := ProjectRecord(project)];
      match ProjectsOf(Lookup(old(kv.data), ProjectIndexKey))
      case Some(ps) => r == ProjectSaved(project) && kv.data == stored[ProjectIndexKey := ProjectArray(Upserted(ps, project))]
      case None => r == SaveFailed && kv.data == stored
    ensures ContactIndexSound(old(kv.data)) ==> ContactIndexSound(kv.data)
    ensures ProjectIndexSound(old(kv.data)) ==> ProjectIndexSound(kv.data)
  {
    if !Authorized(auth) {
      return Unauthorized;
    }
    if !kv.online {
      return SaveFailed;
    }
    var projectId := ProjectIdFor(form, now, rand);
    var project := SavedProject(form, projectId, now);
    var key := ProjectKey(projectId);
    assert key[0] == 'p' && key[1] == 'r';
    ForeignByHead(key);
    ForeignWriteKeepsIndexes(old(kv.data), key, Some(ProjectRecord(project)));
    kv.Set(key, ProjectRecord(project));
    var stored := kv.Get(ProjectIndexKey);
    var found := ProjectsOf(stored);
    if found.None? {
      return SaveFailed;
    }
    var projects := found.value;
    ghost var before := projects;
    var existingIndex := FindProject(projects, projectId);
    if existingIndex >= 0 {
      projects := projects[existingIndex := project];
    } else {
      projects := projects + [project];
    }
    assert projects == Upserted(before, project);
    if ProjectIndexSound(old(kv.data)) {
      UpsertKeepsUnique(before, project);
    }
    if ContactIndexSound(kv.data) {
      ProjectIndexWriteKeepsContacts(kv.data, ProjectArray(projects));
    }
    kv.Set(ProjectIndexKey, ProjectArray(projects));
    r := ProjectSaved(project);
  }

  // ---------------------------------------------------------------------------
  // DELETE /admin/projects/:id

  /** Deletion answers success whether or not the id existed. */
  method DeleteProject(kv: KvStore, auth: Option<string>, projectId: string) returns (r: Response)
    modifies kv`data
    ensures !Authorized(auth) ==> r == Unauthorized && kv.data == old(kv.data)
    ensures r.Status() == 401 <==> !Authorized(auth)
    ensures Authorized(auth) && !kv.online ==> r == DeleteFailed && kv.data == old(kv.data)
    ensures Authorized(auth) && kv.online ==>
      var removed := old(kv.data) - {ProjectKey(projectId)};
      match ProjectsOf(Lookup(old(kv.data), ProjectIndexKey))
      case Some(ps) => r == ProjectDeleted && kv.data == removed[ProjectIndexKey := ProjectArray(Without(ps, projectId))]
      case None => r == DeleteFailed && kv.data == removed
    ensures Authorized(auth) && kv.online ==> ProjectKey(projectId) !in kv.data
    ensures ContactIndexSound(old(kv.data)) ==> ContactIndexSound(kv.data)
    ensures ProjectIndexSound(old(kv.data)) ==> ProjectIndexSound(kv.data)
  {
    if !Authorized(auth) {
      return Unauthorized;
    }
    if !kv.online {
      return DeleteFailed;
    }
    var key := ProjectKey(projectId);
    assert key[0] == 'p' && key[1] == 'r';
    ForeignByHead(key);
    ForeignWriteKeepsIndexes(old(kv.data), key, None);
    kv.Del(key);
    var stored := kv.Get(ProjectIndexKey);
    var found := ProjectsOf(stored);
    if found.None? {
      return DeleteFailed;
    }
    var updated := Without(found.value, projectId);
    if ProjectIndexSound(old(kv.data)) {
      WithoutKeepsUnique(found.value, projectId);
    }
    if ContactIndexSound(kv.data) {
      ProjectIndexWriteKeepsContacts(kv.data, ProjectArray(updated));
    }
    kv.Set(ProjectIndexKey, ProjectArray(updated));
    r := ProjectDeleted;
  }

  // ---------------------------------------------------------------------------
  // POST /analytics/visit

  datatype VisitForm = VisitForm(page: Option<string>, userAgent: Option<string>, referrer: Option<string>)

  /** The `cf-connecting-ip` and `x-forwarded-for` request headers. */
  datatype ClientHeaders = ClientHeaders(cfConnectingIp: Option<string>, forwardedFor: Option<string>)

  /**
   * The visit record: the page defaults to `/`, the user agent and referrer to
   * empty, the address to the first client header present, else `unknown`.
   */
  function NewVisit(form: VisitForm, headers: ClientHeaders, now: nat, rand: string): (v: Visit)
    ensures v.page != "" && v.ip != ""
    ensures Present(form.page) ==> v.page == form.page.value
    ensures !Present(form.page) ==> v.page == "/"
    ensures v.userAgent == OrElse(form.userAgent, "") && v.referrer == OrElse(form.referrer, "")
    ensures Present(headers.cfConnectingIp) ==> v.ip == headers.cfConnectingIp.value
    ensures !Present(headers.cfConnectingIp) && Present(headers.forwardedFor) ==> v.ip == headers.forwardedFor.value
    ensures !Present(headers.cfConnectingIp) && !Present(headers.forwardedFor) ==> v.ip == "unknown"
    ensures v.timestamp == now && v.status.None? && v.updatedAt.None?
    ensures "visit_" <= v.id && |v.id| > 6 && IsDigit(v.id[6])
  {
    FreshIdShape("visit_", now, rand);
    Visit(
      FreshId("visit_", now, rand),
      OrElse(form.page, "/"),
      OrElse(form.userAgent, ""),
      OrElse(form.referrer, ""),
      now,
      OrElse(headers.cfConnectingIp, OrElse(headers.forwardedFor, "unknown")),
      None,
      None)
  }

  method RecordVisit(kv: KvStore, form: VisitForm, headers: ClientHeaders, now: nat, rand: string)
    returns (r: Response)
    modifies kv`data
    ensures !kv.online ==> r == VisitFailed && kv.data == old(kv.data)
    ensures kv.online ==>
      var visit := NewVisit(form, headers, now, rand);
      var dailyKey := VisitsKey(DayText(DayOf(now)));
      var stored := old(kv.data)[visit.id := VisitRecord(visit)];
      match CounterOf(Lookup(old(kv.data), dailyKey))
      case Some(n) => r == VisitRecorded && kv.data == stored[dailyKey := Number(n + 1)]
      case None => r == VisitFailed && kv.data == stored
    ensures ContactIndexSound(old(kv.data)) ==> ContactIndexSound(kv.data)
    ensures ProjectIndexSound(old(kv.data)) ==> ProjectIndexSound(kv.data)
  {
    if !kv.online {
      return VisitFailed;
    }
    var visit := NewVisit(form, headers, now, rand);
    var dailyKey := VisitsKey(DayText(DayOf(now)));
    FreshIdShape("visit_", now, rand);
    assert visit.id[0] == 'v' && visit.id[5] == '_' && dailyKey[5] == 's';
    ForeignByHead(visit.id);
    ForeignByHead(dailyKey);
    assert visit.id != dailyKey;
    ForeignWriteKeepsIndexes(old(kv.data), visit.id, Some(VisitRecord(visit)));
    kv.Set(visit.id, VisitRecord(visit));
    var stored := kv.Get(dailyKey);
    var dailyVisits := CounterOf(stored);
    if dailyVisits.None? {
      return VisitFailed;
    }
    ForeignWriteKeepsIndexes(kv.data, dailyKey, Some(Number(dailyVisits.value + 1)));
    kv.Set(dailyKey, Number(dailyVisits.value + 1));
    r := VisitRecorded;
  }

  // ---------------------------------------------------------------------------
  // GET /admin/analytics

  /** The stored count of a day, 0 when absent; None when the key holds something else. */
  function DayCount(data: map<string, Value>, day: int): Option<int>
  {
    CounterOf(Lookup(data, VisitsKey(DayText(day))))
  }

  /** Every counter of the 30 days ending `today` can be read. */
  predicate WindowReadable(data: map<string, Value>, today: int)
  {
    forall d :: today - 29 <= d <= today ==> DayCount(data, d).Some?
  }

  method GetAnalytics(kv: KvStore, auth: Option<string>, now: nat) returns (r: Response)
    ensures !Authorized(auth) ==> r == Unauthorized
    ensures r.Status() == 401 <==> !Authorized(auth)
    ensures Authorized(auth) && !kv.online ==> r == AnalyticsFailed
    ensures Authorized(auth) && kv.online ==>
      (r.AnalyticsReport? <==> WindowReadable(kv.data, DayOf(now)) && IdListOf(Lookup(kv.data, ContactIndexKey)).Some?)
    ensures !r.AnalyticsReport? ==> r == Unauthorized || r == AnalyticsFailed
    ensures r.AnalyticsReport? ==>
      var today := DayOf(now);
      && |r.days| == 30
      && (forall j :: 0 <= j < 30 ==>
            r.days[j] == DayVisits(DayText(today - 29 + j), DayCount(kv.data, today - 29 + j).value))
      && r.totalVisits == Total(r.days)
      && r.totalContacts == |IdListOf(Lookup(kv.data, ContactIndexKey)).value|
      && r.avgVisitsPerDay * 30.0 == r.totalVisits as real
  {
    if !Authorized(auth) {
      return Unauthorized;
    }
    if !kv.online {
      return AnalyticsFailed;
    }
    var today := DayOf(now);
    var analytics: seq<DayVisits> := [];
    var i := 29;
    while i >= 0
      invariant -1 <= i <= 29
      invariant |analytics| == 29 - i
      invariant forall d :: today - 29 <= d < today - 29 + |analytics| ==> DayCount(kv.data, d).Some?
      invariant forall j :: 0 <= j < |analytics| ==>
        analytics[j] == DayVisits(DayText(today - 29 + j), DayCount(kv.data, today - 29 + j).value)
    {
      var date := DayText(today - i);
      var stored := kv.Get(VisitsKey(date));
      var visits := CounterOf(stored);
      assert today - 29 + |analytics| == today - i;
      if visits.None? {
        assert DayCount(kv.data, today - i).None?;
        return AnalyticsFailed;
      }
      ghost var prev := analytics;
      analytics := analytics + [DayVisits(date, visits.value)];
      assert forall j :: 0 <= j < |prev| ==> analytics[j] == prev[j];
      assert analytics[|prev|] == DayVisits(DayText(today - 29 + |prev|), DayCount(kv.data, today - 29 + |prev|).value);
      i := i - 1;
    }
    assert WindowReadable(kv.data, today) by {
      forall d | today - 29 <= d <= today
        ensures DayCount(kv.data, d).Some?
      {

      }
    }
    var totalVisits := Total(analytics);
    var stored := kv.Get(ContactIndexKey);
    var contactIds := IdListOf(stored);
    if contactIds.None? {
      return AnalyticsFailed;
    }
    r := AnalyticsReport(analytics, totalVisits, |contactIds.value|, totalVisits as real / 30.0);
  }

  // ---------------------------------------------------------------------------
  // GET /health

  /**
   * The store round trip: write the clock under a test key, read it back,
   * delete it. Reports the database as working exactly when the read-back
   * value equals the written one; a failing store gives 503.
   */
  method HealthCheck(kv: KvStore, now: nat) returns (r: Response)
    modifies kv`data
    ensures !kv.online ==> r == Degraded(now) && kv.data == old(kv.data)
    ensures kv.online ==> r == Healthy(now, true) && kv.data == old(kv.data) - {HealthKey}
    ensures r.Status() == if kv.online then 200 else 503
    ensures ContactIndexSound(old(kv.data)) ==> ContactIndexSound(kv.data)
    ensures ProjectIndexSound(old(kv.data)) ==> ProjectIndexSound(kv.data)
  {
    if !kv.online {
      return Degraded(now);
    }
    ForeignByHead(HealthKey);
    ForeignWriteKeepsIndexes(old(kv.data), HealthKey, None);
    kv.Set(HealthKey, Number(now));
    var retrieved := kv.Get(HealthKey);
    kv.Del(HealthKey);
    var isKvWorking := retrieved == Some(Number(now));
    r := Healthy(now, isKvWorking);
  }
}
