/**
 * The admin dashboard's state: the contact list it shows, the analytics
 * report, the loading flag and the error text, updated around its two
 * requests. A request's result is given as an answer (ok flag, status, body)
 * or as a thrown timeout or network failure.
 */
module Dashboard {
  import opened Common
  import opened Records

  /** The outcome of one `fetch`. */
  datatype Call<T> = Answered(ok: bool, status: int, body: T) | TimedOut | NetworkFailure

  predicate Succeeded<T>(c: Call<T>)
  {
    c.Answered? && c.ok
  }

  datatype Summary = Summary(totalVisits: int, totalContacts: int, avgVisitsPerDay: real)

  datatype AnalyticsData = AnalyticsData(analytics: seq<DayVisits>, summary: Summary)

  const ConfigMissing := "Service configuration unavailable"
  const TimedOutMessage := "Request timed out. Please check your connection and try again."
  const LoadFailedMessage := "Failed to load dashboard data. Service may be unavailable."

  /** The error text for a request that threw. */
  function FailureMessage<T>(c: Call<T>): string
  {
    if c.TimedOut? then TimedOutMessage else LoadFailedMessage
  }

  /** `contacts.map(c => c.id === id ? { ...c, status } : c)` */
  function MarkStatus(cs: seq<Contact>, id: string, status: string): (r: seq<Contact>)
    ensures |r| == |cs|
    ensures forall i :: 0 <= i < |cs| ==> r[i] == if cs[i].id == id then cs[i].(status := status) else cs[i]
  {
    if cs == [] then []
    else [if cs[0].id == id then cs[0].(status := status) else cs[0]] + MarkStatus(cs[1..], id, status)
  }

  /** `contacts.filter(c => c.status === 'new').length` */
  function CountNew(cs: seq<Contact>): (n: nat)
    ensures n <= |cs|
    ensures n == 0 <==> forall i :: 0 <= i < |cs| ==> cs[i].status != "new"
    ensures n == |cs| <==> forall i :: 0 <= i < |cs| ==> cs[i].status == "new"
  {
    if cs == [] then 0
    else (if cs[0].status == "new" then 1 else 0) + CountNew(cs[1..])
  }

  /** `contacts.slice(0, 5)`: the first five contacts, or all of them when fewer. */
  function Recent(cs: seq<Contact>): (r: seq<Contact>)
    ensures |r| == if |cs| < 5 then |cs| else 5
    ensures r <= cs
  {
    if |cs| < 5 then cs else cs[..5]
  }

  /** Marking the same id with the same status twice is marking it once. */
  lemma {:induction false} MarkStatusIdempotent(cs: seq<Contact>, id: string, status: string)
    ensures MarkStatus(MarkStatus(cs, id, status), id, status) == MarkStatus(cs, id, status)
  {
    var once := MarkStatus(cs, id, status);
    var twice := MarkStatus(once, id, status);
    assert forall i :: 0 <= i < |cs| ==> twice[i] == once[i];
  }

  /** Marking an id with a status other than new never raises the new-contact count, and lowers it when that id had a new contact. */
  lemma {:induction false} MarkingLowersNewCount(cs: seq<Contact>, id: string, status: string)
    requires status != "new"
    ensures CountNew(MarkStatus(cs, id, status)) <= CountNew(cs)
    ensures (exists i :: 0 <= i < |cs| && cs[i].id == id && cs[i].status == "new") ==>
      CountNew(MarkStatus(cs, id, status)) < CountNew(cs)
  {
    if cs != [] {
      MarkingLowersNewCount(cs[1..], id, status);
      var r := MarkStatus(cs, id, status);
      assert r[1..] == MarkStatus(cs[1..], id, status);
      if exists i :: 0 <= i < |cs| && cs[i].id == id && cs[i].status == "new" {
        var i :| 0 <= i < |cs| && cs[i].id == id && cs[i].status == "new";
        if i > 0 {
          assert cs[1..][i - 1] == cs[i];
        }
      }
    }
  }

  class AdminDashboard {
    var contacts: seq<Contact>
    var analytics: Option<AnalyticsData>
    var loading: bool
    var error: string

    constructor ()
      ensures contacts == [] && analytics == None && loading && error == ""
    {
      contacts := [];
      analytics := None;
      loading := true;
      error := "";
    }

    /**
     * `fetchData`: the contacts request, then the analytics request. A request
     * that threw stops the sequence and sets the error text; a non-ok answer
     * leaves its part of the state as it was.
     */
    method FetchData(configured: bool, contactsCall: Call<Option<seq<Contact>>>, analyticsCall: Call<AnalyticsData>)
      modifies this
      ensures !loading
      ensures !configured ==> error == ConfigMissing && contacts == old(contacts) && analytics == old(analytics)
      ensures configured ==>
        contacts == (if Succeeded(contactsCall) then
                       (if contactsCall.body.Some? then contactsCall.body.value else [])
                     else old(contacts))
      ensures configured ==>
        analytics == (if contactsCall.Answered? && Succeeded(analyticsCall) then Some(analyticsCall.body)
                      else old(analytics))
      ensures configured ==>
        error == (if !contactsCall.Answered? then FailureMessage(contactsCall)
                  else if !analyticsCall.Answered? then FailureMessage(analyticsCall)
                  else "")
    {
      loading := true;
      error := "";
      if !configured {
        error := ConfigMissing;
        loading := false;
        return;
      }
      if !contactsCall.Answered? {
        error := FailureMessage(contactsCall);
        loading := false;
        return;
      }
      if contactsCall.ok {
        contacts := if contactsCall.body.Some? then contactsCall.body.value else [];
      }
      if !analyticsCall.Answered? {
        error := FailureMessage(analyticsCall);
        loading := false;
        return;
      }
      if analyticsCall.ok {
        analytics := Some(analyticsCall.body);
      }
      loading := false;
    }

    /**
     * `updateContactStatus`: after an ok answer the matching contacts take the
     * new status; without configuration, or on a non-ok answer, a timeout or an
     * error, nothing changes.
     */
    method UpdateContactStatus(configured: bool, contactId: string, status: string, call: Call<()>)
      modifies this`contacts
      ensures contacts == if configured && Succeeded(call) then MarkStatus(old(contacts), contactId, status)
                          else old(contacts)
    {
      if !configured {
        return;
      }
      if Succeeded(call) {
        contacts := MarkStatus(contacts, contactId, status);
      }
    }
  }
}
