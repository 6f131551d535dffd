/**
 * The list computations inside the backend handlers: the newest-first sort of
 * the admin contact list, `findIndex` on the project list, the upsert and the
 * delete filter of the project list, and the sum of the analytics window.
 */
module Listing {
  import opened Common
  import opened Records

  // ---------------------------------------------------------------------------
  // Contacts, newest first

  /**
   * `a` may stand before `b` in a newest-first list. Slots for ids without a
   * record (JavaScript's `undefined`) go after every record, as `Array.prototype.sort`
   * places them.
   */
  predicate Precedes(a: Option<Contact>, b: Option<Contact>)
  {
    b.None? || (a.Some? && a.value.timestamp >= b.value.timestamp)
  }

  /** Ordered by non-increasing timestamp, missing records last. */
  predicate NewestFirst(s: seq<Option<Contact>>)
  {
    forall i, j :: 0 <= i < j < |s| ==> Precedes(s[i], s[j])
  }

  /** The sort key of a slot: the record's timestamp, or None for a missing record. */
  function SortKey(x: Option<Contact>): Option<int>
  {
    if x.Some? then Some(x.value.timestamp) else None
  }

  /** The entries of `s` whose sort key is `k`, in their order in `s`. */
  function Tied(s: seq<Option<Contact>>, k: Option<int>): seq<Option<Contact>>
  {
    if s == [] then []
    else (if SortKey(s[0]) == k then [s[0]] else []) + Tied(s[1..], k)
  }

  /** Inserts `x` into a newest-first list, ahead of every entry it does not come after. */
  function InsertNewest(x: Option<Contact>, s: seq<Option<Contact>>): (r: seq<Option<Contact>>)
    requires NewestFirst(s)
    ensures NewestFirst(r)
    ensures multiset(r) == multiset(s) + multiset{x}
  {
    if s == [] then [x]
    else if Precedes(x, s[0]) then [x] + s
    else
      var t := InsertNewest(x, s[1..]);
      assert s == [s[0]] + s[1..];
      forall k | 0 <= k < |t|
        ensures Precedes(s[0], t[k])
      {
        assert t[k] in multiset(t);
        if t[k] != x {
          assert t[k] in multiset(s[1..]);
          var m :| 0 <= m < |s[1..]| && s[1..][m] == t[k];
          assert Precedes(s[0], s[m + 1]);
        }
      }
      [s[0]] + t
  }

  /**
   * `contacts.sort((a, b) => time(b) - time(a))`: the same records, newest first.
   * The sort is stable: entries with the same key keep their original order.
   */
  function SortNewestFirst(s: seq<Option<Contact>>): (r: seq<Option<Contact>>)
    ensures NewestFirst(r)
    ensures multiset(r) == multiset(s)
  {
    if s == [] then []
    else
      assert s == [s[0]] + s[1..];
      InsertNewest(s[0], SortNewestFirst(s[1..]))
  }

  lemma TiedCons(a: Option<Contact>, t: seq<Option<Contact>>, k: Option<int>)
    ensures Tied([a] + t, k) == (if SortKey(a) == k then [a] else []) + Tied(t, k)
  {
    assert ([a] + t)[1..] == t;
  }

  /** Inserting `x` puts it after its ties: among entries with its key, it comes first. */
  lemma {:induction false} InsertNewestTied(x: Option<Contact>, s: seq<Option<Contact>>, k: Option<int>)
    requires NewestFirst(s)
    ensures Tied(InsertNewest(x, s), k) == (if SortKey(x) == k then [x] else []) + Tied(s, k)
  {
    if s == [] {
      TiedCons(x, s, k);
    } else if Precedes(x, s[0]) {
      TiedCons(x, s, k);
    } else {
      var t := InsertNewest(x, s[1..]);
      InsertNewestTied(x, s[1..], k);
      TiedCons(s[0], t, k);
      TiedCons(s[0], s[1..], k);
      assert s == [s[0]] + s[1..];
      assert SortKey(x) != SortKey(s[0]);
    }
  }

  /**
   * The sort is stable: for every key, the entries with that key come out in
   * the order they went in.
   */
  lemma {:induction false} SortNewestFirstStable(s: seq<Option<Contact>>, k: Option<int>)
    ensures Tied(SortNewestFirst(s), k) == Tied(s, k)
  {
    if s != [] {
      SortNewestFirstStable(s[1..], k);
      InsertNewestTied(s[0], SortNewestFirst(s[1..]), k);
    }
  }

  /** Every slot of an `mget` result is empty or a contact record. */
  predicate AllContacts(vs: seq<Option<Value>>)
  {
    forall i :: 0 <= i < |vs| ==> vs[i].None? || vs[i].value.ContactRecord?
  }

  /** The contacts of an `mget` result, slot by slot. */
  function ContactsIn(vs: seq<Option<Value>>): seq<Option<Contact>>
    requires AllContacts(vs)
  {
    seq(|vs|, i requires 0 <= i < |vs| && AllContacts(vs) =>
      if vs[i].Some? then Some(vs[i].value.contact) else None)
  }

  // ---------------------------------------------------------------------------
  // Projects

  /** At most one entry per project id. */
  predicate UniqueIds(ps: seq<Project>)
  {
    forall i, j :: 0 <= i < j < |ps| ==> ps[i].id != ps[j].id
  }

  /** `a` keeps the elements of `b` it holds in their relative order. */
  ghost predicate IsSubsequence<T>(a: seq<T>, b: seq<T>)
    decreases |b|
  {
    a == [] || (b != [] && ((a[0] == b[0] && IsSubsequence(a[1..], b[1..])) || IsSubsequence(a, b[1..])))
  }

  /** `projects.findIndex(p => p.id === id)`: the first index with that id, or -1. */
  function FindProject(ps: seq<Project>, id: string): (i: int)
    ensures -1 <= i < |ps|
    ensures i >= 0 ==> ps[i].id == id && forall j :: 0 <= j < i ==> ps[j].id != id
    ensures i < 0 ==> forall j :: 0 <= j < |ps| ==> ps[j].id != id
  {
    if ps == [] then -1
    else if ps[0].id == id then 0
    else
      var k := FindProject(ps[1..], id);
      if k < 0 then -1 else k + 1
  }

  /** Whether some entry of the list has this id. */
  predicate HasId(ps: seq<Project>, id: string)
  {
    exists j :: 0 <= j < |ps| && ps[j].id == id
  }

  /**
   * The project list after an upsert of `p`: the first entry with `p`'s id
   * becomes `p`; with no such entry `p` is appended.
   */
  function Upserted(ps: seq<Project>, p: Project): (r: seq<Project>)
    ensures |r| == if HasId(ps, p.id) then |ps| else |ps| + 1
    ensures forall j :: 0 <= j < |ps| ==>
      r[j] == if ps[j].id == p.id && (forall k :: 0 <= k < j ==> ps[k].id != p.id) then p else ps[j]
    ensures !HasId(ps, p.id) ==> r[|ps|] == p
    ensures p in r
  {
    var i := FindProject(ps, p.id);
    if i >= 0 then ps[i := p] else ps + [p]
  }

  /** Upserting the same project twice leaves the list as one upsert did. */
  lemma UpsertIdempotent(ps: seq<Project>, p: Project)
    ensures Upserted(Upserted(ps, p), p) == Upserted(ps, p)
  {
    var r := Upserted(ps, p);
    var i := FindProject(r, p.id);
    var k :| 0 <= k < |r| && r[k] == p;
    assert i >= 0;
    assert r[i := p] == r;
  }

  /** An upsert keeps the list free of duplicate ids. */
  lemma UpsertKeepsUnique(ps: seq<Project>, p: Project)
    requires UniqueIds(ps)
    ensures UniqueIds(Upserted(ps, p))
  {
    var r := Upserted(ps, p);
    forall i, j | 0 <= i < j < |r|
      ensures r[i].id != r[j].id
    {
      if j == |ps| {
        assert !HasId(ps, p.id);
        assert r[i] == ps[i];
      }
    }
  }

  /** `projects.filter(p => p.id !== id)` */
  function Without(ps: seq<Project>, id: string): (r: seq<Project>)
    ensures forall q :: q in r <==> q in ps && q.id != id
    ensures IsSubsequence(r, ps)
  {
    if ps == [] then []
    else if ps[0].id == id then Without(ps[1..], id)
    else
      var t := Without(ps[1..], id);
      assert ([ps[0]] + t)[1..] == t;
      [ps[0]] + t
  }

  /** The filter keeps every copy of a project with another id and no copy of one with this id. */
  lemma {:induction false} WithoutCounts(ps: seq<Project>, id: string, q: Project)
    ensures multiset(Without(ps, id))[q] == if q.id != id then multiset(ps)[q] else 0
  {
    if ps != [] {
      WithoutCounts(ps[1..], id, q);
      assert ps == [ps[0]] + ps[1..];
      if ps[0].id != id {
        assert Without(ps, id) == [ps[0]] + Without(ps[1..], id);
      }
    }
  }

  /** Filtering out an id that no entry has changes nothing. */
  lemma {:induction false} WithoutAbsent(ps: seq<Project>, id: string)
    requires forall q :: q in ps ==> q.id != id
    ensures Without(ps, id) == ps
  {
    if ps != [] {
      assert ps[0] in ps;
      WithoutAbsent(ps[1..], id);
      assert ps == [ps[0]] + ps[1..];
    }
  }

  /** Deleting the same id twice leaves the list as one delete did. */
  lemma WithoutIdempotent(ps: seq<Project>, id: string)
    ensures Without(Without(ps, id), id) == Without(ps, id)
  {
    WithoutAbsent(Without(ps, id), id);
  }

  /** A delete keeps the list free of duplicate ids. */
  lemma {:induction false} WithoutKeepsUnique(ps: seq<Project>, id: string)
    requires UniqueIds(ps)
    ensures UniqueIds(Without(ps, id))
  {
    if ps != [] {
      var rest := ps[1..];
      assert UniqueIds(rest);
      WithoutKeepsUnique(rest, id);
      if ps[0].id != id {
        var t := Without(rest, id);
        var r := [ps[0]] + t;
        forall i, j | 0 <= i < j < |r|
          ensures r[i].id != r[j].id
        {
          if i == 0 {
            assert r[j] in rest;
            var m :| 0 <= m < |rest| && rest[m] == r[j];
            assert ps[m + 1] == r[j];
          } else {
            assert r[i] == t[i - 1] && r[j] == t[j - 1];
          }
        }
      }
    }
  }

  // ---------------------------------------------------------------------------
  // Analytics

  /** `analytics.reduce((sum, day) => sum + day.visits, 0)` */
  function Total(days: seq<DayVisits>): (t: int)
    ensures (forall j :: 0 <= j < |days| ==> days[j].visits == 0) ==> t == 0
  {
    if days == [] then 0 else Total(days[..|days| - 1]) + days[|days| - 1].visits
  }

  /** The total of two consecutive stretches of days is the sum of their totals. */
  lemma {:induction false} TotalAppend(a: seq<DayVisits>, b: seq<DayVisits>)
    ensures Total(a + b) == Total(a) + Total(b)
  {
    if b != [] {
      var ab := a + b;
      assert ab[..|ab| - 1] == a + b[..|b| - 1];
      TotalAppend(a, b[..|b| - 1]);
    } else {
      assert a + b == a;
    }
  }

  /** With no negative day, the total bounds every day's count from above and is not negative. */
  lemma {:induction false} TotalBoundsEachDay(days: seq<DayVisits>)
    requires forall j :: 0 <= j < |days| ==> days[j].visits >= 0
    ensures Total(days) >= 0
    ensures forall j :: 0 <= j < |days| ==> days[j].visits <= Total(days)
  {
    if days != [] {
      var init := days[..|days| - 1];
      TotalBoundsEachDay(init);
      assert forall j :: 0 <= j < |init| ==> init[j] == days[j];
    }
  }
}
