# Portfolio backend and visit bookkeeping, modelled in Dafny

The portfolio site keeps its data in a key-value store behind a small HTTP
backend. The backend takes contact-form submissions, lists them for the admin
and changes their status. It stores portfolio projects, counts visits per day
and reports the last thirty days of visits. It also has a health probe. In the
visitor's browser, the site counts that browser's own visits per day in local
storage, prunes counters older than thirty days, and charts the last seven
days. The admin dashboard loads contacts and analytics, and updates a
contact's status in its own list after the backend accepts the change.

This project models:

- every route handler, as a method on a `KvStore` object whose `data` map is
  the store (`server.dfy`, `kv_store.dfy`);
- the list logic the handlers use: the newest-first sort, the project upsert
  and removal, and the visit total (`listing.dfy`);
- the browser's local storage, as a `Storage` object with ordered keys
  (`browser_storage.dfy`);
- the visit counter with its clean-up loop (`local_visits.dfy`);
- the seven-day chart data and its scale (`local_summary.dfy`);
- the dashboard state and its two update paths (`dashboard.dfy`);
- the number and date texts the code writes and parses back (`text.dfy`).

Modelling decisions:

- A store that cannot be reached is a store whose `online` flag is false. A
  handler tests the flag where its first store call would be and answers as
  its `catch` block does. That is status 500, or 503 with `degraded` for the
  health probe.
- The clock and `Math.random()` are parameters: `now` in milliseconds, and
  `rand` for the random id suffix. A generated id therefore has the source's
  shape, prefix, time, `_`, suffix. That shape keeps contact, project, visit
  and counter keys apart from each other.
- A calendar date is its day number. `DayText` stands for the `YYYY-MM-DD`
  text and `ParseDay` for `new Date(text)`. Parsing the text of a day is
  proved to give that day back.

Invariants kept by every handler that writes:

- `ContactIndexSound`: every id listed under `contact_submissions` names a
  stored contact.
- `ProjectIndexSound`: the ids under `portfolio_projects` are distinct.

## Model

| member | source | states |
|---|---|---|
| KeyValue.FindAll | src/supabase/functions/server/index.tsx:78 | `mget` gives one slot per key, in order, holding that key's value or nothing |
| KeyValue.KvStore.Get | src/supabase/functions/server/index.tsx:96 | `get` returns the stored value, or nothing for an absent key |
| KeyValue.KvStore.MGet | src/supabase/functions/server/index.tsx:78 | `mget` on the current store |
| KeyValue.KvStore.Set | src/supabase/functions/server/index.tsx:48 | `set` replaces the key's value and changes no other key |
| KeyValue.KvStore.Del | src/supabase/functions/server/index.tsx:174 | `del` removes the key, is a no-op when it is absent, and changes no other key |
| Records.IdListOf | src/supabase/functions/server/index.tsx:51 | `get(...) \|\| []` reads an absent or falsy index as the empty list and a stored list as itself |
| Records.ProjectsOf | src/supabase/functions/server/index.tsx:116 | `get('portfolio_projects') \|\| []` reads an absent project list as empty and a stored list as itself |
| Records.CounterOf | src/supabase/functions/server/index.tsx:208 | `get(dailyKey) \|\| 0` reads an absent counter as 0 and a stored number as itself |
| Common.OrElse | src/supabase/functions/server/index.tsx:196-200 | `x \|\| fallback` on text: the fallback exactly when the text is missing or empty |
| Server.Authorized | src/supabase/functions/server/index.tsx:72-75 | only a header that starts with `Bearer ` passes, and every such header passes |
| Server.FreshIdShape | src/supabase/functions/server/index.tsx:37 | a generated id starts with its prefix, followed by a digit of the timestamp |
| Server.SubmitContact | src/supabase/functions/server/index.tsx:28-66 | 400 when a field is missing or empty; otherwise stores the contact as new under a fresh id and appends that id to the contact index; 500 when the store fails or the index is not a list; both index invariants preserved |
| Server.ListContacts | src/supabase/functions/server/index.tsx:69-88 | 401 without a Bearer header, and only then; otherwise the contacts of the index sorted newest first, with missing records last, as a permutation in which contacts with equal timestamps keep their `mget` order; status 401 exactly without the header; 500 on store failure or a malformed index |
| Listing.InsertNewest | src/supabase/functions/server/index.tsx:81 | inserting into a newest-first list keeps it newest first and adds exactly that element |
| Listing.SortNewestFirst | src/supabase/functions/server/index.tsx:80-81 | the result is newest first and a permutation of the input |
| Listing.InsertNewestTied | src/supabase/functions/server/index.tsx:81 | an inserted entry goes ahead of the entries with its own timestamp, and the others with that timestamp keep their order |
| Listing.SortNewestFirstStable | src/supabase/functions/server/index.tsx:80-81 | the sort is stable: for each timestamp, and for the missing records, the entries come out in their `mget` order |
| Server.WithStatus | src/supabase/functions/server/index.tsx:101-102 | a contact, project or visit record gains the status and the update time and keeps every other field; a stored list comes back as it was; a number fails |
| Server.SameKindWriteKeepsIndexes | src/supabase/functions/server/index.tsx:101-104 | writing a contact over a contact, and a list or number over itself, keeps both index invariants |
| Server.UpdateContactStatus | src/supabase/functions/server/index.tsx:91-111 | 404 when the id holds nothing or a falsy value; otherwise whatever the id names is rewritten with the status and update time, and returned; a stored number gives 500; no authorization is read; both index invariants preserved |
| Server.ListProjects | src/supabase/functions/server/index.tsx:114-122 | the stored project list, or the empty list when there is none; the ids are distinct whenever the project invariant holds |
| Server.ProjectIdFor | src/supabase/functions/server/index.tsx:133 | the body's id when it is non-empty text, otherwise a fresh `project_` id; never empty |
| Server.UpsertProject | src/supabase/functions/server/index.tsx:125-161 | 401 without a Bearer header, and only then; otherwise stores the project under `project_<id>` with the body's id or a fresh one, and the project list becomes the list with that project upserted; both index invariants preserved |
| Listing.FindProject | src/supabase/functions/server/index.tsx:146 | `findIndex` by id: the first index with that id, or -1 exactly when no project has it |
| Listing.Upserted | src/supabase/functions/server/index.tsx:146-152 | the first project with the same id is replaced and nothing else changes; without one, the project is appended |
| Listing.UpsertIdempotent | src/supabase/functions/server/index.tsx:145-154 | saving the same project twice leaves the list as saving it once |
| Listing.UpsertKeepsUnique | src/supabase/functions/server/index.tsx:145-154 | an upsert keeps project ids distinct |
| Server.DeleteProject | src/supabase/functions/server/index.tsx:164-186 | 401 without a Bearer header, and only then; otherwise `project_<id>` is gone and the list no longer holds that id; both index invariants preserved |
| Listing.Without | src/supabase/functions/server/index.tsx:178 | the result holds exactly the projects with another id, and is a subsequence of the list |
| Listing.WithoutCounts | src/supabase/functions/server/index.tsx:178 | every copy of a project with another id is kept, and no copy of one with this id |
| Listing.WithoutAbsent | src/supabase/functions/server/index.tsx:177-179 | removing an id no project has leaves the list unchanged |
| Listing.WithoutIdempotent | src/supabase/functions/server/index.tsx:177-179 | deleting a project twice is deleting it once |
| Listing.WithoutKeepsUnique | src/supabase/functions/server/index.tsx:177-179 | removal keeps project ids distinct |
| Server.NewVisit | src/supabase/functions/server/index.tsx:193-201 | a fresh `visit_` id; the page is the given one, or `/` when it is missing or empty; the user agent and referrer are the given ones or empty; the address is the first client header present, else `unknown`; no status yet |
| Server.RecordVisit | src/supabase/functions/server/index.tsx:189-216 | stores the visit under a fresh id with the defaults `/`, empty, empty, and the client address from the first header present; today's counter goes up by one; both index invariants preserved |
| Server.GetAnalytics | src/supabase/functions/server/index.tsx:219-257 | 401 without a Bearer header, and only then; otherwise thirty entries, oldest first, each the counter of its day, with their total, the number of contact ids and the total divided by 30 |
| Listing.Total | src/supabase/functions/server/index.tsx:239 | the sum of a window with no visits is 0 |
| Listing.TotalAppend | src/supabase/functions/server/index.tsx:239 | the total of two consecutive stretches of days is the sum of their totals |
| Listing.TotalBoundsEachDay | src/supabase/functions/server/index.tsx:239 | with no negative counts, the total is at least each day's count |
| Server.HealthCheck | src/supabase/functions/server/index.tsx:260-292 | a reachable store reports healthy with a working database, status 200, and keeps no probe key; an unreachable one reports degraded with status 503 and is unchanged |
| Text.ParseIntText | src/components/Analytics.tsx:13-14 | `parseInt` reads back the number `toString` wrote |
| Text.ParseDayText | src/components/Analytics.tsx:24-25 | parsing the date text of a day gives that day |
| BrowserStorage.Storage.constructor | src/components/Analytics.tsx:13 | a new storage is empty |
| BrowserStorage.Storage.GetItem | src/components/Analytics.tsx:13 | `getItem` returns the stored text, or nothing for an absent key |
| BrowserStorage.Storage.SetItem | src/components/Analytics.tsx:14 | `setItem` stores the text, adding the key at the end when it is new |
| BrowserStorage.Storage.Key | src/components/Analytics.tsx:22 | `key(i)` is the i-th key, or nothing past the end |
| BrowserStorage.Storage.RemoveItem | src/components/Analytics.tsx:27 | `removeItem` drops the key and its text and keeps the order of the others |
| BrowserStorage.RemovedKeepsDistinct | src/components/Analytics.tsx:27 | removing a key keeps the key list free of duplicates |
| LocalVisits.MissingDayIsZero | src/components/Analytics.tsx:13 | a day without a stored counter reads as 0 |
| LocalVisits.IsStale | src/components/Analytics.tsx:23-26 | only a visit key whose date parses can be stale |
| LocalVisits.VisitKeyStale | src/components/Analytics.tsx:23-26 | a day's counter key is stale exactly when that day starts before the cutoff |
| LocalVisits.RecentDayNotStale | src/components/Analytics.tsx:16-28 | the counters of today and the 29 days before it are never pruned |
| LocalVisits.TrackLocalVisit | src/components/Analytics.tsx:9-34 | today's counter holds its old value plus one; every key that was removed was a stale visit key; every other key keeps its text; an unavailable storage is untouched |
| LocalSummary.LoadLocalAnalytics | src/components/LocalAnalytics.tsx:16-38 | seven entries, oldest first, each dated by its day and holding the parsed counter of that day, and their running total; nothing when storage is unavailable |
| LocalSummary.SumVisits | src/components/LocalAnalytics.tsx:19-30 | with no negative or unparsable count, the total is a number, not negative, and at least each day's count |
| LocalSummary.SumVisitsNaN | src/components/LocalAnalytics.tsx:27-30 | the total is NaN exactly when some day's counter does not parse |
| LocalSummary.MaxVisits | src/components/LocalAnalytics.tsx:47 | NaN exactly when some count is NaN; otherwise at least 1 and every count, and equal to 1 or one of the counts |
| Dashboard.AdminDashboard.constructor | src/components/AdminDashboard.tsx:44-47 | the dashboard starts with no contacts, no analytics, loading, and no error |
| Dashboard.AdminDashboard.FetchData | src/components/AdminDashboard.tsx:54-126 | without configuration, the configuration error; an ok contacts answer replaces the list, or empties it when the body has none; an ok analytics answer replaces the report; a request that throws stops the sequence with the timeout or unavailable message; loading always ends |
| Dashboard.AdminDashboard.UpdateContactStatus | src/components/AdminDashboard.tsx:128-167 | after an ok answer every contact with that id takes the new status; otherwise the list is unchanged |
| Dashboard.MarkStatus | src/components/AdminDashboard.tsx:153-156 | same length; each contact with the id has the new status and is otherwise unchanged; every other contact is unchanged |
| Dashboard.MarkStatusIdempotent | src/components/AdminDashboard.tsx:153-156 | marking the same id with the same status twice is marking it once |
| Dashboard.CountNew | src/components/AdminDashboard.tsx:194 | at most the number of contacts; 0 exactly when none is new; all of them exactly when all are new |
| Dashboard.MarkingLowersNewCount | src/components/AdminDashboard.tsx:153-156 | a status other than new never raises the new count, and lowers it when the id had a new contact |
| Dashboard.Recent | src/components/AdminDashboard.tsx:195 | the first five contacts, or all of them when there are fewer |

## Left out

- Hono routing, the CORS and logging middleware, `Deno.serve`, and the Supabase client set-up are not modelled. Each route is one method, called with the request's parsed parts.
- `kv_store.tsx` is not part of this model. The store is a map where `get` on an absent key gives nothing and `mget` looks up each key in order.
- Concurrent requests are not modelled. Each handler runs alone from start to finish, so the lost update two concurrent contact submissions can cause on `contact_submissions` is outside the model.
- A store failure is modelled per request, before the first store call. A failure between two writes, which leaves the first write in place, is not modelled.
- Stored values are typed. Outside the status route, a key that holds a value of an unexpected kind gives the route's 500 answer, while JavaScript would coerce it and go on (`"3" + 1`, `[].push` on an object). The handlers only ever write the kinds the others expect, and both index invariants are preserved. A falsy stored value (the number 0) reads as the `||` default, as in the source. The status route handles every kind of value, since any key can be named by its `:id`.
- Request bodies that are not JSON, and fields that are not text, are not modelled. Both end in the source's `catch` block. A project body is its `id` text plus its other fields.
- Server.UpdateContactStatus: the body's `status` is always present as text. A body without it, which writes `undefined`, is not modelled.
- Dates are day numbers and times are milliseconds since the epoch, both in UTC. The `YYYY-MM-DD` text, time zones, and the daylight-saving shift in `setDate(getDate() - 30)` are not modelled.
- `parseInt` ignores leading whitespace and accepts other prefixes (`0x`). Neither is modelled, since the counters hold only the texts the code writes.
- Floating point is not modelled. Counts are unbounded integers, and `avgVisitsPerDay` is an exact real.
- LocalVisits.TrackLocalVisit: it does not claim that every stale key is removed. `removeItem` shifts the later keys down while the loop index goes on, so the key right after a removed one is skipped. The contract states only what is removed and what is kept.
- A `localStorage` quota error in `setItem` is not modelled. Storage is either available for the whole call or not at all.
- Dashboard.AdminDashboard.FetchData: a thrown value that is not an `Error` is not modelled; it would set the message 'Failed to load dashboard data'. A body that is not JSON throws a `SyntaxError`, which behaves like the `NetworkFailure` outcome of that request.
- The dashboard's contact list holds records only. The `null` slots that `mget` can return for ids without a record are not carried over to the dashboard.
- The ten- and five-second request timers are given as `TimedOut` outcomes of a request, not as clocks.
- Visit tracking against the backend from the browser, the backend status probe, scroll tracking and the `IntersectionObserver` are left out. So are the presentational components, since they render state and change nothing.
