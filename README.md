# GitHub activity monitor, modelled in Dafny

The system receives GitHub webhooks, stores one activity entry per push,
opened pull request or merged pull request in a MongoDB collection, serves
the stored entries at `GET /api/logs`, and shows them in a browser page that
polls that endpoint. This project models the three parts that carry the
logic:

- the webhook receiver (`app/webhook/routes.py`). `Webhook.Dispatch` maps
  the `X_GITHUB_EVENT` header and the payload to a reply. `Webhook.PushEntry`,
  `Webhook.PullRequestEntry` and `Webhook.MergeEntry` build the entry.
  `Webhook.Receiver` and the `Log*` methods append the entry to a
  `Store.Collection`, a class whose `docs` sequence `insert_one` extends;
- the logs endpoint (`app/api/routes.py`). `Api.EntryMapper` projects a
  document, `Api.MapAll` maps the whole cursor, and `Api.GetLogs` returns
  200 or the all-or-nothing 500;
- the page controller `GitHubActivityMonitor` (`app/static/script.js`):
  - `Feed` holds its pure parts: the icon table, the CSS class derived from
    the action, and the message templates;
  - `Monitor` holds the class itself. Its fields stand for the page regions,
    the first-load flag and the poll handle. `FetchLogs` takes the outcome
    of the fetch as a parameter, and `DisplayLogs` sorts the received array
    in place before appending one row per log.

Supporting modules:

- `Json` models the parsed request body and the Python operations applied
  to it: subscription, `dict.get`, truthiness and `str()`;
- `Numerals` models decimal and hexadecimal rendering, with round trips, for
  `str()` of an int and of an ObjectId;
- `Text` models JavaScript's `toLowerCase` and first-occurrence `replace`,
  and Python's `split('/')[-1]`.

The abstract state machine `Monitor.Step` summarises what one fetch does to
the page: the first-load flag, the status dot, what the feed shows, and the
empty-state panel. `FetchLogs` is proved to move the object's first-load
flag, status, panel and the kind of thing its feed shows exactly as `Step`
does; its own contract pins the feed's rows as well. The lemmas about
`Monitor.Run` (a run of fetches) state the page's promises over any number
of polls.

Python and Flask behaviour that the model writes out:

- `request.get_json(force=True)` answers 400 to a body that is not JSON
  before the header is looked at;
- `.get` on a payload that is not a dict raises, and `receiver` does not
  catch it, so the reply is a 500;
- every error while building or inserting an entry is swallowed by the
  `log_*` functions, so the request is still answered 200 `{}`;
- the pydantic `str` fields accept JSON strings only;
- `_id` is a private attribute of `EntrySchema`, so the dump leaves it out
  and the database assigns a fresh ObjectId;
- `str()` of an int is its decimal form, and `str()` of an ObjectId is its
  24-digit lower-case hexadecimal form.

## Model

| member | source | states |
|---|---|---|
| Numerals.ReadShowInt | app/webhook/routes.py:64 | reading back the decimal `str()` of any int, negative included, gives the int |
| Numerals.HexId | app/api/routes.py:10 | an ObjectId prints as hexadecimal digits, exactly 24 of them while it fits in 96 bits |
| Numerals.HexIdRoundTrip | app/api/routes.py:10 | the hexadecimal `id` read back gives the ObjectId's number |
| Numerals.HexIdInjective | app/api/routes.py:10 | distinct ObjectIds are listed under distinct `id` strings |
| Json.PathConcat | app/webhook/routes.py:47-53 | subscribing along a chain of keys is subscribing along its first part and then along the rest, and fails when the first part fails |
| Json.GetOnDict | app/webhook/routes.py:34-36 | on a dict, `.get` gives what subscription gives where that succeeds, and None where subscription would raise |
| Text.ReplaceFirst | app/static/script.js:83 | `replace` with a one-character pattern changes only its first occurrence and leaves a string without it unchanged |
| Text.LastSegmentIsSuffix | app/webhook/routes.py:51-52 | `split('/')[-1]` is a slash-free suffix of the ref that is either the whole ref or preceded by a slash |
| Text.LastSegmentAfterSeparator | app/webhook/routes.py:51-52 | anything ending in `/` followed by a slash-free name gives that name |
| Text.BranchOfRef | app/webhook/routes.py:51-52 | "refs/heads/" + name gives name for every slash-free branch name |
| Store.Show | app/api/routes.py:10 | `str()` of a string is itself, and of an ObjectId exactly its 24-digit lower-case hexadecimal text (HexId), which reads back to its number |
| Store.Collection.InsertOne | app/webhook/routes.py:55 | `insert_one` appends the document with a fresh `_id`, or raises and stores nothing; ObjectIds stay distinct |
| Webhook.ActionValue | app/webhook/routes.py:10-13 | Push is stored as "PUSH", PullRequest as "PULL_REQUEST" and Merge as "MERGE", each exactly |
| Webhook.ActionValueInjective | app/webhook/routes.py:10-13 | distinct actions are stored under distinct names |
| Webhook.Dump | app/webhook/routes.py:15-22 | the dumped entry holds exactly the six schema fields, all strings, and no `_id` |
| Webhook.Stored | app/webhook/routes.py:71 | the stored document is the dump plus the `_id` the database assigned |
| Webhook.PushEntry | app/webhook/routes.py:45-54 | a push entry exists exactly when the four fields are present with the right types; both branches are the last segment of `ref`, and the request id is `str()` of the commit id |
| Webhook.PullRequestEntry | app/webhook/routes.py:61-70 | a pull-request entry exists exactly when its five fields are present; the branches come from `head.ref` and `base.ref` and the time from `created_at` |
| Webhook.MergeAuthor | app/webhook/routes.py:81 | the read fails when `pull_request` is missing or not a dict; otherwise the author is `merged_by.login` (or fails when that is not a string) when `merged_by` is truthy, and "unknown" when it is absent or falsy |
| Webhook.MergeEntry | app/webhook/routes.py:77-86 | a merge entry exists exactly when its fields are present; the author follows MergeAuthor and the time comes from `closed_at` |
| Webhook.LogEntry | app/webhook/routes.py:55-59 | a built entry is appended under the next ObjectId; a failure to build or to insert stores nothing and raises nothing |
| Webhook.LogPushRequest | app/webhook/routes.py:45-59 | handling a push appends exactly what Written gives |
| Webhook.LogPullRequest | app/webhook/routes.py:61-75 | handling an opened pull request appends exactly what Written gives |
| Webhook.LogMergeRequest | app/webhook/routes.py:77-91 | handling a merged pull request appends exactly what Written gives |
| Webhook.Written | app/webhook/routes.py:56-59 | a handler writes at most one document, writes one exactly when the entry builds and the database accepts writes, and that document is the built entry stored under the next ObjectId |
| Webhook.Dispatch | app/webhook/routes.py:24-43 | non-JSON gives 400; a missing header gives 400 "Missing X_GITHUB_EVENT header"; any other event than push or pull_request gives 400 "Unhandled event type"; push, opened, and closed-and-merged choose their handler; `.get` on a non-dict gives 500; every other pull_request action, closed-but-not-merged included, is answered 200 with no handler |
| Webhook.Receiver | app/webhook/routes.py:24-43 | the reply is the dispatch's, and the collection grows by exactly the chosen handler's document |
| Webhook.AtMostOneEntry | app/webhook/routes.py:31-43 | a request stores at most one entry; a non-200 reply stores nothing; 200 means a handler (or none) was chosen |
| Api.EntryMapper | app/api/routes.py:8-17 | a mapped log has exactly the seven keys, `id` is `str(_id)` and the other six are copied; a document missing a key cannot be mapped |
| Api.MapAll | app/api/routes.py:23 | the cursor maps to one record per document in order, or fails as a whole when one document fails |
| Api.GetLogs | app/api/routes.py:19-26 | 200 exactly when every document has the required keys, with the mapped records in cursor order; otherwise 500 `{"error": "Failed to fetch logs"}` |
| Api.StoredEntryIsListed | app/api/routes.py:8-17 | an entry the receiver stored is listed field for field and can be decoded back to the same entry |
| Api.ReceiverCollectionIsListed | app/api/routes.py:19-26 | a collection written only by the receiver is always served with 200, one listed record per stored document, in cursor order |
| Feed.Kind | app/static/script.js:111-122 | the switch on `log.action` recognises exactly PUSH, PULL_REQUEST and MERGE |
| Feed.GetActionIcon | app/static/script.js:95-102 | the up-arrow for PUSH, the arrows for PULL_REQUEST and MERGE, and the memo glyph exactly for every other action |
| Feed.IconLookupAsWritten | app/static/script.js:96-101 | the object lookup is undefined exactly for unknown names that are not members of `Object.prototype` |
| Feed.InheritedNameIsNotAnIcon | app/static/script.js:101 | an action named "toString" gets the inherited function, not the memo glyph |
| Feed.IconAsWrittenAgrees | app/static/script.js:95-102 | the lookup as written gives getActionIcon's glyph exactly for names outside `Object.prototype` |
| Feed.ClassName | app/static/script.js:83 | the class is the lower-cased action, same length, with its first underscore (if any) turned into a hyphen |
| Feed.ClassNameFirstUnderscoreOnly | app/static/script.js:83 | only the first underscore becomes a hyphen, and every later one stays |
| Feed.TwoWordClass | app/static/script.js:83 | "A_B" with `_` not in A gives lower(A) + "-" + lower(B) |
| Feed.PullRequestClass | app/static/script.js:83 | PULL_REQUEST gives "pull-request" |
| Feed.FromBranchSpan | app/static/script.js:106-108 | the source branch is printed as empty exactly when it is absent or "", and otherwise as its activity-branch span |
| Feed.FormatMessage | app/static/script.js:104-124 | the exact PUSH, PULL_REQUEST, MERGE and default templates, with author and branches in their spans |
| Feed.MessageFrame | app/static/script.js:104-124 | every message starts with the author span and ends with the target-branch span |
| Feed.CreateActivityItem | app/static/script.js:74-93 | a row is built from the helpers `createActivityItem` calls: its class is "activity-icon " plus ClassName of the action ("activity-icon pull-request" for PULL_REQUEST), its icon is GetActionIcon's glyph (the memo glyph exactly for unknown actions), its message is FormatMessage's template (opening with the author span and closing with the target-branch span), and it keeps the log's timestamp |
| Feed.Items | app/static/script.js:68-71 | one row per log, in the same order |
| Monitor.Timers.SetInterval | app/static/script.js:24-26 | a new positive handle that was not active is added to the active timers |
| Monitor.Timers.ClearInterval | app/static/script.js:172 | the handle is no longer active |
| Monitor.StatusName | app/static/script.js:144-147 | the dot's class names connecting, connected and error, one per status |
| Monitor.Step | app/static/script.js:29-58 | one fetch keeps the first-load flag only when it fails; the dot ends in error exactly for a failure or a body that is not a list; the placeholder is up exactly after a failure on first load or when it was up and nothing was displayed; the empty-state panel is shown after an empty response and otherwise kept unless rows were displayed |
| Monitor.ShapeOf | app/static/script.js:29-58 | a fetch ends as a failure, a falsy or empty body, a non-empty list, or a truthy body that is not a list |
| Monitor.FirstLoadSurvives | app/static/script.js:9 | after any run of fetches the first-load flag is still set exactly when it was set before and every fetch failed |
| Monitor.NoBannerAfterFirstResponse | app/static/script.js:46-53 | once a response has reached displayLogs, no later failure shows the error placeholder |
| Monitor.BannerExactly | app/static/script.js:42-58 | from a fresh page the placeholder is up exactly when the first fetch failed and every later one failed or threw |
| Monitor.BannerKept | app/static/script.js:42-58 | a shown placeholder stays exactly as long as no response is displayed |
| Monitor.StatusOfLastFetch | app/static/script.js:29-50 | after a run the status dot shows how the last fetch ended: connected if it was displayed, error otherwise |
| Monitor.GitHubActivityMonitor.constructor | app/static/script.js:2-27 | starts with the first-load flag set and the page's own markup, runs the first fetch and keeps a fresh interval handle; after that fetch the feed holds its sorted rows, is empty, shows the placeholder (any failure, the flag being set) or keeps the page markup (a body that is not a list), and the caption, dot class, `lastUpdated` and event order are those of that fetch |
| Monitor.GitHubActivityMonitor.StartPolling | app/static/script.js:19-27 | one complete fetch, with everything FetchLogs promises about the feed, caption, dot class, `lastUpdated` and event order, then a new active interval whose handle is kept |
| Monitor.GitHubActivityMonitor.UpdateStatus | app/static/script.js:144-147 | sets the dot's class to "status-dot " followed by the status name, and the caption, and nothing else |
| Monitor.GitHubActivityMonitor.ShowEmptyState | app/static/script.js:155-158 | clears the feed and shows the empty-state panel, nothing else |
| Monitor.GitHubActivityMonitor.ShowError | app/static/script.js:160-168 | the feed shows the error placeholder, nothing else changes |
| Monitor.GitHubActivityMonitor.DisplayLogs | app/static/script.js:52-72 | clears the first-load flag; a falsy or empty body shows the empty state; a list is sorted newest first in place, as a permutation, and shown one row per log in that order with the panel hidden; another body throws with the feed untouched |
| Monitor.GitHubActivityMonitor.ShowRows | app/static/script.js:65-71 | the feed is cleared, the panel hidden, and one row appended per log in array order |
| Monitor.GitHubActivityMonitor.FetchLogs | app/static/script.js:29-50 | the abstract state moves as Step on the outcome's shape; the feed holds the sorted rows, is emptied, shows the placeholder (failure on first load) or stays exactly as it was (a later failure, or a body that is not a list); the status goes to connecting first, and to connected only after rendering, with `lastUpdated` stamped; otherwise it goes to error |
| Monitor.GitHubActivityMonitor.Destroy | app/static/script.js:170-174 | clears the poll's interval when one was started, and nothing else |
| Monitor.SortNewestFirst | app/static/script.js:60-63 | afterwards timestamps never increase along the array, and it holds the same logs |
| Monitor.Insert | app/static/script.js:61-63 | one insertion step: the sorted prefix grows by one and the array stays a permutation |

## Left out

- The browser I/O is left out: `fetch`, `setInterval`/`clearInterval` timing, `console.error` and the DOM lookups. The fetch's result is the `Outcome` parameter of `FetchLogs`; the timers are the `Monitor.Timers` object; the page regions are fields.
- `formatTimestamp` and `updateLastUpdated` depend on `Date` and `Intl` locale formatting. The time string is the `now` parameter of `FetchLogs`, and a row keeps the raw timestamp.
- Timestamps arrive already parsed to integers, so `new Date` of an unparsable string (NaN in the comparator) is not modelled.
- The HTML markup of a row (`createActivityItem`'s `innerHTML`) is not modelled. `Feed.Item` keeps the icon class, the icon, the message and the timestamp.
- Overlapping fetches between timer ticks (event-loop concurrency) are not modelled: every fetch runs to completion.
- The page lifecycle wiring (`DOMContentLoaded`, `beforeunload`) is not modelled. `window.monitor` is never assigned, so `destroy` is never reached in the page.
- Monitor.GitHubActivityMonitor.constructor: takes the first fetch's outcome and completes that fetch before the interval is registered. In the browser the handle is stored while the first fetch is still in flight; no observable state differs.
- Monitor.GitHubActivityMonitor.DisplayLogs: a log whose `action` is not a string (the row build throws after some rows were appended) and a body such as `{"length": 0}` (treated as empty by the page) are outside the `Body` type.
- Monitor.SortNewestFirst: does not state that logs with equal timestamps keep their order, although `Array.prototype.sort` is stable and the insertion sort is too.
- Feed.ClassName: lower-cases ASCII letters only. `toLowerCase` also maps other Unicode letters.
- Json.PyStr: renders lists and dicts as the empty string instead of Python's `repr`. This only affects a `request_id` whose id is a container.
- Json: JSON floats are not modelled. Numbers are integers.
- Store.Collection.InsertOne: appends to `docs`, the order an unsorted `find()` returns. MongoDB's natural order is not promised to be insertion order; the model assumes it is.
- Store.Collection.InsertOne: ObjectIds are a counter, not timestamp, machine and counter bytes. A document that already carries `_id` is excluded by its precondition, because the receiver never inserts one.
- Flask's JSON serialisation of replies, blueprint registration, the app factory, the Mongo client and configuration are framework plumbing and are left out. So are pydantic's validation internals apart from the record shape, and the `print` calls.

## Findings

| source | as written | input that shows it | evidently intended | confidence | as-written member | corrected member |
|---|---|---|---|---|---|---|
| app/static/script.js:96-101 | `icons[action] \|\| "📝"` looks `action` up on an ordinary object literal, so names inherited from `Object.prototype` are found too | a log whose action is "toString" (or "constructor", "valueOf", "__proto__") gets a function or object as its icon instead of 📝 | every action other than PUSH, PULL_REQUEST and MERGE gets 📝 | not executed | Feed.InheritedNameIsNotAnIcon | Feed.GetActionIcon |
