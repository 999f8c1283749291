# neve-webhook in Dafny

This project models the core of neve-webhook, a webhook engine written in Go.

- **Subscription store.** Subscribers register a url, a content type, a secret and the event types they want; this is `memRecorder`. The store keeps three indices:
  - an insertion-ordered id → record map;
  - a url → id map;
  - one insertion-ordered bucket of keys per event type.
- **Dispatch managers.** Given an event, a manager pages through the store by the event's type. It signs each subscriber's secret, sends the event, and records each outcome in the subscriber's success and failure counters. It reports the sign and send errors as one aggregate error. There are two managers:
  - `defaultManager.doNotify` makes one attempt per subscriber and uses no state filter.
  - `blockManager.Notify` only notifies subscribers in state "normal". Its per-subscriber `notify` retries up to `retryCount` times and publishes one response per subscriber.
- **Helpers:**
  - the error collector `ErrorList`;
  - the counter-based id generator;
  - the gin router's `group` path joiner.

## How the model is organised

The modules follow the Go packages.

| Module | Models | Form |
|---|---|---|
| `Recorder` | the records, inputs and query conditions of recorder/recorder.go | datatypes |
| `IdUtils` | recorder/idutils.go | a class |
| `Errors` | errors/errlist.go | a class `ErrorList` over a `seq<Error>`; `Error()` is a loop proved against the pure `Text` |
| `DefaultRecorder` | recorder/default_recorder.go | the classes `MemRecorder` and `SimpleRecorder` |
| `DefaultManager` | manager/default_manager.go | a class `Manager` |
| `BlockManager` | manager/block_manager.go | a class `Manager` |
| `NeveGin` | the `group` function of servers/neve-gin.go | functions |

`MemRecorder`'s fields are the three indices and the generator:

- Each method keeps `Valid()` and ends in the state a pure function of the old state gives: `CreateSpec`, `UpdateSpec`, `UpdateNotifyStatusSpec`, `DeleteSpec` and `QuerySpec` in `StoreSpec`.
- The `Foreach` walks and the bucket loops are methods with loop invariants, proved equal to those functions.
- `StoreLemmas` proves what the store promises about them.

The managers' loops are proved equal to recursive specifications (`DoNotifySpec`, `NotifySpec`) that re-read the store after every page, as the Go loops do. `DispatchSpec` proves two things about the walk those loops make:

- which subscriptions the walk hands out;
- that recording delivery outcomes never changes what later pages return.

`RecorderScenario.LifeCycle` replays recorder/recorder_test.go against `MemRecorder`.

Supporting modules:

- `LinkedMaps` models the external `xmap.LinkedMap`: a key sequence plus a map. `Put` of a new key appends it, `Put` of an existing key keeps its position, and `Delete` removes the key.
- `Decimal` models `strconv.FormatInt(n, 10)` for non-negative `n`.
- `Wrappers` provides `Option` and `Result`.

Three external collaborators are modelled as function values:

- the signer is a `Signer`;
- the HTTP notifier's `Send` is a `Sender`, which is also given the attempt index so that retries can see different outcomes;
- the response deserializer is a `Deserializer`.

Timestamps are integers, and `time.Now()` is a parameter.

The model keeps these behaviours of the code:

- `Update` and `Delete` remove the key `url` from the event buckets, although the buckets hold ids. So a deleted id stays in its buckets and is hidden only by the live-id check of the event-type query (`DeleteOutcome`). An updated id stays live, so it stays subscribed to the event types it dropped: the event-type query still returns it for them, and both managers go on notifying it for them (`UpdateBuckets`, `UpdateKeepsDroppedType`).
- `doNotify` queries with no state filter, so subscriptions in state "abnormal" or "forbidden" are notified too (`DoNotifyIgnoresState`). Only `blockManager` filters on "normal".
- In `blockManager.notify` a signing failure is only logged: it adds no error, and the subscriber publishes an empty response (`NotifyOneOutcome`). In `doNotify` the same failure is collected.
- Paging filters by state inside the window. So a page whose positions hold only stale or non-matching keys ends a manager's loop, and matching subscriptions after it are never notified (`StopsAtFirstEmptyPage`).

## Model

| member | source | states |
|---|---|---|
| Recorder.ToData | recorder/recorder.go:52-60 | copies url, content type, secret, trigger types and state; the id is empty, both counters 0, both times zero |
| Recorder.StatesDistinct | recorder/recorder.go:25-29 | the three hook states "normal", "abnormal" and "forbidden" are pairwise different |
| IdUtils.IdGenerator.constructor | recorder/idutils.go:26-30 | a fresh generator holds 0, so its first `Next` returns 1 |
| IdUtils.IdGenerator.Next | recorder/idutils.go:36-38 | adds one to the counter and returns the new value, which exceeds every earlier one |
| Decimal.FormatInt | recorder/default_recorder.go:87 | the decimal text of an id is non-empty, all digits, with no leading zero |
| Decimal.ParseFormat | recorder/default_recorder.go:87 | parsing the decimal text of `n` gives back `n` |
| Decimal.FormatIntInjective | recorder/default_recorder.go:86-87 | different counter values give different id strings |
| Errors.ErrorList.Add | errors/errlist.go:24-27 | appends the arguments at the end in order, keeps the earlier errors, returns the same list; no arguments change nothing |
| Errors.ErrorList.Empty | errors/errlist.go:29-31 | true exactly when the list holds no error |
| Errors.ErrorList.Error | errors/errlist.go:33-42 | the builder loop yields `Text(errors)`: "Have errors" for an empty list, else "Have errors: " and the messages joined by ", " |
| Errors.TerminatedIsJoinedPlusSeparator | errors/errlist.go:35-41 | the builder holds the joined messages plus exactly one trailing ", ", so cutting the last two characters leaves the joined text |
| Errors.JoinedEndsWithLast | errors/errlist.go:36-41 | the joined text ends with the last message, so no separator trails it |
| LinkedMaps.LinkedMap.Get | recorder/default_recorder.go:112 | finds a value exactly for a present key, and that value is the one stored under the key |
| LinkedMaps.PutValid | recorder/default_recorder.go:92 | `Put` keeps the keys distinct, sets the value, appends a new key and keeps an existing key's position |
| LinkedMaps.DeleteValid | recorder/default_recorder.go:180 | `Delete` keeps the keys distinct, removes exactly that key, and is a no-op for an absent key |
| LinkedMaps.RemoveMembers | recorder/default_recorder.go:180 | removing a key from the order leaves exactly the other keys |
| LinkedMaps.RemoveDistinct | recorder/default_recorder.go:180 | removing a key keeps the remaining keys distinct |
| LinkedMaps.RemoveAbsent | recorder/default_recorder.go:175-182 | removing an absent key changes nothing |
| StoreSpec.AddToBucketsFacts | recorder/default_recorder.go:94-104 | after the bucket loop every trigger type has a bucket holding the id, other buckets are unchanged, no other key appears, buckets stay distinct |
| StoreSpec.DeleteFromBucketsFacts | recorder/default_recorder.go:114-116 | the removal loop takes the key out of the buckets of the listed types only and keeps every other key |
| StoreSpec.NextIdFresh | recorder/default_recorder.go:86-87 | the next generated id is neither a live id nor in any bucket |
| StoreSpec.CreatePreservesInv | recorder/default_recorder.go:74-106 | Create keeps the index invariant: distinct keys, ids matching keys, every live record's trigger types have a bucket, all ids issued by the counter |
| StoreSpec.UpdatePreservesInv | recorder/default_recorder.go:108-149 | Update keeps the index invariant |
| StoreSpec.UpdateNotifyStatusPreservesInv | recorder/default_recorder.go:151-169 | UpdateNotifyStatus keeps the index invariant |
| StoreSpec.DeletePreservesInv | recorder/default_recorder.go:171-184 | Delete keeps the index invariant |
| StoreSpec.QueryPageIsWindow | recorder/default_recorder.go:207-236 | the event-type and unfiltered paths return the state-filtered live records at window positions `[offset*ps, offset*ps+ps)` of the walked keys, and `total` is the store size |
| StoreSpec.PickAppend | recorder/default_recorder.go:259-280 | filtering a walk of two key runs is filtering each run in turn |
| StoreSpec.WindowStep | recorder/default_recorder.go:259-280 | one more walked key joins the window exactly when its position is inside it |
| StoreSpec.WindowPrefix | recorder/default_recorder.go:231-233 | stopping the walk once the window is full loses nothing |
| StoreLemmas.AddToBucketsAppends | recorder/default_recorder.go:94-104 | a fresh id is appended at the end of each trigger bucket |
| StoreLemmas.AddToBucketsKeeps | recorder/default_recorder.go:94-104 | adding to buckets never removes a key |
| StoreLemmas.CreateRejects | recorder/default_recorder.go:78-85 | Create fails exactly for an empty or taken url, with the exact message, and then changes nothing, the counter included |
| StoreLemmas.CreateSucceeds | recorder/default_recorder.go:86-105 | a successful Create returns the decimal of the next counter value, a fresh id, stores the input's record with state "normal" at the end of the order, maps url to id and appends the id to every trigger bucket |
| StoreLemmas.CreateThenQueryById | recorder/default_recorder.go:194-196 | after Create, querying the new id returns exactly the stored record |
| StoreLemmas.CreateThenQueryByEventType | recorder/default_recorder.go:251-282 | after Create, the last page of each trigger type ends with the new record |
| StoreLemmas.UpdateUnknown | recorder/default_recorder.go:134-136 | updating an unknown id fails with "ID … not found " and changes nothing |
| StoreLemmas.UpdateRecord | recorder/default_recorder.go:112-133 | non-empty url, secret, content type and state overwrite, empty ones keep; trigger types are always replaced; counters, times, id and key order are kept; other records unchanged |
| StoreLemmas.UpdateUrls | recorder/default_recorder.go:117-121 | a new non-empty url drops the old url's entry and maps the new url to this id; otherwise the url index is unchanged; other entries kept |
| StoreLemmas.UpdateSharesUrl | recorder/default_recorder.go:117-121 | no uniqueness check: taking another record's url leaves both records with that url and the url index pointing to the updated id |
| StoreLemmas.UpdateBuckets | recorder/default_recorder.go:114-147 | the id joins every new trigger bucket; only the key equal to the new url leaves the old buckets; no key but the id is added |
| StoreLemmas.UpdateKeepsDroppedType | recorder/default_recorder.go:114-116 | an update without a new url that drops event type `e` from a live id leaves the id in `e`'s bucket, so the event-type query for `e` still returns the updated record |
| StoreLemmas.UpdateNotifyStatusOutcome | recorder/default_recorder.go:151-169 | on a live id exactly one counter grows by one with its time set and nothing else changes; on an unknown id, the exact error and no change |
| StoreLemmas.DeleteOutcome | recorder/default_recorder.go:171-184 | a live id leaves the order and the record map and its url leaves the url index; buckets only lose the url key, so a stale id stays; an absent id changes nothing |
| StoreLemmas.RemoveLength | recorder/default_recorder.go:180 | deleting a present key shortens the order by one |
| StoreLemmas.DeleteIdempotent | recorder/default_recorder.go:171-184 | deleting twice is deleting once |
| StoreLemmas.QueryTotal | recorder/default_recorder.go:190-193 | `total` is the number of live ids on every path, and page size 0 behaves as 20 |
| StoreLemmas.QueryLookups | recorder/default_recorder.go:194-249 | the id and url paths return at most one record, exactly the live one, or the exact "not found" error |
| StoreLemmas.PickMembers | recorder/default_recorder.go:265-274 | a record is returned exactly when its key is walked, live and matches the state filter; never more records than keys |
| StoreLemmas.WindowMembers | recorder/default_recorder.go:255-264 | the window holds exactly the keys at positions `[skip, skip+size)` and at most `size` of them |
| StoreLemmas.QueryPage | recorder/default_recorder.go:207-285 | the paging paths never fail, return at most a page, only live records stored under their own id, only matching states, each exactly when its key sits in the window |
| StoreLemmas.WindowConcat | recorder/default_recorder.go:213 | consecutive windows join into one window |
| StoreLemmas.PagesJoin | recorder/recorder.go:68-71 | the first `m` pages together are the filtered window of the first `m*pageSize` positions |
| StoreLemmas.PagesCover | recorder/recorder.go:68-71 | enough pages together return every matching live record in order |
| DefaultRecorder.AddToEventBuckets | recorder/default_recorder.go:94-104 | the bucket loop ends with the buckets `AddToBuckets` gives |
| DefaultRecorder.DeleteFromEventBuckets | recorder/default_recorder.go:114-116 | the removal loop ends with the buckets `DeleteFromBuckets` gives |
| DefaultRecorder.WalkPage | recorder/default_recorder.go:255-280 | the `Foreach` walk with its skip and take counters returns the state-filtered live records of the window |
| DefaultRecorder.MemRecorder.constructor | recorder/default_recorder.go:60-68 | empty indices and a fresh generator |
| DefaultRecorder.MemRecorder.Create | recorder/default_recorder.go:74-106 | new state and result are `CreateSpec` of the old state, and the invariant holds |
| DefaultRecorder.MemRecorder.Update | recorder/default_recorder.go:108-149 | new state and result are `UpdateSpec` of the old state, and the invariant holds |
| DefaultRecorder.MemRecorder.UpdateNotifyStatus | recorder/default_recorder.go:151-169 | new state and result are `UpdateNotifyStatusSpec` of the old state |
| DefaultRecorder.MemRecorder.Delete | recorder/default_recorder.go:171-184 | new state is `DeleteSpec` of the old state; the result is always no error |
| DefaultRecorder.MemRecorder.Query | recorder/default_recorder.go:186-236 | the result is `QuerySpec` of the current state |
| DefaultRecorder.MemRecorder.QueryByUrl | recorder/default_recorder.go:238-249 | the url lookup, its two "not found" cases included |
| DefaultRecorder.MemRecorder.QueryByEventType | recorder/default_recorder.go:251-285 | the bucket walk; a missing or empty bucket gives an empty page; never an error |
| DefaultRecorder.SimpleRecorder.Create | recorder/default_recorder.go:291-297 | delegates to the in-memory store |
| DefaultRecorder.SimpleRecorder.Query | recorder/default_recorder.go:299-305 | delegates to the in-memory store |
| DefaultRecorder.SimpleRecorder.Update | recorder/default_recorder.go:307-313 | delegates to the in-memory store |
| DefaultRecorder.SimpleRecorder.UpdateNotifyStatus | recorder/default_recorder.go:315-321 | delegates to the in-memory store |
| DefaultRecorder.SimpleRecorder.Delete | recorder/default_recorder.go:323-329 | delegates to the in-memory store |
| RecorderScenario.LifeCycle | recorder/recorder_test.go:25-91 | every error the test fails on (Create, the id and "push" queries, Update, Delete, the final query) is None; create gives id "1"; the id and "push" queries each return that one record; after the url update it reads "world"; after Delete the unfiltered query is empty |
| RecorderScenario.CreateAndFind | recorder/recorder_test.go:26-59 | in an empty store, Create of a "push" subscription gives id "1" and no error; the id and "push" queries return exactly that record, without error |
| RecorderScenario.UpdateAndDelete | recorder/recorder_test.go:61-91 | with one live subscription, Update to url "world" succeeds and the id query returns the record with that url and no trigger types; Delete and the following unfiltered query succeed and the query is empty |
| DispatchSpec.TargetsOf | manager/default_manager.go:134 | one delivery target per record of a page |
| DispatchSpec.PageIsQuery | manager/default_manager.go:122-126 | the page the walk reads is the store's answer to the manager's query by event type, state, offset and page size |
| DispatchSpec.PageInRange | manager/default_manager.go:130-133 | a non-empty page starts inside the walked keys, so the paging loops end |
| DispatchSpec.TargetsWindow | manager/default_manager.go:121-134 | the pages up to the first empty one hand out exactly the filtered live records of the window before that page |
| DispatchSpec.QueryCountBound | manager/default_manager.go:121-133 | the first empty page comes at most ceil(n/pageSize) pages in for n walked keys |
| DispatchSpec.TargetsComplete | manager/block_manager.go:90-106 | when no page runs empty early, every matching live subscription is handed out once, in key order |
| DispatchSpec.StopsAtFirstEmptyPage | manager/block_manager.go:100-102 | no key at or after the first empty page's start is ever handed out, however many matching subscriptions follow |
| DispatchSpec.HandsOutBeforeFirstEmptyPage | manager/default_manager.go:121-134 | every matching live subscription keyed before the first empty page is handed out |
| DispatchSpec.TargetsMatch | manager/block_manager.go:90-96 | every handed-out target is a live record matching the state filter |
| DispatchSpec.StatusKeepsShape | recorder/default_recorder.go:156-164 | recording an outcome changes only counters and times |
| DispatchSpec.ShapeTargets | manager/default_manager.go:121-155 | stores differing only in counters and times page identically |
| DefaultManager.DeliverKeepsShape | manager/default_manager.go:134-156 | delivering a page changes no part of the store the walk reads |
| DefaultManager.DeliverAppend | manager/default_manager.go:134-156 | delivering two runs of targets is delivering them in turn |
| DefaultManager.DoNotifyDeliversTargets | manager/default_manager.go:121-157 | the paging loop delivers to exactly the walk's targets over the initial store, in order |
| DefaultManager.ErrorsOf | manager/default_manager.go:135-145 | one error per subscriber that fails to sign or to send |
| DefaultManager.DeliverErrors | manager/default_manager.go:135-145 | the errors appended are exactly `ErrorsOf`: each failing subscriber's sign error, or else its send error, in order, after the earlier ones; nothing else adds errors |
| DefaultManager.DeliverCounters | manager/default_manager.go:141-155 | each signed target gets exactly one status update: success count grows by its successful sends, failure count by its failed sends, times set to the one `now`; sign failures record nothing |
| DefaultManager.DoNotifyOutcome | manager/default_manager.go:117-163 | the errors are exactly each failing target's sign or send error in walk order (`ErrorsOf`), so none exactly when every target signs and sends; counters grow by outcomes; the walked part of the store is unchanged |
| DefaultManager.FailuresZero | manager/default_manager.go:159-162 | no failures exactly when every target signs and sends |
| DefaultManager.DoNotifyIgnoresState | manager/default_manager.go:122-126 | with no state filter, subscriptions in any state before the first empty page are delivered to |
| DefaultManager.DoNotifyQueryBound | manager/default_manager.go:121-133 | at most ceil(n/1024)+1 queries |
| DefaultManager.Manager.DoNotify | manager/default_manager.go:117-163 | the loop ends in `DoNotifySpec`'s store; the result is no error exactly when no error was collected, else the collected errors; it makes first-empty-page + 1 queries |
| DefaultManager.DoNotifyQueryCount | manager/default_manager.go:121-132 | the paging loop makes one query per page up to and including the first empty page of the walk |
| DefaultManager.Manager.DeliverRound | manager/default_manager.go:122-156 | one query-and-deliver round: an empty page changes nothing and ends the walk; otherwise the store and errors are those of delivering the page, and the walk goes on from the next page |
| DefaultManager.Manager.DeliverPage | manager/default_manager.go:134-156 | signing and sending to each record of a page in turn ends in `Deliver`'s store and errors for that page's targets |
| BlockManager.FirstOk | manager/block_manager.go:135-169 | the first attempt whose send succeeds, within the retry count; every attempt before it fails, and without one every attempt fails |
| BlockManager.SendErrors | manager/block_manager.go:136-138 | one error per attempt when every attempt fails |
| BlockManager.AttemptsErrors | manager/block_manager.go:135-170 | the retry loop appends exactly the errors of the failed sends before the first success, then that success's decoding error (`AttemptErrors`) |
| BlockManager.AttemptsKeepShape | manager/block_manager.go:135-170 | retries change only counters and times |
| BlockManager.NotifyAllKeepsShape | manager/block_manager.go:104-106 | notifying a page changes no part of the store the walk reads |
| BlockManager.NotifyAllAppend | manager/block_manager.go:104-106 | notifying two runs of targets is notifying them in turn |
| BlockManager.NotifyNotifiesTargets | manager/block_manager.go:90-107 | the paging loop runs `notify` for exactly the walk's targets over the initial store, in order, each once |
| BlockManager.AttemptsOutcome | manager/block_manager.go:135-170 | without success every remaining attempt adds a failure stamped `now` and its send error, and the response is the last failure; otherwise the failures before the first success (stamped `now`), one success at `now`, the decoded response, and the errors are those sends' errors then the decoding error; at most the remaining attempts |
| BlockManager.AttemptsUrl | manager/block_manager.go:135-170 | any attempt leaves a response for the subscriber's url; no attempt changes nothing |
| BlockManager.NotifyOneOutcome | manager/block_manager.go:114-133 | a sign failure or a retry count ≤ 0 records nothing, adds no error and publishes an empty response; otherwise the response is for the subscriber's url |
| BlockManager.NotifyAllResponses | manager/block_manager.go:104-127 | one response per notified target, in order, each for that target's url |
| BlockManager.NotifyErrorsEmpty | manager/block_manager.go:129-170 | a subscriber's `notify` collects no error exactly when signing fails, no attempt is allowed, or the first send succeeds and its reply decodes |
| BlockManager.AllNotifyErrorsEmpty | manager/block_manager.go:104-106 | a run collects no error exactly when every subscriber is clean |
| BlockManager.NotifyOneErrors | manager/block_manager.go:114-171 | one subscriber's `notify` appends exactly its own errors: none after a sign failure, else its retry loop's |
| BlockManager.NotifyAllErrors | manager/block_manager.go:104-106 | the errors of a run are the concatenation of each subscriber's errors, in order |
| BlockManager.AttemptsOthers | manager/block_manager.go:145-153 | the retry loop for one id leaves every other record unchanged |
| BlockManager.NotifyOneCounters | manager/block_manager.go:114-171 | on a live id, its own subscriber's successful attempt adds one success and its failed attempts add failures, each stamped `now`; other subscribers leave it unchanged |
| BlockManager.NotifyAllCounters | manager/block_manager.go:104-106 | per live subscription, success count grows by its successful subscribers and failure count by their failed attempts, with times stamped `now` exactly when a count grew |
| BlockManager.NotifyOutcome | manager/block_manager.go:86-112 | one response per target of the walk over the initial store; each target is a live subscription in state "normal"; the errors are each target's errors in order, none exactly when every target is clean; per live subscription the counters grow by its successes and failed attempts; the walked part of the store is unchanged |
| BlockManager.Manager.Notify | manager/block_manager.go:86-112 | the loop ends in `NotifySpec`'s store and responses; the error is present exactly when errors were collected |
| BlockManager.Manager.NotifyPage | manager/block_manager.go:104-106 | running `notify` for each record of a page in turn ends in `NotifyAll`'s store, errors and responses for that page's targets |
| BlockManager.Manager.NotifyOne | manager/block_manager.go:114-171 | the retry loop ends in `NotifyOneSpec`'s store, errors and response |
| NeveGin.Group | servers/neve-gin.go:188-206 | an empty route gives the group, an empty group gives the route, otherwise the result starts with '/'; it always ends with the route |
| NeveGin.GroupJoin | servers/neve-gin.go:195-205 | with `core` the text before the route less the '/' inserted when the route lacks one: a rooted group ending in '/' equals `core` + "/", any other rooted group equals `core`; so exactly one trailing '/' is dropped whenever there is one |
| NeveGin.GroupKeepsDoubleSlash | servers/neve-gin.go:198-204 | only one trailing '/' is dropped: "/a//" joined with "b" is "/a//b" |

## Left out

- Concurrency is not modelled:
  - The store's readers-writer lock is left out; each store operation is atomic.
  - `blockManager` runs one goroutine per subscriber; here the subscribers run one after the other, in page order.
  - The deferred publish in `notify` races against context cancellation; here every response is published.
  - `respChan` is never closed and its capacity of 256 is not enforced.
  - `Notify` checks `errList.Empty()` right after spawning its goroutines; the model reads the errors after all subscribers have finished. That is one possible interleaving.
- The time source is one `now` per `Notify`. In the Go code each `notify` goroutine reads its own clock.
- The manager lifecycle is left out: `Start`, `Close`, `BeanAfterSet`, `BeanDestroy`, the background `loop` and `defaultManager.Notify`, which only enqueues. They are channel and context plumbing.
- The event pool (events/default_event_pool.go) is not part of this model; it is a wrapper over a Go channel.
- The signer, the HTTP notifier and the response deserializer are modelled as functions passed in:
  - HMAC signing and HTTP transport are not modelled.
  - The notify timeout (15 seconds) is not modelled; a timed-out send is a send that fails.
- The managers work over `MemRecorder` rather than any `Recorder`.
- The managers' query-error branch is left out of the model: the event-type path of the in-memory store never errors (`QueryPage`).
- `SimpleRecorder` models the single in-memory filter only; a filter that fails is not modelled.
- `notify` in manager/block_manager.go takes its error list as a value of type `errors.ErrorList`, while `Notify` passes a `*errors.LockedErrList`. The code of that type is not part of this model. The model treats it as one collector that all subscribers share, so every error recorded by `notify` reaches `Notify`.
- Counters, offsets and ids are unbounded integers; int64 overflow is not modelled.
- Timestamps are integers, and the zero time is 0.
- A negative page size on the unfiltered path panics in Go (`make` with a negative capacity). `MemRecorder.Query` requires that this case does not occur (`QueryAllowed`).
- Payloads are strings, not Go `interface{}` values.
- Logging is left out.
- The gin handlers and routes are not part of this model, apart from `group`. The same holds for the clients, services and examples.
