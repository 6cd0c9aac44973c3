# Call-state reconciliation: a Dafny model

This project models the webhook route of a small telephony service and the
`deepMerge` helper it ships with.

The route receives lifecycle events for calls from a call-control API. Every
active call lives in one list of call records, the *snapshot*, kept under a
single cache key (`call:data`) with a 3600-second lifetime. A `POST` event can
do one of three things:

- `call.new` creates a call. It gets destination `'901'` when its caller's
  number is already in the snapshot, and `'900'` otherwise.
- `call.standby` first checks that the call is stored in `call.new`. It then
  posts a `delegate` action to the call-control API, and commits the new type
  only when that request succeeds.
- Any other type is checked against the predecessor table and replaces the
  stored type.

`GET` returns the snapshot without its finished calls. `deepMerge` overlays
one object onto another recursively, in place.

Modules:

- `Lifecycle` (lifecycle.dfy): the predecessor table and its chain property.
- `Calls` (calls.dfy): the call record and the snapshot computations, as pure
  functions with lemmas. These are `_validate`, the destination choice, the
  `call.new` and transition snapshots, the read-side filter and the
  required-field list.
- `Webhook` (webhook.dfy): one pure *step* function per `callStatus` branch.
  A step gives the snapshot afterwards, whether the handler wrote it, the
  response, and the payload posted. A `Cache` class holds the snapshot.
  The handlers are methods of the module that take a `Cache`; they are
  proved to do what the steps say. Lemmas about the steps complete the
  module.
- `Scenarios` (scenarios.dfy): the route's test cases on the suite's sample
  call, checked by the verifier against the handler contracts.
- `Json`, `DeepMerge` (json.dfy, deepmerge.dfy): JavaScript values, the pure
  overlay `Merge`, and `DeepMergeInPlace`. That method is a loop over the
  source's keys on two mutable objects, proved equal to `Merge`.
- `Lists` (lists.dfy): JavaScript's `filter` and `some`. `Wrappers`: `Option`.

Modelling choices:

- An absent record field is `None`. JavaScript's `undefined === undefined`
  is then `None == None`.
- A record names four fields: `type`, `call_id` and `their_number`, which
  `callStatus` reads, and `destination`, which it overwrites. All other
  fields are carried in `extra`. A well-formed record (`Calls.WellFormed`)
  has none of the four in `extra`, as a JavaScript object has each key once.
  Bodies are required to be well formed.
- `_beforeThan[type]` is a `Lookup`: a stage, `undefined`, or an inherited
  member of `Object.prototype` (`constructor`, `toString`, `__proto__`, ...),
  which a JavaScript object lookup also finds.
- The outbound request is an `Outcome` parameter: `Ok(response)` or
  `Err(err.response.data)`.
- `Cache.writes` counts the writes to the cache, so "no write" can be stated.

Where the code and the design description disagree, the model follows the
code:

- Replaying the same `call.new` does not keep its destination. The first
  event stored the caller's number, so the replay gets `'901'`
  (`Calls.ReplayFlipsDestination`).
- An event type that has no table entry is not always rejected. A type
  named after an `Object.prototype` member is always rejected, because the
  inherited member equals no stored type (`Calls.InheritedTypeRejected`).
  Any other type is rejected when the stored record of the call has a type
  (`Calls.UnknownTypeRejected`). Against a stored record without a type,
  `undefined !== undefined` is false, so validation passes
  (`Calls.UntypedRecordAcceptsUntypedEvent`). Every handler keeps all stored
  records typed, so on snapshots the route wrote itself unknown types are
  always rejected (`Webhook.HandleKeepsConsistent`).
- The route never checks for required fields.
- A failed standby is answered with status 200.
- `GET` without a snapshot answers `{}`.
- A new call on an empty cache is answered with a one-element list.
- A committed standby is answered with the outbound response.

The test suite expects otherwise on the last five points. `CallStatusAsTested`,
`GetStatusAsTested` and `AsTested` state what the tests expect, separately from
the route's own behaviour. `Webhook.AsTestedDiffersOnlyAt` proves that the
tested answer to a POST differs from the route's at exactly the listed
points.

## Model

| member | source | states |
|---|---|---|
| `Lifecycle.TableIsChain` | src/routes/webhook.routes.js:6-13 | the stages are distinct; the table's keys are exactly the non-initial stages; each maps to the stage just before it |
| `Lifecycle.InitialAndTerminal` | src/routes/webhook.routes.js:6-13 | `call.new` has no predecessor entry; `call.finished` is no stage's predecessor |
| `Lifecycle.NoBranching` | src/routes/webhook.routes.js:6-13 | distinct stages have distinct predecessors |
| `Lifecycle.AdvancesOneStage` | src/routes/webhook.routes.js:6-13 | if the predecessor of `t` is stage `i`, then `t` is stage `i + 1` |
| `Calls.ValidateIff` | src/routes/webhook.routes.js:129-146 | `_validate` is true iff these all hold: the cache is present, some record has the event's `call_id`, and the first such record's type equals the expected predecessor |
| `Calls.UnknownCallRejected` | src/routes/webhook.routes.js:130-139 | no snapshot, or no record of the event's call, means validation fails |
| `Calls.UnknownTypeRejected` | src/routes/webhook.routes.js:141-143 | a type with no table entry (`undefined` or an inherited member) fails validation against a snapshot whose records all have a type |
| `Calls.InheritedTypeRejected` | src/routes/webhook.routes.js:112-114 | a type named after an `Object.prototype` member fails validation against any snapshot, even a stored record without a type; the route then answers 404 |
| `Calls.UntypedRecordAcceptsUntypedEvent` | src/routes/webhook.routes.js:141-145 | an event without a type, or with a type that is neither a table key nor an inherited name, passes validation against a stored record without a type |
| `Calls.DestinationIff` | src/routes/webhook.routes.js:59-70 | the destination is `'900'` or `'901'`; it is `'901'` iff the snapshot is present and holds a record with the event's `their_number` |
| `Calls.CreatedShape` | src/routes/webhook.routes.js:68-75 | after `call.new`, these all hold: the incoming body with its destination set is the last record and the only one of its call; the other calls' records keep their order; every other call id has exactly the records it had |
| `Calls.CreatedOnEmpty` | src/routes/webhook.routes.js:59-62 | on an empty cache the stored list is the incoming record alone, the same as the general rule on an empty snapshot |
| `Calls.CreatedUnique` | src/routes/webhook.routes.js:71-73 | `call.new` keeps the snapshot at one record per call id |
| `Calls.CreatedAllTyped` | src/routes/webhook.routes.js:71-73 | `call.new` with a typed, well-formed body keeps every stored record typed and well formed |
| `Calls.ReplayFlipsDestination` | src/routes/webhook.routes.js:69-73 | replaying a `call.new` event on the snapshot it produced gets `'901'`, which differs from the first answer on an empty cache |
| `Calls.AdvancedShape` | src/routes/webhook.routes.js:117-122 | after a transition, these all hold: the call's stored record keeps call id, number, destination and extra fields, gets only the new type, and is last and alone for its call; other records keep their order; other call ids are unchanged |
| `Calls.AdvancedUnique` | src/routes/webhook.routes.js:118-122 | on a unique snapshot a transition keeps length and uniqueness, and swaps the one stored record for its re-typed copy (as multisets) |
| `Calls.AdvancedAllTyped` | src/routes/webhook.routes.js:118-122 | a transition to a present type keeps every record typed and well formed |
| `Calls.SingleRecord` | src/routes/webhook.routes.js:69-71 | the filters and `some` evaluated on a one-record snapshot |
| `Calls.VisibleSpec` | src/routes/webhook.routes.js:39 | the read filter keeps exactly the records not in `call.finished`, in stored order (it distributes over concatenation), and returns the snapshot unchanged when nothing is finished |
| `Calls.MissingFieldsIff` | tests/app.test.js:38-65 | a field is reported missing iff it is required and absent from the body |
| `Calls.NoneMissing` | tests/app.test.js:64-65 | a body with every required field misses none |
| `Webhook.DelegateFromStoredRecord` | src/routes/webhook.routes.js:87-92 | the `delegate` payload has the `call_id` and `destination` of the first stored record of the call, not of the body; on a unique snapshot, of its one record |
| `Webhook.NotFoundIff` | src/routes/webhook.routes.js:79-115 | a POST is answered 404 iff it is not `call.new` and fails validation; it then answers `Call not found`, writes nothing, posts nothing and leaves the snapshot unchanged |
| `Webhook.WriteIff` | src/routes/webhook.routes.js:56-125 | a POST writes iff it is `call.new`, or it validates and is not a standby whose delegate request failed; without a write the snapshot is unchanged |
| `Webhook.StandbyGatedOnDelegate` | src/routes/webhook.routes.js:81-106 | standby posts the stored record's delegate payload iff the call is stored in `call.new`; on failure it commits nothing and answers the error payload; on success it commits `call.standby` and answers the outbound response |
| `Webhook.HandleKeepsConsistent` | src/routes/webhook.routes.js:56-125 | every POST of a well-formed body keeps the snapshot at one record per call, with every record typed and well formed |
| `Webhook.CommittedTransitionAdvances` | src/routes/webhook.routes.js:110-124 | a committed non-`call.new` event moves its call from stage `i` to stage `i + 1`, and that stage is what is stored |
| `Webhook.FinishedIsFinal` | src/routes/webhook.routes.js:6-13 | once a call is stored as `call.finished`, only `call.new` can write for it |
| `Webhook.Cache.SetEx` | src/routes/webhook.routes.js:74 | a write stores the snapshot, records its TTL and counts one write |
| `Webhook.CallNew` | src/routes/webhook.routes.js:57-77 | the cache and the response are those of `NewCallStep`: always one write with TTL 3600 |
| `Webhook.CallStandby` | src/routes/webhook.routes.js:79-108 | the cache, the response and the posted payload are those of `StandbyStep` |
| `Webhook.ReplaceType` | src/routes/webhook.routes.js:110-125 | the cache and the response are those of `ReplaceStep` |
| `Webhook.CallStatus` | src/routes/webhook.routes.js:51-127 | the cache, response and payload are those of `Handle`, and the cache's consistency is preserved |
| `Webhook.GetStatus` | src/routes/webhook.routes.js:31-41 | `{}` without a snapshot, otherwise the snapshot's visible records |
| `Webhook.GetStatusAsTested` | tests/app.test.js:281-288 | as the tests expect: `{data: []}` without a snapshot, otherwise the visible records |
| `Webhook.AsTestedDiffersOnlyAt` | tests/app.test.js:81-236 | the tested answer differs from the route's iff the POST is `call.new` on an empty cache or a standby that validates; there it is the new record under `data`, the re-typed stored record for a committed standby, and status 500 with the error payload for a failed one |
| `Webhook.CallStatusAsTested` | tests/app.test.js:59-79 | a body missing required fields gets 500 and the missing names, with no write; otherwise the route's step with the tested response shape |
| `Scenarios.SampleComplete` | tests/app.test.js:48-56 | the suite's sample body has every required field |
| `Scenarios.SampleWellFormed` | tests/app.test.js:48-56 | the suite's sample body, with any type, is well formed |
| `Scenarios.StandbyAnswerAsTested` | tests/app.test.js:166-236 | on a cache holding only the new call, the tested standby answer is the re-typed record on success and status 500 with the error payload on failure; only success writes |
| `Scenarios.NewCallOnEmptyCache` | tests/app.test.js:81-106 | on an empty cache, destination `'900'`, one record stored, the route answers a one-element list |
| `Scenarios.NewCallOnEmptyCacheAsTested` | tests/app.test.js:81-106 | the tested answer: the record under `data` |
| `Scenarios.NewCallReplayed` | tests/app.test.js:108-145 | the same call again gets `'901'` and one write; the call still has one record |
| `Scenarios.StandbyWithoutCache` | tests/app.test.js:150-164 | without a cache, standby is answered 404, posts nothing, and writes nothing |
| `Scenarios.StandbyCommitted` | tests/app.test.js:166-204 | standby posts `{delegate, call_id, '900'}` from the stored record, stores `call.standby`, and answers the outbound response |
| `Scenarios.StandbyCommittedAsTested` | tests/app.test.js:166-204 | the tested answer: the committed record |
| `Scenarios.StandbyRejected` | tests/app.test.js:206-236 | a failed delegate request leaves the cache unwritten and answers the error payload with status 200 |
| `Scenarios.StandbyRejectedAsTested` | tests/app.test.js:206-236 | the tested answer: status 500 |
| `Scenarios.UnknownEventType` | tests/app.test.js:240-251 | type `test` is answered 404 without a write |
| `Scenarios.PrototypeNameNotFound` | src/routes/webhook.routes.js:112-114 | type `constructor` against a stored call without a type is answered 404 without a write |
| `Scenarios.WaitingAfterStandby` | tests/app.test.js:253-276 | `call.waiting` after `call.standby` stores and answers the record with only its type replaced |
| `Scenarios.ReadSide` | tests/app.test.js:280-318 | `{}` (tested: `{data: []}`) without a cache; a new call is shown; a finished call is hidden |
| `Scenarios.TypeOnlyBodyMisses` | tests/app.test.js:59-79 | a body holding only `type` misses the six other required fields, in canonical order |
| `Scenarios.NoTimestampMisses` | tests/app.test.js:48-56 | a body without `timestamp` misses exactly `timestamp` |
| `Lists.AnyIff` | src/routes/webhook.routes.js:69 | `some` holds iff some element satisfies the predicate |
| `Lists.FilterHead` | src/routes/webhook.routes.js:135-141 | `filter(...)[0]` exists iff some element matches, and it is the first matching element |
| `Lists.FilterConcat` | src/routes/webhook.routes.js:71 | `filter` keeps relative order: it distributes over concatenation |
| `DeepMerge.MergeOverlay` | src/helpers/deepmerge.helper.js:7-13 | one level: the keys are the union of both key sets; a source value that is not a plain object (or has an own `length`) replaces the target's; a plain object is merged into `target[key] \|\| {}`; target-only keys keep their values |
| `DeepMerge.MergeAt` | src/helpers/deepmerge.helper.js:8-9 | at every nesting level the merge descends to, the result is the merge of the target's object there (or `{}`) with the source's |
| `DeepMerge.MergeAtEveryLevel` | src/helpers/deepmerge.helper.js:7-13 | at every such level: key union, target keys the source lacks survive, and non-merged source values win |
| `DeepMerge.MergeIntoEmpty` | src/helpers/deepmerge.helper.js:8-9 | merging into `{}` reproduces the source |
| `DeepMerge.MergeSelf` | src/helpers/deepmerge.helper.js:6-15 | merging an object into itself changes nothing |
| `DeepMerge.MergeIdempotent` | src/helpers/deepmerge.helper.js:6-15 | overlaying the same source twice equals overlaying it once |
| `DeepMerge.DeepMergeInPlace` | src/helpers/deepmerge.helper.js:6-16 | returns the target object itself; with a `null`/`undefined` target it throws iff the source holds a plain object, and otherwise changes nothing; else the loop replaces each plain-object source value by its merge and the target's properties become `Merge(target, source)` |
| `Lifecycle.Predecessor` | src/routes/webhook.routes.js:6-13 | `_beforeThan[type]`: a stage exactly for the six non-initial stages; an inherited member only for `Object.prototype` names, which are no stage; `undefined` otherwise |
| `Calls.Validate` | src/routes/webhook.routes.js:129-146 | `_validate`: definition; `Calls.ValidateIff` states its meaning |
| `Calls.Destination` | src/routes/webhook.routes.js:59-70 | the destination is `'900'` or `'901'`, and `'900'` without a snapshot; `Calls.DestinationIff` gives the exact condition |
| `Calls.Created` | src/routes/webhook.routes.js:68-75 | the `call.new` snapshot: definition; `Calls.CreatedShape` and `Calls.CreatedUnique` state its properties |
| `Calls.Advanced` | src/routes/webhook.routes.js:117-122 | the transition snapshot: definition; `Calls.AdvancedShape` and `Calls.AdvancedUnique` state its properties |
| `Calls.Visible` | src/routes/webhook.routes.js:39 | the read filter returns at most the stored records, none of them finished; `Calls.VisibleSpec` gives the converse and the order |
| `Calls.MissingFields` | tests/app.test.js:38-65 | the tests' missing-field list: definition; `Calls.MissingFieldsIff` states its meaning |
| `Webhook.DelegateFor` | src/routes/webhook.routes.js:87-92 | the payload is a `delegate` action for the event's call id; `Webhook.DelegateFromStoredRecord` ties it to the stored record |
| `Webhook.NewCallStep` | src/routes/webhook.routes.js:57-77 | the `call.new` branch: definition; `Webhook.WriteIff`, `Webhook.NotFoundIff` and the `Calls.Created*` lemmas state its properties |
| `Webhook.StandbyStep` | src/routes/webhook.routes.js:79-108 | the standby branch: definition; `Webhook.StandbyGatedOnDelegate` states its properties |
| `Webhook.ReplaceStep` | src/routes/webhook.routes.js:110-125 | the default branch: definition; `Webhook.NotFoundIff` and `Webhook.CommittedTransitionAdvances` state its properties |
| `Webhook.Handle` | src/routes/webhook.routes.js:51-127 | the `switch`: definition; `Webhook.HandleKeepsConsistent`, `Webhook.WriteIff` and `Webhook.FinishedIsFinal` state its properties |
| `Webhook.AsTested` | tests/app.test.js:81-236 | the tests' response shapes: definition; `Webhook.AsTestedDiffersOnlyAt` states where and how they differ from the route |
| `DeepMerge.MergedSource` | src/helpers/deepmerge.helper.js:7-11 | the source after the loop: definition; `DeepMerge.DeepMergeInPlace` proves the loop computes it |
| `DeepMerge.Merge` | src/helpers/deepmerge.helper.js:6-16 | the merged target: definition; `DeepMerge.MergeOverlay`, `DeepMerge.MergeAt` and the idempotence lemmas state its properties |
| `Lists.Filter` | src/routes/webhook.routes.js:39 | `filter`: the result is no longer than the list, and holds only its elements that satisfy the predicate |
| `Lists.Any` | src/routes/webhook.routes.js:69 | `some`: definition; `Lists.AnyIff` states its meaning |

## Left out

- The Redis client, and `get`/`setex` as transport, are not modelled. The cache is a class field and the TTL a recorded number; time and expiry are not modelled.
- The `err` argument of the cache read is ignored, as it is in the route. So is the 500 `Error to get calls` answer the tests expect for a read error.
- JSON serialisation of the snapshot is not modelled. The snapshot is stored as a list. Malformed cache contents, on which `JSON.parse` throws, are not modelled.
- Concurrent requests are not modelled. Each handler is one atomic method, so the whole-snapshot read-modify-write race between overlapping requests is not captured.
- The outbound request client (src/services/request.service.js) is seen only through its outcome. A fresh `Request` is built per standby; its headers, base URL and axios call are not modelled.
- A rejection without `err.response` is not modelled. In the route, `err.response.data` then throws inside the handler and no answer is sent.
- Express wiring, HTTP framing and the status route are not modelled. Responses are a status and a body kind.
- Record fields other than the four named ones are treated as strings. Other JSON value kinds in passthrough fields are not distinguished.
- The four named fields (`type`, `call_id`, `their_number`, `destination`) are strings or absent. A non-string JSON value there cannot be represented. So `call_id: 123` and `call_id: "123"`, which `===` tells apart, are not modelled.
- Webhook.CallStandby: an outbound request that never settles is not modelled. `Outcome` is only `Ok` or `Err`. In the route such a request leaves the POST unanswered and the cache unwritten.
- In `deepMerge`, a truthy target value that is not a plain object is merged as `{}`. Examples are a non-empty string, an array or a number. JavaScript would instead copy its own enumerable properties, such as string characters or array elements.
- A falsy primitive top-level target (`false`, `0`, `''`) is not modelled. `null`/`undefined` is.
- A top-level target that is a truthy primitive or an array is not modelled. For a primitive, `Object.assign` writes onto a wrapper object that is thrown away; for an array, onto the array's own properties.
- A source that is `null` or a primitive is not modelled: the source is always an object here. In JavaScript, `Object.keys` throws on `null`/`undefined` and iterates a string's character indices.
- DeepMerge.DeepMergeInPlace and DeepMerge.Merge read only a value's own keys, while JavaScript property lookups walk the prototype chain. So three kinds of source do not behave as stated there. A source key `__proto__` (as `JSON.parse` can produce) makes `target[key]` the shared `Object.prototype`, which line 9 then merges into; `Object.assign` then sets the target's prototype instead of adding an own key. A nested source object with its own `hasOwnProperty` key that is not a function makes line 8 throw a `TypeError`. A source key named after another `Object.prototype` member, such as `constructor`, merges into the inherited built-in function.
- `deepMerge`'s aliasing is not modelled: afterwards `target[key]` is the same object as `source[key]`, and the old nested target objects are also changed in place. Nested objects are values here; only the two top-level objects are mutable.
- Property order is not modelled.
- Numbers in `deepMerge` values are integers; floating point is not modelled.
