# Span registry and event recorder of the trace-nodejs agent, in Dafny

This project models the `Agent` object of `lib/agent/index.js` in the
trace-nodejs tracing agent, and proves properties of the model. The agent
keeps a dictionary `partials` from request id to the span of a request in
flight. Each span has a `requestId`, an `isSampled` flag, an
`isForceSampled` flag and an append-only list of events. Event handlers
update that dictionary:

- `serverReceive` and `serverSend` record inbound hops.
- `clientSend` and `clientReceive` record outbound hops.
- `report` and `reportError` record user events; the first event of each name wins.
- `onCrash` records a crash.

Spans that must be collected go to a reservoir sampler of 100 slots. `_send`
drains that sampler into a batch and installs a fresh one.

The files:

- `spans.dfy`: module `Wrappers` (an `Option` type) and module `Spans`. `Spans` holds events, spans, the handlers' input records, the builders of each event kind, and the two `some` scans (`HasEventOf`, `HasName`). An event's type (`cs`, `cr`, `ss`, `sr`, `err`, `us`) follows from the shape of its data.
- `sampling.dfy`: module `Sampling`. It has the sampler as a value (`Reservoir`, `Add`, `Feed`) with lemmas, and the `ReservoirSampler` class. The class has a public `itemsSeen` counter and the methods `AddReturnsSuccess` and `GetItems`. The three cases of `reservoir_sampler.spec.js` are client methods of that class.
- `recorder.dfy`: module `Recorder`. `AgentView` is the agent's state as a value. Each handler is a function from the state before the call to the state after it, and `Run` applies a sequence of calls.
- `recorder_lemmas.dfy`: module `RecorderLemmas`, the properties of those handlers.
- `agent.dfy`: module `Agents`. The `Agent` class has the fields `partials`, `totalRequestCount` and `reservoirSampler`. Its handlers update these fields step by step, and each is proved to end in the state that the matching `Recorder` function gives.

Spans are values held in the `partials` map. A handler that changes a span stores the new value under the same key. This is faithful to the code, because no span object that the sampler holds is ever changed through `partials` afterwards:

- `serverSend` deletes the entry right after it submits the span.
- `onCrash` drains the sampler right after it submits the span.

The batch that `_send` hands to `sendSamples` (`index.js:258-260`, `407`) also shares, in the code, the span object that stays in `partials` after `onCrash`. Values are faithful here only because that crash-path send is synchronous: nothing can append to the span before the batch is sent.

Three behaviours of the code are proved as written, where a reader might expect otherwise:

- After `onCrash`, the sampler is empty. The crashed span leaves in the batch that `_send` emits during the call (`RecorderLemmas.OnCrashFlushes`).
- Force-sampled spans get no bypass. Once the sampler has been offered its 100 spans since the last flush, a force-sampled span is kept only if its random slot is one of the 100 (`RecorderLemmas.ForceSampledSpanCanBeDropped`). Under the assumed draw below, a drop needs more than 100 earlier offers, since with exactly 100 seen every slot drawn is below 100.
- A batch always reports a sample rate of 1 and a request count of 1 (`index.js:397-403`). It does not report the `totalRequestCount` that the agent keeps.

Conventions:

- An `undefined` string is `""`. This covers a missing request id, a missing span id in the ambient context and a missing parent header. A missing number or event name is `None`. This covers the time, origin time and parsed parent of `serverReceive`, and the status codes of `serverSend` and `clientReceive`.
- The ambient context (transaction id and span id) is an explicit `Context` argument.
- Timestamps are arguments. For `serverReceive` the input carries `data.time` as given and the clock reading `now`, and `Spans.ReceiptTime` resolves `data.time || microtime.now()`. The transport delay uses the time as given. For the other handlers the caller resolves the time.
- The random slot of a sampler add is an argument, `draw`. The model assumes it is `Math.floor(Math.random() * itemsSeen)`, the classic reservoir draw. The tests fix only that, with limit 1 and one item seen, random 0 admits and random 1 rejects. Other draws fit them too.
- The measurements that the metrics collaborators receive are method results: `IncomingEdge` and `ExternalEdge`. So is the batch that `_send` hands to the collector.

## Model

| member | source | states |
|---|---|---|
| Spans.CodesAreDistinct | lib/agent/index.js:411-416 | the six event types have distinct wire codes |
| Spans.HasEventOf | lib/agent/index.js:324-326 | the `some` scan over a span's events is true iff some event has the given type |
| Spans.HasName | lib/agent/index.js:298-300 | the `some` scan is true iff some event's data `name` equals the name; an undefined name matches every event whose data has no name |
| Spans.HasEventOfAppend | lib/agent/index.js:186-194 | pushing an event keeps every event type already present and adds its own |
| Spans.HasNameAppend | lib/agent/index.js:298-303 | pushing an event keeps every name already present and adds its own |
| Spans.ClientSendEvent | lib/agent/index.js:160-184 | a failed outbound call yields an `err` event, otherwise a `cs` event; either has the call's time and span id and no name |
| Spans.UserEvent | lib/agent/index.js:272-295 | a reported event is `err` when `error` is set and `us` otherwise, and carries the reported name |
| Spans.CrashEvent | lib/agent/index.js:243-254 | a crash yields an `err` event of type `system-error` with no name |
| Sampling.FreshIsDense | lib/agent/reservoir_sampler.spec.js:11 | a new sampler has seen nothing and holds nothing |
| Sampling.DenseIsBounded | lib/agent/reservoir_sampler.spec.js:9-16 | a sampler whose slots fill in order holds at most its size limit and at most the items seen |
| Sampling.AddPreservesBounded | lib/agent/reservoir_sampler.spec.js:9-38 | an add never takes the sampler past its size limit and counts exactly one more item seen |
| Sampling.AddPreservesDense | lib/agent/reservoir_sampler.spec.js:9-38 | used only through adds, the sampler holds min(itemsSeen, sizeLimit) items |
| Sampling.AddKeepsAdmitted | lib/agent/reservoir_sampler.spec.js:20-38 | an admitted item is held afterwards; a rejected item leaves the held items unchanged |
| Sampling.BelowLimitIgnoresDraw | lib/agent/reservoir_sampler.spec.js:9-16 | below the size limit, admission and the result do not depend on the random draw, and the item is appended |
| Sampling.FeedBounded | lib/agent/reservoir_sampler.spec.js:9-38 | over any stream of adds the sampler never holds more than its size limit, and it counts every item |
| Sampling.FeedKeepsAll | lib/agent/reservoir_sampler.spec.js:9-16 | while the limit is not reached every offered item is kept, in order |
| Sampling.FreshKeepsShortStream | lib/agent/reservoir_sampler.spec.js:9-16 | a fresh sampler of limit K offered N <= K items holds exactly those items |
| Sampling.FeedKeepsOnlyOffered | lib/agent/reservoir_sampler.spec.js:9-38 | every held item was held before or was offered |
| Sampling.SingleSlotSecondItem | lib/agent/reservoir_sampler.spec.js:19-38 | with limit 1, a second item replaces the first when the draw selects slot 0 and is discarded otherwise |
| Sampling.ReservoirSampler.constructor | lib/agent/reservoir_sampler.spec.js:11 | `new ReservoirSampler(limit)` has the size limit, no items seen and no items held |
| Sampling.ReservoirSampler.AddReturnsSuccess | lib/agent/reservoir_sampler.spec.js:12-14 | the result is whether the item was admitted, and the new state is the `Add` of the old one |
| Sampling.ReservoirSampler.GetItems | lib/agent/reservoir_sampler.spec.js:15 | returns the held items, at most the size limit of them |
| Sampling.AddsItemBelowLimit | lib/agent/reservoir_sampler.spec.js:9-16 | a fresh sampler of limit 3 admits an item whatever the draw, and holds exactly that item |
| Sampling.AddsItemIfSelected | lib/agent/reservoir_sampler.spec.js:20-28 | with limit 1 and itemsSeen 1, a draw of slot 0 admits the item |
| Sampling.DiscardsItemIfNotSelected | lib/agent/reservoir_sampler.spec.js:30-38 | with limit 1 and itemsSeen 1, a draw of slot 1 rejects the item |
| Recorder.Find | lib/agent/index.js:314-334 | `findSpan` returns the entry iff the id is present and non-empty and the entry holds an `sr` event |
| Recorder.IncomingEdgeOf | lib/agent/index.js:101-107 | the service key is the parent header as given, unparsed; the transport delay is `data.time` as given minus the origin time, and is NaN (None) iff either is undefined |
| Spans.ReceiptTime | lib/agent/index.js:110 | the event's time is `data.time` when it is defined and non-zero, and the clock reading otherwise |
| Recorder.Open | lib/agent/index.js:336-351 | the dictionary after `openSpan`: a missing id adds nothing; otherwise exactly `id` is added if absent, as a new unsampled span with no events; existing entries are unchanged |
| Recorder.Opened | lib/agent/index.js:336-351 | the span `openSpan` returns: nothing iff the id is missing, the existing entry if there is one, else the new empty span |
| Recorder.OpenSpan | lib/agent/index.js:336-351 | the state after `openSpan`: counter and sampler unchanged, at most the id added, every existing entry unchanged |
| Recorder.ServerReceive | lib/agent/index.js:91-120 | the state after `serverReceive`: counter +1, sampler unchanged, the id registered and then found, every other entry unchanged |
| Recorder.Closed | lib/agent/index.js:131-142 | the span `serverSend` submits: same id and `isSampled`, earlier events kept, one `ss` event appended, force-sampled iff it was or the request must be collected |
| Recorder.ServerSend | lib/agent/index.js:122-147 | the state after `serverSend`: the id is not found, the counter is unchanged, no entry is added or altered, a found entry is deleted, the sampler keeps its limit |
| Recorder.Sent | lib/agent/index.js:150-186 | the span `clientSend` stores: same id and `isSampled`, earlier events kept, one `err` event if the call failed and `cs` otherwise, force-sampled iff it was or the call failed |
| Recorder.ClientSend | lib/agent/index.js:149-200 | the state after `clientSend`: counter and sampler unchanged, no entry added, only the id's entry can change, and nothing changes when the span is not found |
| Recorder.ClientReceive | lib/agent/index.js:202-231 | the state after `clientReceive`: counter, sampler and keys unchanged, only the id's entry can change, and a found span gains exactly one `cr` event |
| Recorder.Report | lib/agent/index.js:263-308 | the state after `report`: counter, sampler and keys unchanged, only the current transaction's entry can change, and any change means the span was found without an event of that name |
| Recorder.Crashed | lib/agent/index.js:238-255 | the span `onCrash` submits: same id and `isSampled`, force-sampled, earlier events kept, one `err` event appended |
| Recorder.OnCrash | lib/agent/index.js:233-261 | the state after `onCrash`: nothing and no batch when the span is not found; keys unchanged and other entries untouched; an emitted batch is synchronous and leaves the sampler empty |
| Recorder.Send | lib/agent/index.js:393-409 | the state after `_send`: a batch iff the sampler holds spans, holding exactly those spans with the given sync flag; after a batch the sampler is empty with nothing seen and the counter is 0; without one nothing changes; `partials` never changes |
| Recorder.ClearTransaction | lib/agent/index.js:369-371 | the state after `clearTransaction`: the id's entry is gone, every other entry, the counter and the sampler are unchanged |
| Sampling.Add | lib/agent/reservoir_sampler.spec.js:9-38 | the sampler after `addReturnsSuccess`: same limit, one more item seen, at most one more item held, every held item was held before or is the new item; every held item outside the drawn slot stays in place; an item admitted past the limit into a held slot evicts exactly that slot's item without growing the sampler; below the limit the held items stay as a prefix |
| Sampling.Fresh | lib/agent/reservoir_sampler.spec.js:11 | `new ReservoirSampler(limit)` has the given limit, has seen nothing and holds nothing |
| Sampling.Admits | lib/agent/reservoir_sampler.spec.js:12-14 | the result of `addReturnsSuccess`: every item below the size limit; at or past it, exactly the items whose draw is below the limit |
| Spans.SrEvent | lib/agent/index.js:109-119 | the event `serverReceive` pushes is an `sr` event with the resolved receipt time, the span id, the parsed parent and the origin time as given, and no name |
| Spans.SsEvent | lib/agent/index.js:131-138 | the event `serverSend` pushes is an `ss` event with the call's time, the span id and the status code as given, and no name |
| Spans.CrEvent | lib/agent/index.js:223-230 | the event `clientReceive` pushes is a `cr` event with the call's time, the span id and the status code as given, and no name |
| Spans.NameOf | lib/agent/index.js:298-300 | the `data.name` an event carries: only error and user events can have one, and theirs is the name they were reported with |
| Recorder.Initial | lib/agent/index.js:27-67 | a new agent satisfies the invariant, has no spans, a request count of 0 and an empty sampler of 100 slots that has seen nothing |
| Sampling.Feed | lib/agent/reservoir_sampler.spec.js:9-38 | the sampler after a stream of adds: same limit, every item counted as seen, and between none and all of the stream added to the held items |
| Recorder.ExternalEdgeOf | lib/agent/index.js:205-215 | an external edge is reported iff the target service key is undefined and the status code is missing or below 500 |
| RecorderLemmas.OpenSpanIdempotent | lib/agent/index.js:336-351 | a missing id yields nothing and changes nothing; an existing entry is returned untouched; a new one starts unsampled, not force-sampled, with no events; opening twice is opening once |
| RecorderLemmas.ServerReceiveAppendsSr | lib/agent/index.js:91-120 | the request counter goes up by exactly 1; exactly one `sr` event is appended after the earlier events; the span is then found; the event's parent is the parsed parent id and its time the resolved receipt time; other entries and the sampler are unchanged |
| RecorderLemmas.ServerSendAbsentIsNoOp | lib/agent/index.js:122-129 | `serverSend` on a span that is not found changes nothing, including an entry that has no `sr` event |
| RecorderLemmas.ServerSendCloses | lib/agent/index.js:131-146 | one `ss` event is appended; `isForceSampled` becomes old value or must-collect error, so it never reverts; the span goes to the sampler iff force-sampled; the entry is deleted, so it is no longer found |
| RecorderLemmas.ReceiveThenSendRemoves | lib/agent/index.js:91-147 | `serverReceive` then `serverSend` for the same id leaves no entry for that id |
| RecorderLemmas.ForceCollectedRequest | lib/agent/index.js:91-147 | on a new agent, a received request answered with a must-collect error leaves the sampler holding exactly that span: force-sampled, with its `sr` and `ss` events |
| RecorderLemmas.ForceSampledSpanCanBeDropped | lib/agent/index.js:140-144 | once the sampler has seen 100 offers since the last flush, a force-sampled span whose draw is not one of the 100 slots is not kept |
| RecorderLemmas.ClientSendNeverCleansUp | lib/agent/index.js:186-199 | the worker-request clean-up cannot fire, because a found span has an `sr` event; `clientSend` always stores the updated span |
| RecorderLemmas.ClientSendRecords | lib/agent/index.js:149-186 | an absent span: no change; otherwise exactly one event is appended, `err` iff the call failed and `cs` otherwise; a failure force-samples the span, which stays found |
| RecorderLemmas.ClientReceiveRecords | lib/agent/index.js:202-231 | exactly one `cr` event is appended iff the span is found, and nothing else changes |
| RecorderLemmas.ReportRecords | lib/agent/index.js:263-308 | an absent span, or a span with an event of that name: no change; otherwise exactly one event is appended, `err` iff `error` and `us` otherwise |
| RecorderLemmas.ReportFirstWriteWins | lib/agent/index.js:297-307 | a second report with the same name in the same context changes nothing, whatever its payload and error flag |
| RecorderLemmas.ReportWithoutNameIsDropped | lib/agent/index.js:297-307 | a report whose name is undefined never records anything: the data of the `sr` event has no name, so it matches |
| RecorderLemmas.SendDrains | lib/agent/index.js:393-409 | an empty sampler: no batch, no change; otherwise the batch holds exactly the sampler's items, the counter becomes 0 and the sampler is fresh |
| RecorderLemmas.OnCrashFlushes | lib/agent/index.js:233-261 | an absent span: no change and no batch; otherwise the span is force-sampled with exactly one more `system-error` event and stays found; a synchronous batch is always emitted and holds the span if the sampler admitted it; the sampler is then fresh and the counter 0 |
| RecorderLemmas.ApplyPreservesValid | lib/agent/index.js:91-409 | every handler keeps entries under their own request id and the sampler within its 100 slots |
| RecorderLemmas.RunPreservesValid | lib/agent/index.js:16 | over any sequence of calls, the sampler never holds more than `MUST_COLLECT_LIMIT` = 100 spans |
| RecorderLemmas.ApplyOnlyAppends | lib/agent/index.js:109-304 | a handler only appends to a span that stays registered, at most one event per call, and never clears `isForceSampled` |
| RecorderLemmas.ApplyKeepsInvisible | lib/agent/index.js:314-351 | no handler except `serverReceive` for that id makes a not-found id found |
| RecorderLemmas.OnlyServerReceiveMakesVisible | lib/agent/index.js:324-331 | a request never received stays not found through any sequence of outbound calls, reports, crashes and flushes |
| Agents.Agent.constructor | lib/agent/index.js:27-67 | a new agent has no spans, a request count of 0 and a fresh sampler of 100 slots |
| Agents.Agent.OpenSpan | lib/agent/index.js:336-351 | updates `partials` as `Recorder.OpenSpan` and returns the existing or new entry, or nothing for a missing id |
| Agents.Agent.ServerReceive | lib/agent/index.js:91-120 | ends in the state `Recorder.ServerReceive` gives and returns the incoming edge it reports |
| Agents.Agent.ServerSend | lib/agent/index.js:122-147 | ends in the state `Recorder.ServerSend` gives, adding to the current sampler in place |
| Agents.Agent.ClientSend | lib/agent/index.js:149-200 | ends in the state `Recorder.ClientSend` gives, clean-up branch included |
| Agents.Agent.ClientReceive | lib/agent/index.js:202-231 | ends in the state `Recorder.ClientReceive` gives and returns the external edge it reports, if any |
| Agents.Agent.Report | lib/agent/index.js:263-308 | ends in the state `Recorder.Report` gives |
| Agents.Agent.ReportError | lib/agent/index.js:310-312 | is `Report` with `error` true |
| Agents.Agent.OnCrash | lib/agent/index.js:233-261 | ends in the state and returns the batch `Recorder.OnCrash` gives |
| Agents.Agent.ClearTransaction | lib/agent/index.js:369-371 | deletes the entry for the id, found or not |
| Agents.Agent.Send | lib/agent/index.js:393-409 | ends in the state and returns the batch `Recorder.Send` gives, with a newly allocated sampler when it flushed |
| Agents.ForceCollectedRequestScenario | lib/agent/index.js:91-147 | with a real agent object: receive, then answer with a must-collect error; the sampler then holds exactly that span and the id is no longer found |

## Left out

- Context propagation through `continuation-local-storage` (`setTransactionId`, `getTransactionId`, `setSpanId`, `getSpanId`, `bind`, `bindEmitter`; `index.js:353-379`). It is ambient state per asynchronous chain; here the current transaction id and span id are an explicit `Context` argument.
- The collector API (`getService`, `sendSamples`), the metrics and healthcheck collaborators, and the `setInterval` timer of `start`/`stop`. These are network and timer plumbing. The batch and the edge measurements are returned to the caller. The periodic flush is `Send(false)` called by whoever drives time.
- `microtime.now()`, `uuid.v4()`, `generateId` and `generateSpanId` (`index.js:381-391`). Timestamps are arguments.
- `Math.random` in the sampler: the drawn slot is the `draw` argument, and there is no floating point.
- `isNaN`/`parseInt` of the parent id (`index.js:97-99`): the input carries both the header as given and its parsed value, as an optional integer; the parse itself is not modelled.
- `lib/agent/reservoir_sampler.js` is not part of this model. The sampler follows its tests and the classic reservoir algorithm, with the draw `floor(random * itemsSeen)` assumed rather than read from the code. When an admitted draw points past the held items, the model appends, where JavaScript would leave holes in the array. This can happen only after a test sets `itemsSeen` by hand.
- `getServiceKey`, `getConfig` and the never-read `mustCollectCount` field: plain getters and an unused counter.
- Keys that collide with `Object.prototype` members (such as `"constructor"`) in the plain-object `partials`: the map has no prototype.
- Exceptions from malformed arguments are not modelled: `report` with `error` set and no `data`, and `onCrash` without `data.stackTrace`. Their payloads are always given.
- `clientReceive` writing the resolved time back into its argument object (`index.js:221`): arguments are values.
- Agents.Agent.ServerReceive: requires a non-empty request id (so does `Recorder.ServerReceive`). With a missing id, `openSpan` returns `undefined`, and the code counts the request and reports the incoming edge before the push throws a TypeError (`index.js:92-109`). That failure path is not modelled.
- The `debug` diagnostics logged when a span is not found or a name is already reported (`index.js:127`, `306`, `318`, `329`): they are logging only and change no state.
- Arithmetic with an undefined time is NaN in the code; the model keeps only the fact that the delay is then not a number (None), not NaN's arithmetic.
- `lib/instrumentations/utils/wrapQuery.js`: instrumentation that wraps third-party calls, callbacks and promises is outside the core.
