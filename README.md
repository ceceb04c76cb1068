# PeerMetrics SDK core, modelled in Dafny

This project models the browser SDK of PeerMetrics, a WebRTC call-quality
service. An application builds a `PeerMetrics` object, initialises it
against the PeerMetrics API, registers its `RTCPeerConnection`s with it, and
from then on the SDK forwards connection, media and stats events to the
server. Two generations of the SDK are modelled side by side:

- the TypeScript one (`src/index.ts`, `src/api-wrapper.ts`);
- the legacy JavaScript one (`src/index.js`, `src/api-wrapper.mjs`).

The modules follow the program's structure:

- `JsValues` (json.dfy): JavaScript values as a `Json` datatype, together with property reads on objects that may be missing, truthiness, `typeof` and `String(v)` as a property key.
- `Delivery` (delivery.dfy): `makeRequest` and `_handleFailedRequest`, shared by both wrappers. A `Variant` selects the current or the legacy behaviour.
  - `Classify` is `_handleFailedRequest`'s decision on a failed attempt: reject at once with the body for an unrecoverable error code (current wrapper only), retry after the doubled back-off for a network error or a status above 500, stop with the back-off exhausted once that doubling would pass 60000 ms, and otherwise reject with the parsed body.
  - The network is a sequence of `Attempt`s, each with the clock reading at its send and its outcome.
  - `Run` is the specification of the whole retry chain: the request bodies sent, the back-off waits between them, and how the chain ends.
  - `MakeRequest`/`Attempts` are the imperative retry loop proved equal to it.
- `Api` (api_wrapper.dfy) and `LegacyApi` (legacy_api_wrapper.dfy): the `ApiWrapper` classes. These cover the token, the URL map, the batching switch, the connection-event batcher (its buffer and pending timer) and the requests each entry point issues. `issued` is the log of requests handed to `makeRequest`. The settlement of an awaited request is an input.
- `Validation` (validation.dfy):
  - the constructor's option checks, including the meta-tag sanitising loop;
  - `addEvent`'s checks;
  - the two peer-name trimming rules.
- `Payloads` (payloads.dfy):
  - the normalisers that turn a stats-module event into the body of an API call;
  - `Replay`, the specification of draining the deferred event queue.
- `Sdk` (peer_metrics.dfy) and `LegacySdk` (legacy_peer_metrics.dfy): the `PeerMetrics` classes. These cover the peer and connection registry, the deferred event queue, the timeline dispatcher, add/remove of connections and peers, `addEvent` and `endCall`. `sent` is the log of API-wrapper calls the SDK makes, in order.

Each operation that the source awaits is one atomic step here. The result of
each awaited call is a parameter.

Several quirks of the source are modelled as written and shown by lemmas:

- `_sendAddConnectionRequest` keeps a single connection id per peer, so a second connection orphans the first (`Sdk.SecondConnectionOrphansFirst`).
- An event resolved to a server peer id but not to a connection is queued with the server id. It can then never resolve (`Sdk.PartiallyResolvedEventQueuedAgain`).
- `endCall` calls `sendEndCall`, which neither wrapper defines, so it always ends in a TypeError (`Sdk.PeerMetrics.EndCall`).
- The current wrapper keeps the caller's `timestamp` across retries, so every retry's `delta` is measured from the first attempt (`Delivery.RetryDeltaFromFirstAttempt`).
- The legacy SDK cuts a long peer name to its first 120 characters (`Validation.CutPeerName`). The current one drops the first 64 characters instead (`Validation.TrimPeerNameBound`).
- With batching switched on by the server, `sendConnectionEvent` returns undefined. `addConnection` still resolves `{connectionId}`, but the registration it starts without waiting always rejects and no peer is registered (`Sdk.BatchedAddConnectionNeverRegisters`). The legacy `addPeer` awaits that undefined answer and rejects with a TypeError (`LegacySdk.BatchedAddPeerFails`).
- The queue holds the very objects the handlers rewrite. When a replay throws, the events already handled stay in the queue rewritten, carrying the server's peer id, and the next replay queues them again (`Sdk.HandledEventDeferredOnNextReplay`, `Sdk.ReplayAfterThrowQueuesSentStats`).

## Model

| member | source | states |
|---|---|---|
| Delivery.WithToken | src/api-wrapper.ts:297-299 | the request body gets `token` set to the wrapper's token exactly when that token is truthy, and is otherwise unchanged |
| Delivery.DecorateStamp | src/api-wrapper.ts:320-326 | a truthy caller timestamp is kept and `delta` = now − timestamp is added. Otherwise the send time becomes the stamp and no `delta` is added. The token carried is the wrapper's token when truthy, else the body's own |
| Delivery.MakeRequest | src/api-wrapper.ts:285-351 | the full request (mock answer, stringify failure, attempts and retries) equals the specification trace `Deliver` |
| Delivery.UnserialisableNeverSent | src/api-wrapper.ts:328-333 | a body that cannot be stringified ends the request before any attempt, whatever the network would do |
| Api.UnserialisableRejected | src/api-wrapper.ts:328-333 | such a request's promise is already rejected with "Could not stringify request data" |
| Delivery.Attempts | src/api-wrapper.ts:365-398 | the retry loop produces exactly the trace `Run` specifies from an initial back-off of 500 ms |
| Delivery.RetryStep | src/api-wrapper.ts:379-395 | a retryable failure sends the same decorated body again after twice the current back-off, carrying that attempt's stamp |
| Delivery.WaitsDouble | src/api-wrapper.ts:381-391 | the k-th wait is b·2^(k+1) and never exceeds 60000 ms, and there is at most one more attempt than waits |
| Delivery.AtMostSixWaits | src/api-wrapper.ts:21-22 | starting from 500 ms, the waits can only be 1000, 2000, 4000, 8000, 16000, 32000 ms, at most six of them |
| Delivery.BackoffSchedule | src/api-wrapper.ts:365-398 | any request makes at most seven attempts, and its waits are a prefix of 1 s, 2 s, 4 s, 8 s, 16 s, 32 s |
| Delivery.ExhaustsAfter | src/api-wrapper.ts:381-386 | when every attempt is retryable, the chain gives up after exactly the attempt whose doubled back-off would pass 60000 ms |
| Delivery.FailsAfterSixRetries | src/api-wrapper.ts:381-386 | seven retryable failures in a row mean seven attempts with waits 1–32 s, and then the request rejects with back-off exhausted |
| Delivery.UnrecoverableNotRetried | src/api-wrapper.ts:370-376 | an error listed as unrecoverable by the current wrapper is never retried, and the request rejects with the server's body |
| Delivery.LegacyRetriesUnrecoverable | src/api-wrapper.mjs:335-358 | the legacy wrapper has no unrecoverable list and retries any 5xx or network failure after 1000 ms |
| Delivery.NotRetriedAtOrBelow500 | src/api-wrapper.ts:379 | a status of 500 or below is not retried. The rejection carries the parsed body. When the body is missing, that is undefined in the current wrapper and `{}` in the legacy one |
| Delivery.DeltaFromKeptStamp | src/api-wrapper.ts:320-326 | with a truthy caller timestamp, every attempt's `delta` is that attempt's send time minus the caller's timestamp |
| Delivery.RetryDeltaFromFirstAttempt | src/api-wrapper.ts:388-395 | every retry's `delta` is measured from the first attempt's stamp |
| Delivery.TokenOnEveryAttempt | src/api-wrapper.ts:297-299 | when the body is an object, every attempt carries the same token: the wrapper's token if truthy, else the one the body had |
| Delivery.NonObjectDataSentAsIs | src/api-wrapper.ts:297-299 | a body that is not an object (an array, say) gets no `token` property that survives serialisation, so every attempt sends it unchanged |
| Api.MergedUrls | src/api-wrapper.ts:103-106 | `{urlsMap, ...urls}` replaces the URL table with the server's `urls`, with the old table nested under the key `urlsMap` (unless the server sends that key too). An endpoint the server leaves out is no longer in the table |
| Api.CustomEventBody | src/api-wrapper.ts:149-157 | the custom-event body carries the event as `data` and the event's `eventName` when truthy, else `"custom"` |
| Api.FlushPayload | src/api-wrapper.ts:219-235 | one buffered event is posted alone to `connection`, several as an array to `batch-connection`. Each item has exactly eventName, peerId, data and timeDelta = flush time − push time |
| Api.BatchSentWithoutToken | src/api-wrapper.ts:219-235 | a flush of other than one event posts an array, which carries no `token`: every attempt sends the array unchanged |
| Api.DebounceScenario | src/api-wrapper.ts:179-205 | two pushes 100 ms apart with batching on make one batch request 500 ms after the second push, holding both events in order |
| Api.ApiWrapper.constructor | src/api-wrapper.ts:35-43 | a new wrapper has an empty token, the default URL map, batching off and an empty buffer |
| Api.ApiWrapper.Initialize | src/api-wrapper.ts:87-117 | posts the data with userId, userName and apiKey to /initialize. A truthy answer then sets the token, merges the URLs and sets the batching flag only when the answer gives a boolean for it |
| Api.ApiWrapper.CreateSession | src/api-wrapper.ts:119-128 | posts to the session URL and adopts a truthy returned token. A nullish answer is a TypeError, and a rejection passes through unchanged |
| Api.ApiWrapper.SendCustomEvent | src/api-wrapper.ts:149-157 | posts the custom-event body to `events-browser` |
| Api.ApiWrapper.SendTrackEvent | src/api-wrapper.ts:258-264 | resolves to undefined without sending anything |
| Api.ApiWrapper.SendConnectionEvent | src/api-wrapper.ts:179-193 | with batching off, it posts at once to `connection`. With batching on, it buffers the event with its push time and moves the flush deadline to now + 500 ms |
| Api.ApiWrapper.SendBatchConnectionEvents | src/api-wrapper.ts:195-205 | sends the whole buffer as one flush call, then empties the buffer and clears the timer |
| Api.BatchedConnectionEvent | src/api-wrapper.ts:179-192 | once initialise has switched batching on, awaiting `sendConnectionEvent` gives undefined, whatever the server would answer, and the event is not sent at once |
| LegacyApi.InitializeData | src/api-wrapper.mjs:73-83 | the initialize body is the caller's data plus userId, userName and apiKey. Data that is neither an object nor undefined is a TypeError |
| LegacyApi.FlushDropsEventNames | src/api-wrapper.mjs:206-222 | legacy batching reads `event` and `eventData`, which connection payloads never carry, so the flushed items lose eventName and data and keep only peerId and timeDelta |
| LegacyApi.ApiWrapper.constructor | src/api-wrapper.mjs:25-31 | a new legacy wrapper has an empty token, the legacy URL map, batching off and an empty buffer |
| LegacyApi.ApiWrapper.Initialize | src/api-wrapper.mjs:73-100 | builds the body (or fails before sending) and posts it to /initialize. A truthy answer sets the token, URLs and batching flag as in the current wrapper |
| LegacyApi.ApiWrapper.CreateSession | src/api-wrapper.mjs:102-111 | posts to the session URL and adopts a truthy returned token. A nullish answer is a TypeError |
| LegacyApi.ApiWrapper.SendCustomEvent | src/api-wrapper.mjs:132-140 | posts the custom-event body to `events-browser` |
| LegacyApi.ApiWrapper.SendConnectionEvent | src/api-wrapper.mjs:162-180 | in mock mode an `addPeer` is answered at once with `peer_id` = the peer id and nothing is sent. Otherwise the event is posted, or buffered with the flush deadline moved to now + 500 ms when batching is on |
| LegacyApi.ApiWrapper.SendBatchConnectionEvents | src/api-wrapper.mjs:182-192 | sends the whole buffer as one flush call, then empties the buffer and clears the timer |
| LegacyApi.BatchedConnectionEvent | src/api-wrapper.mjs:162-179 | once initialise has switched batching on, awaiting `sendConnectionEvent` gives undefined, whatever the server would answer |
| Validation.SanitiseMeta | src/index.ts:99-119 | exactly the meta tags whose key is at most 64 characters and whose value is a number, string or boolean are kept, each with its value |
| Validation.ValidateOptions | src/index.ts:66-119 | the options are accepted iff they are an object, with apiKey and conferenceId truthy, any appVersion a string of at most 16 characters, and any meta a truthy object with at most 5 keys (an array's keys are its indices). Otherwise the first failed check throws its own message: not an object, missing apiKey, missing conferenceId, appVersion not a string, appVersion too long, meta not an object, too many meta keys. An accepted result is the defaults merged with the options, with an object meta sanitised |
| Validation.CustomEventCheck | src/index.ts:470-485 | addEvent accepts iff the argument is an object (current) and not null, a truthy eventName has at most 120 characters, and the JSON text has at most 2048 characters. Each failure gives its own error |
| Validation.TrimPeerNameBound | src/index.ts:348-350 | the current SDK drops the first 64 characters of a long name, so the name fits 64 only when it was at most 128 long |
| Validation.CutPeerName | src/index.js:245-248 | the legacy SDK keeps exactly the first 120 characters of a longer name, and a name of at most 120 characters is unchanged |
| Payloads.IceCandidate | src/index.ts:825-844 | an ICE candidate is copied to a plain object with exactly the candidate fields, each read from the candidate |
| Payloads.GumPayload | src/index.ts:726-773 | a getUserMedia event fails iff its data is nullish. An error is reduced to name and message. Without a stream only constraints and error remain. With a stream the details are copied. With no error, the `error` key is the details' own (with a stream) or absent |
| Payloads.StatsPayload | src/index.ts:775-779 | the stats body has exactly data, peerId, connectionId and timeTaken (legacy: data and peerId), copied from the event |
| Payloads.TrackPayload | src/index.ts:781-811 | the body is built iff the data is not nullish, an `ontrack` event has a track, and a falsy track does not meet a `check` detail; otherwise a TypeError. The body has exactly event, peerId, connectionId, trackId and data. For `ontrack` the data is the track without `_track`. Otherwise it is `{check}` when the track is falsy and the event carries a check detail, else `{}` |
| Payloads.ConnectionData | src/index.ts:813-856 | the data sent per connection event: the options without `pc` for addConnection/addPeer, the candidate fields for onicecandidate, the error (legacy: its errorCode) for candidate errors, null for ondatachannel, and the data itself otherwise |
| Payloads.ConnectionPayload | src/index.ts:856-864 | the connection-event body has the event name (`peerDetails` for the add event), peerId, connectionId (current only), the data, and the timestamp only for a delayed event, else null |
| Payloads.HandlerEdits | src/index.ts:781-824 | what the handlers delete from the event object: an `ontrack` event's track loses `_track`, and an add event's options lose `pc`. Nothing but `data` changes, and the data left is the one sent |
| Payloads.ReplayStopsAtThrow | src/index.ts:673-680 | once a replayed event throws, nothing after it is sent and the queue is not cleared |
| Payloads.ReplaySendsInOrder | src/index.ts:673-680 | when every queued event resolves, the queue is replayed in order and cleared |
| Payloads.ReplayThrewAtLastHandled | src/index.ts:673-680 | a replay that threw handled a prefix of the queue ending at the throwing event, and nothing before that threw |
| Payloads.ReplayStep | src/index.ts:673-680 | one more event handled adds its dispatch to the calls or the re-queued events |
| Payloads.ReplayQueueStep | src/index.ts:673-680 | writing the handled event back into its slot moves the queue from one step of the replay to the next |
| Payloads.ReplayAccounts | src/index.ts:673-680 | each event re-queued or call sent by a replay comes from the queue, and together they are no more than the queue |
| Sdk.Without | src/index.ts:402 | filtering a peer's connection list removes exactly the given id and keeps the list free of duplicates |
| Sdk.Route | src/index.ts:706-721 | `getUserMedia`, `stats` and `track` events go to their own handlers, and every other tag goes to the connection handler. Only the gUM and track handlers can throw |
| Sdk.Resolve | src/index.ts:683-705 | an event with an unknown peer or connection is deferred marked delayed. A known peer's id is replaced by the server id, and a known connection's id by the server's |
| Sdk.Timeline | src/index.ts:683-722 | an event with an unknown peer or connection is queued marked delayed. A known peer's id is replaced by the server id before queueing or dispatch, and a known connection's id by the server's |
| Sdk.TouchedKeepsIds | src/index.ts:683-722 | after the handler, a queued event is the object queued, and a handled event of a known peer carries the server's peer id |
| Sdk.TouchedAllAt | src/index.ts:673-680 | the rewritten queue holds each event as the handler left it, position by position |
| Sdk.LeftBehind | src/index.ts:673-680 | the queue after a replay that threw: the handled events as rewritten, then the rest untouched, then the re-queued ones |
| Sdk.HandledEventDeferredOnNextReplay | src/index.ts:673-705 | after a throw, a handled event of a known peer carries the server id, and unless that id is also an application peer id, the next replay queues it |
| Sdk.ReplayAfterThrowQueuesSentStats | src/index.ts:673-811 | a stats event sent during a replay that then throws on an `ontrack` without a track is queued on the next replay |
| Sdk.Dispatches | src/index.ts:673-678 | draining maps each queued event to one dispatch against the current registry |
| Sdk.PartiallyResolvedEventQueuedAgain | src/index.ts:684-705 | an event whose peer resolves but whose connection does not is queued with the server peer id, and stays queued against any later registry that lacks that server id as a key |
| Sdk.Registered | src/index.ts:664-671 | registering a connection keeps the key order listing every monitored peer exactly once |
| Sdk.Owner | src/index.ts:385-391 | the owner found is a peer, in insertion order, whose connection list holds the id. None means no peer holds it |
| Sdk.OwnerIsFirst | src/index.ts:385-391 | the owner found is the first peer in insertion order whose connection list holds the id |
| Sdk.RemoveConnectionEffect | src/index.ts:373-403 | an unknown or falsy connection does nothing. Otherwise a removeConnection event is sent, and on success the connection key is dropped and the id leaves its owner's list. With no owner the result is a TypeError |
| Sdk.SecondConnectionOrphansFirst | src/index.ts:664-671 | a second connection for a peer replaces the first in its list, so removing the first then finds no owner and throws |
| Sdk.AddConnectionRequest | src/index.ts:315-368 | addConnection is accepted iff the SDK is initialised and has stats, the options are an object with truthy pc and peerId, a truthy peerName is a string, and peerId ≠ userId. The request body has exactly eventName, peerId, peerName (trimmed), connectionState and isSfu |
| Sdk.PeerMetrics.constructor | src/index.ts:32-39 | a new SDK has an empty registry and queue and is not initialised |
| Sdk.PeerMetrics.FinishInitialize | src/index.ts:250-253 | after initialise the SDK is initialised with a stats module |
| Sdk.PeerMetrics.HandleTimelineEvent | src/index.ts:683-722 | the event is queued, sent or dropped exactly as `Timeline` decides, and a throwing handler surfaces as a TypeError. The object it leaves is the event as `Touched` says |
| Sdk.PeerMetrics.AddConnection | src/index.ts:315-368 | a valid request sends the addConnection event and returns the connection id. An invalid one sends nothing and fails with the validation error |
| Sdk.PeerMetrics.CompleteAddConnection | src/index.ts:641-681 | a rejected or falsy answer removes the connection (changing nothing without a stats module) and fails. A truthy answer registers the peer and connection, then replays the queue: it is cleared unless a replayed event throws. After a throw it holds the handled events as rewritten, the rest untouched, then the re-queued events |
| Sdk.PeerMetrics.ReplayNext | src/index.ts:675-677 | one turn of the replay: the calls grow as `Replay` says and the handled event is written back into its slot |
| Sdk.PeerMetrics.DrainEventQueue | src/index.ts:673-680 | the queue is replayed against the registry. The calls sent are those of `Replay`. The queue is cleared unless a replayed event throws; after a throw it holds the handled events as rewritten, the rest untouched, then the re-queued events |
| Sdk.PeerMetrics.RemoveConnection | src/index.ts:373-403 | without a stats module it is a TypeError with nothing changed; otherwise the registry and calls change exactly as `RemoveConnectionEffect` says |
| Sdk.PeerMetrics.RemovePeer | src/index.ts:409-426 | a non-string id or an unknown peer throws, and then a missing stats module is a TypeError, each with nothing sent or changed. Otherwise removePeer is sent, and on success the peer leaves the map and the key order while the connection map is kept |
| Sdk.PeerMetrics.AddEvent | src/index.ts:470-489 | the event is sent iff `CustomEventCheck` accepts it, and otherwise the check's error is returned |
| Sdk.PeerMetrics.EndCall | src/index.ts:508-522 | with a stats module the registry is cleared and the SDK uninitialised. The call always ends in a TypeError, because `sendEndCall` is not defined |
| Sdk.RemovePeerAfterEndCall | src/index.ts:409-426 | a peer registered after `endCall` cannot be removed: `removePeer` throws a TypeError on the missing stats module and the peer stays registered |
| Sdk.BatchedAddConnectionNeverRegisters | src/index.ts:641-657 | with batching on, a valid addConnection still resolves `{connectionId}`, while the registration behind it rejects with "There was a problem while adding this connection" and registers no peer |
| LegacySdk.Route | src/index.js:437-451 | `getUserMedia` and `stats` go to their handlers, `track` is ignored, and every other tag goes to the connection handler. Only gUM can throw |
| LegacySdk.Resolve | src/index.js:425-436 | an event with a truthy peer id that does not resolve to a truthy server id is deferred marked delayed, and a resolved one carries the server id |
| LegacySdk.Timeline | src/index.js:425-452 | an event with a truthy peer id that does not resolve to a truthy server id is queued delayed, and a resolved one is dispatched with the server id |
| LegacySdk.TouchedKeepsIds | src/index.js:425-452 | after the handler, a queued event is the object queued, and a resolved event carries the server's peer id |
| LegacySdk.TouchedAllAt | src/index.js:268-274 | the rewritten queue holds each event as the handler left it, position by position |
| LegacySdk.LeftBehind | src/index.js:268-274 | the queue after a replay that threw: the handled events as rewritten, then the rest untouched, then the re-queued ones |
| LegacySdk.HandledEventDeferredOnNextReplay | src/index.js:264-274 | after a throw, a handled event of a resolved peer carries the server id, and unless that id is also a resolved application peer id, the next replay queues it |
| LegacySdk.Dispatches | src/index.js:268-274 | draining maps each queued event to one dispatch against the peer map |
| LegacySdk.FalsyServerIdNeverResolves | src/index.js:264-274 | when the server answered a falsy peer id, every event for that peer is re-queued on every drain and none is sent |
| LegacySdk.AddPeerRequest | src/index.js:223-262 | addPeer is accepted iff the SDK is initialised with stats, the options are an object with truthy pc and peerId, and any peerName is a string. The body has exactly eventName `addPeer`, peerId and the cut peerName |
| LegacySdk.PeerMetrics.constructor | src/index.js:43-45 | a new legacy SDK has no peers, an empty queue and is not initialised |
| LegacySdk.PeerMetrics.FinishInitialize | src/index.js:208-215 | after initialise the SDK is initialised with a stats module |
| LegacySdk.PeerMetrics.HandleTimelineEvent | src/index.js:425-452 | the event is queued, sent or dropped exactly as `Timeline` decides, and the object it leaves is the event as `Touched` says |
| LegacySdk.PeerMetrics.AddPeer | src/index.js:223-280 | an invalid request sends nothing. Otherwise addPeer is sent, and a non-nullish answer records `peer_id` for the peer and replays the queue. After a throw the queue holds the handled events as rewritten, the rest untouched, then the re-queued events |
| LegacySdk.PeerMetrics.ReplayNext | src/index.js:270-272 | one turn of the replay: the calls grow as `Replay` says and the handled event is written back into its slot |
| LegacySdk.PeerMetrics.DrainEventQueue | src/index.js:268-274 | the queue is replayed against the peer map and cleared unless a replayed event throws; after a throw it holds the handled events as rewritten, the rest untouched, then the re-queued events |
| LegacySdk.PeerMetrics.RemovePeer | src/index.js:282-288 | removing a peer that is not monitored under a truthy id throws "Could not find peer with id …"; a monitored one is a TypeError without a stats module, and succeeds with one |
| LegacySdk.BatchedAddPeerFails | src/index.js:259-267 | with batching on, a valid addPeer fails with a TypeError on `response.peer_id` and records no peer |
| LegacySdk.PeerMetrics.AddEvent | src/index.js:374-388 | the event is sent iff `CustomEventCheck` (legacy) accepts it, and otherwise the check's error is returned |

## Left out

- The transport (wretch/fetch, its 10-second timeout, `sendBeacon`) is not modelled. Each attempt's outcome and send time are inputs.
- Mock requests' random delay is not modelled, and neither is the start/log timing; these are clock and logging side effects.
- The real timers are not modelled. The batch timer is the pending flush deadline (`None` after a flush), not the stale timer id the source keeps. The retry wait is the value in the trace.
- Asynchronous interleaving is not modelled. Each entry point is one atomic step, including the un-awaited `removeConnection` inside `_sendAddConnectionRequest`.
- The browser glue is not modelled: page listeners, `WebRTCStats` and the stats-module setup. Connection ids and stats events are inputs.
- Module-level state shared between instances is kept per instance.
- Key enumeration order is not modelled: JSON objects are maps, for-in order of integer-like keys is not distinguished, and neither are prototype keys and spreads of arrays or strings. Objects compare by value, not by reference.
- Lengths are Dafny string lengths, not UTF-16 code units. `JSON.stringify` is an input: its length, or whether it succeeds.
- Numbers are integers. A truthy timestamp that is not a number is not modelled.
- Other wrapper and SDK methods are not part of this model: `addSessionDetails`, `sendPageEvent`, `sendMediaDeviceChange`, mute/unmute, `getPageUrl`, `sendLeaveEvent`. The SDK integrations and `user.ts`/`user.mjs` are not part of this model either.
- LegacyApi.InitializeData: requires that the data is not an array; the property spread of an array into the body is not modelled.
- LegacyApi.ApiWrapper.Initialize: requires that the data is not an array, for the same reason.
- LegacySdk.AddPeerRequest: does not model the cut peer name being written back into the caller's options object.
- LegacySdk.PeerMetrics.RemovePeer: states only the result; the stats module's own `removePeer`, called after the check, is not part of this model.
- Validation.ValidateOptions: the elements of an array meta are not deleted; only an object meta is sanitised, and an accepted array meta is kept as given.
- Sdk.TouchedKeepsIds: states only the ids; that the handler changes nothing but `data` is stated by `Payloads.HandlerEdits`.
- Sdk.PeerMetrics.DrainEventQueue, Sdk.PeerMetrics.CompleteAddConnection, LegacySdk.PeerMetrics.DrainEventQueue, LegacySdk.PeerMetrics.AddPeer: an event queued again is the same object as its slot in the source; the model keeps two equal values, so a later change to one is not seen in the other.
- Validation.SanitiseMeta: returns a new map; in the source the deletions reach the caller's own meta object, since the options spread copies only one level deep.
