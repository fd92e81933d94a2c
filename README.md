# ModularStreamingBridge: a verified model of the bridge core

ModularStreamingBridge is a small Node.js service. It sits between an HTTP
client, an OBS Studio instance reached over obs-websocket v5, and n8n
workflows. This project models its core in Dafny and proves properties of
that model. The core has five parts:

- **ObsService** (`obs_service.dfy`) is the OBS connection.
  - It keeps a `ready` flag, a reconnect `attempt` counter and a queue of
    HTTP exchanges that arrived while OBS was offline.
  - Reconnects wait `min(2000 · 2^attempt, 60000)` ms, scaled by a jitter
    factor in [0.9, 1.1).
  - When the connection comes up, the queue is flushed.
  - A queued entry still unanswered after 30 s is removed and answered 408.
  - A heartbeat asks OBS for its version every 30 s while connected.
- **ObsHelpers** (`obs_helpers.dfy`) has three jobs.
  - It computes the crop rectangle that zooms a camera source onto a focus
    point.
  - It reads a source's resolution, falling back to 1920×1080.
  - It caches resolutions and scene-item ids; the caches can be cleared.
- **ChaturbateService** (`chaturbate_service.dfy`) is the long-poll loop.
  - It fetches events since the last seen id, forwards each event to n8n
    and advances the cursor to the largest id seen.
  - It follows `nextUrl` at once, or idles 10 s when there is none.
  - After a failure it backs off 2–5 s. It stops when `disconnect` clears
    `polling`.
- **N8nClient** (`n8n_client.dfy`) builds the webhook URL for live or test
  mode and the JSON/bearer headers, then posts one event.
- **ObsController** (`obs_controller.dfy`) holds the three HTTP routes.
  - `POST /obs` forwards a command.
  - `GET /obs/preview` screenshots the preview scene, falling back to the
    program scene.
  - `POST /obs/zoom` crops a source and switches to its scene.

Shared modules:

- `values.dfy`: Option, Result, a JSON value type and JavaScript truthiness.
- `http.dfy`: the Express response. `Send` requires that nothing was sent
  yet, so every handler is proved to answer at most once.
- `obs_websocket.dfy`: the OBS peer.

External parties are modelled as follows, so the proofs hold for every
possible behaviour of the outside world:

- OBS is the oracle object `Peer`. It logs every call it receives and
  answers according to a function fixed when the object is created.
- The n8n endpoint is the oracle object `Network`. It logs every POST and
  settles it the same way.
- The Chaturbate events API has no object. Each poll iteration receives its
  response as the `response` of a scripted `Tick`, and the service's ghost
  `requests` log records each GET it sends, as its URL and `since` cursor.
- The HTTP client of the bridge's own routes is not an oracle. The handlers
  write to `Http.Response`, the Express response, which holds the one reply
  sent.

Timers and library events are explicit method calls. The JavaScript
callbacks are `Connect`, `OnConnectTimer`, `OnConnectionError`,
`OnConnectionClosed`, `OnQueueTimeout` and `OnHeartbeatTick`.

The poll loop is driven by a script of ticks. Each tick holds the HTTP
outcome, the random draw and whether `disconnect` happened during it.

Numbers are exact reals, and `Math.round` is `⌊v + ½⌋`.

Where the code behaves in ways a reader may not expect, the model follows
the code:

- A failed `obs.connect` in the reconnect timer only logs. It does not
  increase `attempt` and does not schedule another try. Only the library's
  `ConnectionError` event increases `attempt`, and only `ConnectionClosed`
  calls `connect` again.
- After an idle 10 s wait, the poller requests the same URL again. That
  may be an earlier `nextUrl`, not the configured base URL.
- `POST /obs` while offline answers 202 at once. So the queued entry's
  exchange is already answered when it times out or is flushed. Its
  command is never sent to OBS, as `QueuedCommandNeverReachesObs` shows.

## Model

| member | source | states |
|---|---|---|
| ObsService.Pow2 | src/services/obsService.js:88 | `2 ** attempt` is at least 1 and exceeds `attempt` |
| ObsService.Pow2Monotone | src/services/obsService.js:88 | `2 ** attempt` grows with the attempt count |
| ObsService.BaseDelay | src/services/obsService.js:11-12 | the un-jittered reconnect delay is between the 2000 ms base and the 60000 ms cap |
| ObsService.BaseDelayMonotone | src/services/obsService.js:88 | more failed attempts never shorten the delay |
| ObsService.BaseDelaySchedule | src/services/obsService.js:88 | the delay doubles from 2000 ms for attempts 0–4 and is capped at 60000 ms from attempt 5 on |
| ObsService.ReconnectDelay | src/services/obsService.js:88-89 | the jittered wait lies in [0.9·d, 1.1·d) of the base delay d, hence in [1800, 66000) ms |
| ObsService.JitterBounds | src/services/obsService.js:89 | for any delay in [2000, 60000] and draw in [0, 1), the jitter keeps the wait within ±10 % |
| ObsService.NonFalsy | src/services/obsService.js:188 | a falsy OBS result becomes `{}`, any other result or failure is passed through unchanged |
| ObsService.FlushReply | src/services/obsService.js:123-148 | the answer one flushed entry ends with: an earlier answer is kept; otherwise 400 without `requestType`, 500 "OBS not connected" offline, else 200 with the call's non-falsy result when OBS answers it and 500 with `{error: message}` when OBS fails it |
| ObsService.AnsweredQueueMakesNoCalls | src/services/obsService.js:123-128 | a queue whose exchanges are all answered produces no OBS call when flushed |
| ObsService.FindIndex | src/services/obsService.js:167 | returns -1 exactly when the entry is not queued, otherwise the index of its first occurrence |
| ObsService.QueueItem.constructor | src/services/obsService.js:157-161 | an entry records the request, the response and the enqueue time |
| ObsService.ObsService.constructor | src/services/obsService.js:6-13 | a new service is not ready, has attempt 0, an empty queue and a fresh OBS peer with no calls |
| ObsService.ObsService.IsReady | src/services/obsService.js:200-202 | reports the `ready` flag |
| ObsService.ObsService.Connect | src/services/obsService.js:87-91 | the reconnect timer is armed with the jittered delay for the current attempt count |
| ObsService.ObsService.OnConnectTimer | src/services/obsService.js:91-102 | on success: ready, attempt reset, queue emptied, exactly the pending calls sent in queue order, and entry i answered as `FlushReply` says for the call OBS answers at its position; on failure nothing changes, queued replies included |
| ObsService.ObsService.OnConnectionError | src/services/obsService.js:54-57 | a connection error increases the attempt count by one and changes nothing else |
| ObsService.ObsService.OnConnectionClosed | src/services/obsService.js:59-63 | a closed connection clears `ready` and re-arms the reconnect timer with the current attempt's delay |
| ObsService.ObsService.OnHeartbeatTick | src/services/obsService.js:74-82 | a `GetVersion` call is made exactly when the service is ready |
| ObsService.ObsService.FlushQueue | src/services/obsService.js:108-116 | empties the queue, sends OBS exactly the pending commands in queue order when ready and none otherwise, and leaves entry i with the answer `FlushReply` gives for the call OBS answers at its position (an earlier answer is never overwritten) |
| ObsService.ObsService.DispatchFirst | src/services/obsService.js:109-114 | one flush step removes the head entry, sends its pending call, if any, and leaves on it the answer `FlushReply` gives for the next call number |
| ObsService.ObsService.Shift | src/services/obsService.js:110 | removes the head of the queue; the pending calls split into the head's and the rest's |
| ObsService.ObsService.HandleQueuedRequest | src/services/obsService.js:123-148 | an already answered exchange is skipped; a missing `requestType` is answered 400; otherwise one OBS call is made and its result or error answered |
| ObsService.ObsService.QueueRequest | src/services/obsService.js:155-163 | appends a fresh entry for the exchange to the end of the queue |
| ObsService.ObsService.OnQueueTimeout | src/services/obsService.js:166-172 | removes the entry and answers 408 exactly when it is still queued and unanswered; otherwise nothing changes |
| ObsService.ObsService.CallObs | src/services/obsService.js:181-194 | offline: fails with "OBS not connected" and makes no call; online: exactly one call with the data or `{}` |
| ObsService.ObsService.Disconnect | src/services/obsService.js:215-220 | closes the connection once when ready and clears `ready`; otherwise changes nothing |
| ObsHelpers.Round | src/utils/obsHelpers.js:69-72 | `Math.round` lies within half a unit of its argument |
| ObsHelpers.RoundMonotone | src/utils/obsHelpers.js:69-72 | rounding preserves order |
| ObsHelpers.RoundIntegral | src/utils/obsHelpers.js:69-72 | rounding a whole number returns it |
| ObsHelpers.CropsForFocus | src/utils/obsHelpers.js:68-86 | left and top crops are non-negative; on each axis the two crops and the window add up to the frame size |
| ObsHelpers.CropsInsideFrame | src/utils/obsHelpers.js:77-84 | when the window fits in the frame, all four crops are non-negative |
| ObsHelpers.ZoomInFits | src/utils/obsHelpers.js:69-70 | for a whole-pixel frame and zoom ≥ 1 the window fits in the frame |
| ObsHelpers.CropsCentredWhenFitting | src/utils/obsHelpers.js:74-78 | when the centred window fits, it is not moved by the clamp |
| ObsHelpers.CropsFlushAgainstEdge | src/utils/obsHelpers.js:77-78 | a focus point past an edge puts the window flush against that edge |
| ObsHelpers.CropsIntegral | src/utils/obsHelpers.js:69-84 | for whole-pixel frame sizes all four crops are whole numbers |
| ObsHelpers.CropsTopLeftCorner | src/utils/obsHelpers.js:68-86 | a 2× zoom on (0, 0) of a 1920×1080 frame keeps the top-left quarter |
| ObsHelpers.ResolutionFromReply | src/utils/obsHelpers.js:32-39 | a failed call or a falsy width or height gives 1920×1080; otherwise the reported width and height |
| ObsHelpers.GetSourceResolutionFromObs | src/utils/obsHelpers.js:30-40 | makes one `GetInputSettings` call for the source and returns its resolution or the default |
| ObsHelpers.SceneItemKeyAmbiguous | src/utils/obsHelpers.js:50 | two different scene/source pairs can share one cache key |
| ObsHelpers.Caches.constructor | src/utils/obsHelpers.js:5-6 | both caches start empty |
| ObsHelpers.Caches.GetSourceResolution | src/utils/obsHelpers.js:14-22 | a cached source makes no call; otherwise one call and the result is cached |
| ObsHelpers.Caches.GetSceneItemId | src/utils/obsHelpers.js:49-56 | a truthy cached id makes no call; otherwise one `GetSceneItemId` call whose id is cached and returned; a failed call returns its message and a `null` answer the destructuring error, both leaving the cache unchanged |
| ObsHelpers.Caches.ClearCaches | src/utils/obsHelpers.js:91-94 | both caches become empty |
| ObsWebSocket.Peer.Request | src/services/obsService.js:188 | each call is logged and answered as the peer's answer function says |
| ObsWebSocket.Peer.Close | src/services/obsService.js:217 | a disconnect is counted and no call is made |
| Http.Response.Send | src/controllers/obsController.js:20 | a response is sent once and then holds its reply |
| N8nClient.Network.Send | src/clients/n8nClient.js:68 | each POST is logged and settled as the network's outcome function says |
| N8nClient.N8nClient.constructor | src/clients/n8nClient.js:15-20 | the client keeps its configuration and starts in live mode |
| N8nClient.N8nClient.SetTestMode | src/clients/n8nClient.js:26-28 | sets the mode; the parameter defaults to true |
| N8nClient.N8nClient.WebhookUrl | src/clients/n8nClient.js:35-37 | the URL is the instance, then `webhook/` or `webhook-test/`, then the webhook path |
| N8nClient.N8nClient.Headers | src/clients/n8nClient.js:44-54 | always a JSON content type; an `Authorization: Bearer` header exactly when the token is non-empty |
| N8nClient.N8nClient.ForwardEvent | src/clients/n8nClient.js:63-74 | posts the event once to the webhook URL with the headers and reports the delivery failure to the caller |
| N8nClient.TestModeChangesUrl | src/clients/n8nClient.js:36 | live and test mode never post to the same URL |
| ChaturbateService.CursorAfter | src/services/chaturbateService.js:56-57 | the cursor after a batch is at least the old cursor and every event id, and is one of them |
| ChaturbateService.CursorAfterAppend | src/services/chaturbateService.js:56-57 | advancing over two batches equals advancing over their concatenation |
| ChaturbateService.PollStep | src/services/chaturbateService.js:49-72 | a failure keeps cursor and URL and sleeps 2–5 s; a success forwards the batch, advances the cursor, follows a truthy `nextUrl` at once or keeps the URL and sleeps 10 s |
| ChaturbateService.ExampleBatch | src/services/chaturbateService.js:56-59 | ids 5, 3, 8 from cursor 0 are all forwarded in order and leave the cursor at 8 |
| ChaturbateService.ReplayCursor | src/services/chaturbateService.js:47-73 | over any run of iterations the cursor never decreases and equals the largest id forwarded, or its start value |
| ChaturbateService.ReplayGets | src/services/chaturbateService.js:45-52 | a run sends one GET per iteration; the i-th goes to the URL reached after i iterations with `since` set to the cursor reached then |
| ChaturbateService.GetsFollowNextUrl | src/services/chaturbateService.js:45-66 | the first GET goes to the configured URL with the start cursor; each later one to the `nextUrl` the previous iteration followed (or the same URL), with `since` set to the cursor it left |
| ChaturbateService.Ran | src/services/chaturbateService.js:47 | the loop runs up to and including the first iteration during which a stop was requested |
| ChaturbateService.RanIsFirstStop | src/services/chaturbateService.js:47 | the loop's iteration count and final `polling` are those of the first stop in the script |
| ChaturbateService.Deliveries | src/services/chaturbateService.js:80-92 | with a client, one POST per event in order; without one, none |
| ChaturbateService.DeliveriesAppend | src/services/chaturbateService.js:56-59 | the POSTs for two batches are the POSTs for their concatenation |
| ChaturbateService.LoggedCursorCovers | src/services/chaturbateService.js:56-58 | each event is forwarded after the cursor has passed its id, and cursors along a batch never decrease |
| ChaturbateService.CursorAfterPrefix | src/services/chaturbateService.js:57 | the cursor over a longer prefix of a batch is never smaller |
| ChaturbateService.ChaturbateService.constructor | src/services/chaturbateService.js:7-11 | a new poller is stopped, at cursor 0, with the given client |
| ChaturbateService.ChaturbateService.StartEventPolling | src/services/chaturbateService.js:33-39 | starts one loop only when not already polling; otherwise changes nothing |
| ChaturbateService.ChaturbateService.Disconnect | src/services/chaturbateService.js:105-108 | clears `polling` and changes nothing else |
| ChaturbateService.ChaturbateService.ForwardEventToN8n | src/services/chaturbateService.js:80-92 | posts the event when a client is configured; a delivery failure is swallowed |
| ChaturbateService.ChaturbateService.ForwardOne | src/services/chaturbateService.js:57-58 | advances the cursor over one event, then forwards it |
| ChaturbateService.ChaturbateService.ForwardBatch | src/services/chaturbateService.js:56-59 | the cursor ends at the batch's maximum, the batch is posted in order, and each event goes out after the cursor covers it |
| ChaturbateService.ChaturbateService.PollIteration | src/services/chaturbateService.js:48-72 | one iteration requests the URL with `since` set to the cursor, then acts as `PollStep` says |
| ChaturbateService.ChaturbateService.RunTick | src/services/chaturbateService.js:47-72 | one iteration: one GET of the URL with `since` set to the cursor is logged, cursor, next URL and POSTs follow `PollStep`, and afterwards `polling` is false exactly when a stop was requested or it was already false |
| ChaturbateService.ChaturbateService.PollEvents | src/services/chaturbateService.js:44-74 | runs until the first stop; the cursor, the POSTs and the GETs sent are those of replaying the iterations that ran; the cursor never decreases |
| ObsController.PostCommand | src/controllers/obsController.js:14-35 | offline: queued and answered 202 with no call; online: 400 without `requestType`, otherwise one call whose result or error is the answer |
| ObsController.QueuedCommandNeverReachesObs | src/controllers/obsController.js:18-21 | a command posted offline is answered 202, is not timed out, and sends no call to OBS when the connection comes up |
| ObsController.Dimension | src/controllers/obsController.js:56-57 | the screenshot size is the query value (default 1920 or 1080) clamped to [64, 4096] |
| ObsController.IndexOf | src/controllers/obsController.js:67 | the first position of a character, or -1 when absent |
| ObsController.StripDataUrl | src/controllers/obsController.js:66-68 | a data URL yields the text between its first and second comma; other strings are used as they are |
| ObsController.ContainsAt | src/controllers/obsController.js:76 | a substring at any position is found by `includes` |
| ObsController.ContainsWitness | src/controllers/obsController.js:76 | whatever `includes` finds occurs at some position |
| ObsController.PreviewFailure | src/controllers/obsController.js:73-82 | a failure is the "does not understand" 500 exactly when its message contains the invalid-request marker, and "Preview failed" otherwise |
| ObsController.PreviewExchange | src/controllers/obsController.js:47-82 | asks for the preview scene, and for the program scene exactly when that fails; screenshots the scene that answered at the clamped size; when both fail answers with the second failure; a failed screenshot gives its failure answer, an image a 200 JPEG of the stripped image, no image "Preview failed" |
| ObsController.GetPreview | src/controllers/obsController.js:41-83 | 503 with no call while offline; otherwise the calls and answer of the preview exchange |
| ObsController.ParseZoom | src/controllers/obsController.js:96-99 | rejects exactly a falsy scene or source or a non-number x or y; a missing zoom is 2 |
| ObsController.ZoomLookup | src/controllers/obsController.js:101-102 | a cached source makes no `GetInputSettings` call, otherwise its answer gives the resolution; a cached id makes no further call, otherwise one `GetSceneItemId` call whose id is the error exactly when it fails or answers `null` |
| ObsController.LookUp | src/controllers/obsController.js:101-102 | makes exactly the calls of `ZoomLookup` and returns its resolution and id; the resolution is cached, and a found id is cached under the scene/source key |
| ObsController.TransformAttempt | src/controllers/obsController.js:106-112 | offline: no call and "OBS not connected"; otherwise the crop call, and the switch call exactly when the crop call succeeds; the failure is that of the first failing call |
| ObsController.Transform | src/controllers/obsController.js:106-112 | sends exactly the calls of `TransformAttempt` and fails exactly as it says |
| ObsController.ZoomExchange | src/controllers/obsController.js:101-128 | the lookup calls come first and at most the crop and switch calls follow; the answer is 200 or a 500 text |
| ObsController.ZoomOutcome | src/controllers/obsController.js:101-128 | 200 exactly when ready, the id is found and both the crop and the switch call succeed, with the crop then switch calls and the crops summary; a lookup error, the offline case and a failing call each give a 500 with that message |
| ObsController.ApplyZoom | src/controllers/obsController.js:101-128 | sends exactly the calls of `ZoomExchange` and answers as it says; the caches are updated as `ZoomLookup` says; on success the last two calls are the crop and the switch, and the answer reports the crops of `cropsForFocus` |
| ObsController.ZoomCropsWholeAndInside | src/controllers/obsController.js:104 | for whole-pixel sources and zoom ≥ 1 every crop sent is a non-negative whole number |
| ObsController.PostZoom | src/controllers/obsController.js:90-129 | 503 with no call while offline, 400 for an invalid body, otherwise exactly the calls and answer of `ZoomExchange` |

## Left out

- Timers, `setInterval` and `setTimeout` are not scheduled. Each callback is a method the caller invokes, and the delay it would wait is returned.
- `Math.random` is not modelled. Each draw is a parameter in [0, 1): `Connect`, `OnConnectionClosed` and the poll loop's ticks take it.
- Floating point is not modelled. JavaScript numbers are exact reals, so rounding of intermediate IEEE values is not captured.
- The process-wide `uncaughtException` and `unhandledRejection` hooks (src/services/obsService.js:28-48) are left out. They ignore an error whose message contains "Unexpected server response" (the OBS handshake error); for any other error they end the process with `process.exit(1)`, and ending the process is outside this model.
- `ObsService.initialize` and `ChaturbateService.initialize` are left out, because they only wire configuration to the modelled methods.
- The `CurrentProgramSceneChanged` handler is left out, because it only logs.
- `getObsInstance` is left out; the handlers use the peer directly.
- Logging, and the log text inside the failure messages, are left out.
- The heartbeat's failure handler is not modelled beyond making no change, because it only logs.
- The HTTP handlers `GetPreview`, `ApplyZoom` and `PostZoom` run without interleaved connection events: `ready` is fixed for the whole handler. In the source a `ConnectionClosed` event can arrive between two awaits (for example between src/controllers/obsController.js:49 and :59, or between :106 and :112); every later `callObs` then fails with "OBS not connected" without reaching OBS (src/services/obsService.js:182-184). The model can only let the peer fail such a call, and it still logs the call as sent.
- The flush in the source starts queued exchanges without awaiting them. The model runs them one after another, so interleavings of their OBS calls are not captured.
- Connection handshakes and the address and password of `obs.connect` are not modelled. A connect attempt is the boolean outcome of `OnConnectTimer`.
- Axios timeouts and HTTP transport details are not modelled. A poll is the `PollResponse` value of its tick.
- `parseInt` is not modelled. Query values arrive as `Option<int>`, so `NaN` (a non-numeric `w` or `h`) is not modelled.
- Base64 decoding, and the `Content-Type` and `Cache-Control` headers of the preview answer, are not modelled. The answer carries the base64 text.
- ObsHelpers.Caches.GetSourceResolution: the source cache is a plain JavaScript object (src/utils/obsHelpers.js:5), so `sourceResolutionsCache[sourceName]` at :15 is also truthy for the names every object inherits ("constructor", "toString", "hasOwnProperty", "valueOf" and the like). Such a name is a cache hit in the code that returns a function, so `camW` and `camH` are undefined and the crops become `NaN`; storing under "__proto__" at :20 replaces the object's prototype instead of adding an entry. The model's cache is a map that holds only stored keys, so these names are misses that ask OBS. The scene-item cache is not affected, because its keys always contain '-'.
- ObsController.PostZoom and ObsController.ParseZoom: `PostZoom` requires `ZoomBodyModelled`, so non-object bodies, truthy non-string scene or source, a zoom of 0 or a non-number zoom are not covered. An explicit `null` zoom is treated like a missing one (JavaScript keeps `null` and divides by it).
- ObsHelpers.CropsForFocus: requires a non-zero zoom, because a zero zoom divides by zero (Infinity/NaN in JavaScript).
- ObsHelpers.ResolutionFromReply: a truthy width or height that is not a number (a string, say) is returned as it is by the source (src/utils/obsHelpers.js:35); the model's `Resolution` holds numbers only, so it answers such a reply with 1920×1080.
- Event ids are integers in the model. An event without an `id`, or with a non-numeric one, which makes `Math.max` yield `NaN` and leaves the cursor `NaN` (src/services/chaturbateService.js:57), is not modelled.
- Calling `disconnect()` and then `startEventPolling()` while the previous loop is still inside an iteration starts a second loop that shares `lastEventId` with the first (src/services/chaturbateService.js:33-39, 105-108). Concurrent loops are not modelled: `PollEvents` runs one loop to its first stop.
- A command's `requestType` is an optional string, so truthy values that are not strings are not covered.
- `src/app.js`, `src/server.js`, `src/config.js`, `src/utils/logger.js` and `src/controllers/chaturbateController.js` are not part of this model.
