# Websocket service of the mempool frontend

This project models `WebsocketService`, the client that keeps the mempool web
frontend connected to its server.

- It sends `init` when it starts or restarts.
- It takes every inbound frame apart field by field and pushes the parts onto the
  subjects of the shared `StateService`.
- It keeps the block height monotonic and tracks the server's build
  identifier, scheduling a page reload when that identifier changes.
- It remembers the interests the user registered (a want list, a tracked
  transaction and a tracked address) and replays them on the first frame after a
  transport error.

The model has four modules:

- `Messages` holds the values: an optional field, the inbound `Response` record,
  outbound `Request` frames, opaque payloads, blocks, and the `Timer` entries for
  restart and reload, each with its delay.
- `Transitions` is the service as a state machine on values. There is one
  function per handler step in source order (`ReceiveBlocks` …
  `ReceiveMempoolInfo`), then `Dispatch`, the reconnect replay `Reconnect`,
  `HandleResponse`, `HandleError` and the four intent operations, the invariant
  `Inv`, and `Call`/`Run` for arbitrary sequences of events.
- `Properties` holds the lemmas about that machine, from one frame up to whole
  runs.
- `Service` holds the two classes, whose fields are updated in place.
  - `StateService` has a real `latestBlockHeight` and one ghost log per subject.
  - `WebsocketService` has the five private fields plus ghost logs of the frames
    sent (`outbound`) and the timers scheduled (`scheduled`).
  - Every method is proved to perform exactly the matching step of
    `Transitions` and to preserve `Inv`.
  - The frame handler's `forEach` loops are `for` loops with invariants.
  - The frame handler is one method per field (`ReceiveBlocks`, `ReceiveBlock`, …,
    `Reconnect`). `HandleResponse` calls them in the source's order.

The code's quirks are modelled as written:

- The replay runs after the frame's own fields are handled. A confirmation in
  that frame therefore clears the tracked transaction before the replay reads it.
- The tracked address is replayed through the transaction primitive. It is sent
  as `track-tx` and overwrites the tracked transaction.
- The reload baseline is set once and never updated, so every later differing
  frame schedules one more reload.
- JavaScript truthiness decides presence:
  - an empty string counts as absent (the build identifier, the tracked
    transaction, the tracked address);
  - the `blocks` batch also needs a non-zero length;
  - an empty want list still counts as set.

The random reload delay `Math.floor(Math.random() * 60000)` is the parameter
`jitter` of subset type `Jitter` (0 ≤ jitter < 60000), and the delay scheduled is
`jitter + 1000`.

## Model

| member | source | states |
|---|---|---|
| Transitions.FilterBlocks | frontend/src/app/services/websocket.service.ts:32-40 | the final latest height is at least the starting one, equals the last emitted block's height (or the start when nothing is emitted), and every emitted block comes from the batch |
| Transitions.ReceiveBlocks | frontend/src/app/services/websocket.service.ts:32-40 | a `blocks` batch of non-zero length is run through the height filter; its properties are proved in FilterBlocksAt, FilterBlocksReachesMax and FilterBlocksIncreasing |
| Transitions.ReceiveBlock | frontend/src/app/services/websocket.service.ts:42-52 | the single block is filtered against the latest height and, with txConfirmed, clears the tracked transaction and is pushed on txConfirmed$ (TxConfirmation, SingleBlockHandler) |
| Transitions.ReceiveConversions | frontend/src/app/services/websocket.service.ts:54-56 | pushes conversions when present (PayloadsPassThrough) |
| Transitions.ReceiveMempoolBlocks | frontend/src/app/services/websocket.service.ts:58-60 | pushes mempool-blocks when present (PayloadsPassThrough) |
| Transitions.ReceiveGitCommit | frontend/src/app/services/websocket.service.ts:62-72 | a non-empty identifier sets an empty baseline or, when it differs, schedules one reload (GitCommitHandling) |
| Transitions.ReceiveAddressTransactions | frontend/src/app/services/websocket.service.ts:74-78 | appends the listed transactions in order (PayloadsPassThrough) |
| Transitions.ReceiveAddressBlockTransactions | frontend/src/app/services/websocket.service.ts:80-84 | appends the listed transactions in order (PayloadsPassThrough) |
| Transitions.ReceiveLive2hChart | frontend/src/app/services/websocket.service.ts:86-88 | pushes live-2h-chart when present (PayloadsPassThrough) |
| Transitions.ReceiveMempoolInfo | frontend/src/app/services/websocket.service.ts:90-95 | pushes the mempoolInfo/vBytesPerSecond pair when mempoolInfo is present (PayloadsPassThrough) |
| Transitions.Dispatch | frontend/src/app/services/websocket.service.ts:32-95 | all field handlers of a frame in source order; closed form in DispatchFieldsIndependent |
| Transitions.Reconnect | frontend/src/app/services/websocket.service.ts:97-109 | the replay after an offline period; closed form in ReconnectReplays |
| Transitions.HandleResponse | frontend/src/app/services/websocket.service.ts:31-110 | the whole next-callback: dispatch, then the replay (HandleResponseParts) |
| Transitions.HandleError | frontend/src/app/services/websocket.service.ts:111-117 | sets the flag, pushes isOffline$(true) and schedules one 10000 ms restart (ErrorThenRestart) |
| Transitions.StartSubscription | frontend/src/app/services/websocket.service.ts:28-29 | sends init (ErrorThenRestart, WantReplayedAfterReconnect) |
| Transitions.StartTrackTransaction | frontend/src/app/services/websocket.service.ts:120-123 | sends track-tx and records the transaction (IntentOperation) |
| Transitions.StartTrackAddress | frontend/src/app/services/websocket.service.ts:125-128 | sends track-address and records the address (IntentOperation) |
| Transitions.FetchStatistics | frontend/src/app/services/websocket.service.ts:130-132 | sends the historicalDate frame and changes no slot (IntentOperation) |
| Transitions.Want | frontend/src/app/services/websocket.service.ts:134-137 | sends the want frame and records the list (IntentOperation) |
| Properties.FilterBlocksIncreasing | frontend/src/app/services/websocket.service.ts:34-39 | emitted heights strictly increase, all lie above the starting latest height and none exceeds the final latest height |
| Properties.FilterBlocksReachesMax | frontend/src/app/services/websocket.service.ts:34-39 | the final latest height is the maximum of the starting height and every height in the batch, and is attained by one of them unless it is the start |
| Properties.FilterBlocksAt | frontend/src/app/services/websocket.service.ts:35-38 | block i is emitted and becomes the latest height exactly when it is above the start and every earlier block of the batch; otherwise it is dropped and nothing changes |
| Properties.FilterBlocksAppend | frontend/src/app/services/websocket.service.ts:32-46 | filtering a concatenation equals filtering the second part from the height the first part left, so the batch and the single block share one filter |
| Properties.SingleBlockHandler | frontend/src/app/services/websocket.service.ts:42-52 | the single-block handler is the height filter on a batch of one, followed by the confirmation |
| Properties.BlockHandlers | frontend/src/app/services/websocket.service.ts:32-52 | the two block handlers together run the batch and then the single block through one height filter; a confirmation clears the tracked transaction and pushes the block |
| Properties.PayloadHandlers | frontend/src/app/services/websocket.service.ts:54-95 | the handlers after the block handlers change only their own subject or slot: payloads pushed once unchanged, address lists appended in order, the baseline and the reload timers updated by the git-commit rule |
| Properties.DispatchFieldsIndependent | frontend/src/app/services/websocket.service.ts:32-95 | the effect of all field handlers of a frame, field by field: nothing is sent, the offline flag, the want list and the tracked address are untouched |
| Properties.ReconnectReplays | frontend/src/app/services/websocket.service.ts:97-109 | when offline: the flag is cleared, exactly the replay frames (want, then track-tx of the transaction, then track-tx of the address) are sent, the tracked transaction becomes the address when one is set, and isOffline$(false) is pushed; when online nothing changes |
| Properties.HandleResponseParts | frontend/src/app/services/websocket.service.ts:31-110 | a frame is its field dispatch followed by the replay, and the dispatch leaves the flag, outbound frames, want list, address and offline log alone |
| Properties.ResponseFiltersBlocks | frontend/src/app/services/websocket.service.ts:32-46 | after a whole frame the latest height and the blocks$ log are those of the height filter over the batch followed by the single block |
| Properties.TxConfirmation | frontend/src/app/services/websocket.service.ts:42-52 | a confirmation with a block clears the tracked transaction and pushes exactly that block on txConfirmed$, whether or not it passed the height filter; without a block or without the flag nothing changes there |
| Properties.PayloadsPassThrough | frontend/src/app/services/websocket.service.ts:54-95 | both address lists are appended element by element in order; conversions, mempool-blocks, live-2h-chart and the mempoolInfo/vBytesPerSecond pair are pushed once each, unchanged, when present and not at all when absent |
| Properties.EmptyResponseOnlyReconnects | frontend/src/app/services/websocket.service.ts:31-110 | a frame without fields changes only what the replay changes, and nothing when online |
| Properties.GitCommitHandling | frontend/src/app/services/websocket.service.ts:62-72 | the first non-empty identifier becomes the baseline; afterwards the baseline stays; an equal identifier schedules nothing; a differing one schedules exactly one reload with delay in [1000, 61000) |
| Properties.ReplayOnReconnect | frontend/src/app/services/websocket.service.ts:97-109 | a frame handled while offline clears the flag, sends the replay frames read from the state after dispatch, pushes isOffline$(false) and leaves the want list and address alone |
| Properties.NoReplayWhileOnline | frontend/src/app/services/websocket.service.ts:97 | a frame handled while online sends nothing, reports nothing on isOffline$ and keeps the want list and address |
| Properties.ReplayFiresOnce | frontend/src/app/services/websocket.service.ts:97-109 | the first frame after an error replays and reports online; every later call up to the next error (frames, restarts, intent operations) sends only its own frame, reports nothing on isOffline$ and leaves the service online |
| Properties.OnlineRunSendsNoReplay | frontend/src/app/services/websocket.service.ts:97-109 | without an error, an online service stays online, reports nothing on isOffline$ and sends exactly the frames of its restarts and intent operations (never a replay), whatever mix of frames, restarts and intents the run holds |
| Properties.WantReplayedAfterReconnect | frontend/src/app/services/websocket.service.ts:97-101 | want, a transport error, the restart and the next frame send the want frame, init, then the same want list again, and report offline then online |
| Properties.AddressReplayedAsTrackTx | frontend/src/app/services/websocket.service.ts:105-107 | a tracked address is replayed as the last sent frame, a track-tx, and becomes the tracked transaction; the replay sends no track-address frame |
| Properties.ConfirmedTxNotReplayed | frontend/src/app/services/websocket.service.ts:48-51 | a confirmation in the frame that ends an offline period clears the tracked transaction before the replay, so only the want list is replayed |
| Properties.ErrorThenRestart | frontend/src/app/services/websocket.service.ts:111-117 | an error then the restart timer: offline is reported, one 10000 ms restart is scheduled, init is sent again and no interest slot changes |
| Properties.IntentOperation | frontend/src/app/services/websocket.service.ts:120-137 | each intent operation sends exactly its one frame and changes only its own slot (fetchStatistics none); nothing else changes |
| Properties.ConfirmationExample | frontend/src/app/services/websocket.service.ts:42-52 | a confirmed block one above the latest height is emitted, becomes the latest height, clears the tracked transaction and is pushed on txConfirmed$ |
| Properties.AppendIncreasing | frontend/src/app/services/websocket.service.ts:35-37 | appending blocks all above the latest height to an increasing log bounded by it keeps the log increasing |
| Properties.ScanPreservesInv | frontend/src/app/services/websocket.service.ts:35-37 | running any batch through the height filter keeps blocks$ increasing and bounded by the latest height |
| Properties.ReceiveBlocksPreservesInv | frontend/src/app/services/websocket.service.ts:32-40 | the batch handler keeps the invariant |
| Properties.ReceiveBlockPreservesInv | frontend/src/app/services/websocket.service.ts:42-52 | the single-block handler, confirmation included, keeps the invariant |
| Properties.ReceiveGitCommitPreservesInv | frontend/src/app/services/websocket.service.ts:62-72 | the git-commit handler keeps the invariant: reloads only with a baseline, with delay in [1000, 61000) |
| Properties.DispatchPreservesInv | frontend/src/app/services/websocket.service.ts:32-95 | the field handlers keep the invariant: increasing blocks$ bounded by the latest height, a well-formed offline log, valid timer delays |
| Properties.GitReloadsValid | frontend/src/app/services/websocket.service.ts:62-72 | a scheduled reload exists only once a baseline exists, and its delay lies in [1000, 61000) |
| Properties.ReconnectPreservesInv | frontend/src/app/services/websocket.service.ts:97-109 | the replay keeps the invariant: every isOffline$(false) directly follows an isOffline$(true) |
| Properties.HandleResponsePreservesInv | frontend/src/app/services/websocket.service.ts:31-110 | a whole frame keeps the invariant |
| Properties.HandleErrorPreservesInv | frontend/src/app/services/websocket.service.ts:111-117 | the error handler keeps the invariant; the offline flag agrees with the last isOffline$ event |
| Properties.ApplyPreservesInv | frontend/src/app/services/websocket.service.ts:28-137 | every event (frame, error, restart, intent) keeps the invariant |
| Properties.RunPreservesInv | frontend/src/app/services/websocket.service.ts:28-137 | every state reached by any sequence of events keeps the invariant |
| Properties.HeightNeverDecreases | frontend/src/app/services/websocket.service.ts:35-36 | over any run the latest block height never decreases and blocks$ is only ever extended |
| Properties.BaselineSetOnce | frontend/src/app/services/websocket.service.ts:63-64 | once a baseline identifier is known no run changes it |
| Properties.BaselineIsFirstCommit | frontend/src/app/services/websocket.service.ts:62-64 | starting without a baseline, the baseline after a run is the first non-empty identifier the run received |
| Properties.ApplyReloads | frontend/src/app/services/websocket.service.ts:62-72 | once a baseline is known, one event schedules a reload exactly when it is a frame with a differing non-empty identifier |
| Properties.ReloadPerMismatch | frontend/src/app/services/websocket.service.ts:62-72 | once a baseline is known, the reloads a run schedules are exactly one per frame with a differing identifier |
| Properties.ResponseKeepsWantAndAddress | frontend/src/app/services/websocket.service.ts:97-109 | no frame changes the want list or the tracked address |
| Properties.LastWantIsLatest | frontend/src/app/services/websocket.service.ts:134-137 | the want list kept for replay is always the one most recently asked for |
| Properties.TrackedAddressIsLatest | frontend/src/app/services/websocket.service.ts:125-128 | the address kept for replay is always the one most recently tracked |
| Service.WebsocketService.constructor | frontend/src/app/services/websocket.service.ts:15-26 | fields start as false/null/null/null/"" and init is sent; the invariant holds |
| Service.WebsocketService.StartSubscription | frontend/src/app/services/websocket.service.ts:28-29 | sends init and changes nothing else |
| Service.WebsocketService.HandleResponse | frontend/src/app/services/websocket.service.ts:31-110 | the new state is the state machine's frame step on the old state, and the invariant is kept |
| Service.WebsocketService.ReceiveBlocks | frontend/src/app/services/websocket.service.ts:32-40 | the loop over the batch leaves the latest height and blocks$ as the height filter says, and keeps the invariant |
| Service.WebsocketService.ReceiveBlock | frontend/src/app/services/websocket.service.ts:42-52 | the single block is filtered against the latest height and a confirmation clears the tracked transaction and pushes the block, and keeps the invariant |
| Service.WebsocketService.ReceiveConversions | frontend/src/app/services/websocket.service.ts:54-56 | pushes conversions when present, and keeps the invariant |
| Service.WebsocketService.ReceiveMempoolBlocks | frontend/src/app/services/websocket.service.ts:58-60 | pushes mempool-blocks when present, and keeps the invariant |
| Service.WebsocketService.ReceiveGitCommit | frontend/src/app/services/websocket.service.ts:62-72 | sets the baseline or schedules one reload per the git-commit rule, and keeps the invariant |
| Service.WebsocketService.ReceiveAddressTransactions | frontend/src/app/services/websocket.service.ts:74-78 | the loop pushes every listed transaction, in order, and keeps the invariant |
| Service.WebsocketService.ReceiveAddressBlockTransactions | frontend/src/app/services/websocket.service.ts:80-84 | the loop pushes every listed transaction, in order, and keeps the invariant |
| Service.WebsocketService.ReceiveLive2hChart | frontend/src/app/services/websocket.service.ts:86-88 | pushes live-2h-chart when present, and keeps the invariant |
| Service.WebsocketService.ReceiveMempoolInfo | frontend/src/app/services/websocket.service.ts:90-95 | pushes the mempoolInfo and vBytesPerSecond pair when mempoolInfo is present, and keeps the invariant |
| Service.WebsocketService.Reconnect | frontend/src/app/services/websocket.service.ts:97-109 | performs the replay step through the want and track-transaction methods, and keeps the invariant |
| Service.WebsocketService.HandleError | frontend/src/app/services/websocket.service.ts:111-117 | sets the flag, pushes isOffline$(true), schedules one 10000 ms restart, and keeps the invariant |
| Service.WebsocketService.StartTrackTransaction | frontend/src/app/services/websocket.service.ts:120-123 | sends track-tx and records the transaction |
| Service.WebsocketService.StartTrackAddress | frontend/src/app/services/websocket.service.ts:125-128 | sends track-address and records the address |
| Service.WebsocketService.FetchStatistics | frontend/src/app/services/websocket.service.ts:130-132 | sends the historicalDate frame and changes no state |
| Service.WebsocketService.Want | frontend/src/app/services/websocket.service.ts:134-137 | sends the want frame and records the list |

## Left out

- The rxjs `webSocket` transport, its subscribe semantics and the URL built from `document.location` (lines 2–9, 15, 30) are left out because they are library and browser I/O. Sending is an append to `outbound`; receiving is a call of `HandleResponse` or `HandleError`.
- Re-subscribing after a restart adds another subscriber to the same subject, but the model treats the restart as sending `init` only. It records one frame handler, not one per subscription.
- Angular's `@Injectable` and dependency injection (lines 11–13, 22–24) are left out. The constructor takes the `StateService` as a parameter.
- `StateService` is not part of this model beyond the fields used here. Its other writers are not modelled, so the constructor requires an `isOffline$` log nobody else has written to.
- Real timers, `window.location.reload()` and `Math.random()` (lines 67–69, 116) are not run. A timer is a `scheduled` entry holding its delay. The restart timer firing is the `Restarted` event, and the random draw is the `Jitter` parameter.
- `console.log` (lines 112, 115) is left out because it is output only.
- The contents of the payload fields and of transactions are not modelled. Each is an opaque `Payload`, and only a block's height is read.
- Each subject has its own log, so the interleaving of pushes across different subjects is not recorded. The order within each subject is recorded.
- Block heights are JavaScript numbers in the source and unbounded integers here, so a `NaN` or missing height, which the `>` tests at lines 35 and 43 always reject, cannot be expressed.
- `want` keeps the caller's array by reference (line 136), so a caller that later mutates it changes what a replay sends; the model stores the list as a value.
- Concurrency is left out: the source is single-threaded, so events are sequential calls.
