/** The websocket service as a state machine on values. Each function here is
    one step of the service: a field of the response handler, the reconnect
    replay, the error handler or an intent operation. The class in module
    Service is proved to perform exactly these steps. */
module Transitions {
  import opened Messages

  /** What the shared StateService holds: the latest known block height and,
      for every subject the service pushes to, the events pushed so far. */
  datatype Sink = Sink(
    latestBlockHeight: int,
    blocks: seq<Block>,
    txConfirmed: seq<Block>,
    conversions: seq<Payload>,
    mempoolBlocks: seq<Payload>,
    mempoolTransactions: seq<Transaction>,
    blockTransactions: seq<Transaction>,
    live2Chart: seq<Payload>,
    mempoolStats: seq<MempoolStats>,
    isOffline: seq<bool>)

  /** The whole observable state: the service's private fields, the shared
      sink, the frames sent to the server and the timers scheduled. */
  datatype Model = Model(
    goneOffline: bool,
    lastWant: Option<seq<string>>,
    trackingTxId: Option<string>,
    trackingAddress: Option<string>,
    latestGitCommit: string,
    sink: Sink,
    outbound: seq<Request>,
    scheduled: seq<Timer>)

  function EmptySink(height: int): Sink {
    Sink(height, [], [], [], [], [], [], [], [], [])
  }

  /** The state right after field initialisation, before `startSubscription`. */
  function Initial(sink: Sink): Model {
    Model(false, None, None, None, "", sink, [], [])
  }

  // ---------------------------------------------------------------------------
  // Block height filter

  predicate Increasing(bs: seq<Block>) {
    forall i, j :: 0 <= i < j < |bs| ==> bs[i].height < bs[j].height
  }

  /** The outcome of feeding blocks through the height filter: the final
      latest height and the blocks emitted on `blocks$`. */
  datatype Scan = Scan(height: int, emitted: seq<Block>)

  /** The `forEach` over a `blocks` batch starting from latest height `h`: a
      block is emitted, and becomes the latest height, exactly when its height
      is above the current latest height. */
  function FilterBlocks(h: int, bs: seq<Block>): (r: Scan)
    ensures r.height >= h
    ensures r.height == if r.emitted == [] then h else r.emitted[|r.emitted| - 1].height
    ensures forall b :: b in r.emitted ==> b in bs
    decreases |bs|
  {
    if bs == [] then Scan(h, [])
    else
      var prev := FilterBlocks(h, bs[..|bs| - 1]);
      var b := bs[|bs| - 1];
      assert forall x :: x in prev.emitted ==> x in bs by {
        forall x | x in bs[..|bs| - 1] ensures x in bs { }
      }
      if b.height > prev.height then Scan(b.height, prev.emitted + [b]) else prev
  }

  /** Records the outcome of the height filter in the sink. */
  function WithScan(m: Model, s: Scan): Model {
    m.(sink := m.sink.(latestBlockHeight := s.height, blocks := m.sink.blocks + s.emitted))
  }

  // ---------------------------------------------------------------------------
  // The response handler, one field at a time, in source order

  function ReceiveBlocks(m: Model, r: Response): Model {
    if r.blocks.Some? && |r.blocks.value| > 0 then
      WithScan(m, FilterBlocks(m.sink.latestBlockHeight, r.blocks.value))
    else m
  }

  function ReceiveBlock(m: Model, r: Response): Model {
    match r.block
    case None => m
    case Some(b) =>
      var m1 :=
        if b.height > m.sink.latestBlockHeight
        then m.(sink := m.sink.(latestBlockHeight := b.height, blocks := m.sink.blocks + [b]))
        else m;
      if r.txConfirmed
      then m1.(trackingTxId := None, sink := m1.sink.(txConfirmed := m1.sink.txConfirmed + [b]))
      else m1
  }

  function ReceiveConversions(m: Model, r: Response): Model {
    match r.conversions
    case None => m
    case Some(c) => m.(sink := m.sink.(conversions := m.sink.conversions + [c]))
  }

  function ReceiveMempoolBlocks(m: Model, r: Response): Model {
    match r.mempoolBlocks
    case None => m
    case Some(p) => m.(sink := m.sink.(mempoolBlocks := m.sink.mempoolBlocks + [p]))
  }

  /** The first non-empty build identifier becomes the baseline; a later one
      that differs from the baseline schedules a reload. */
  function ReceiveGitCommit(m: Model, r: Response, jitter: Jitter): Model {
    if Truthy(r.gitCommit) then
      if m.latestGitCommit == "" then m.(latestGitCommit := r.gitCommit.value)
      else if m.latestGitCommit != r.gitCommit.value
      then m.(scheduled := m.scheduled + [Reload(jitter + ReloadBase)])
      else m
    else m
  }

  function ReceiveAddressTransactions(m: Model, r: Response): Model {
    match r.addressTransactions
    case None => m
    case Some(txs) => m.(sink := m.sink.(mempoolTransactions := m.sink.mempoolTransactions + txs))
  }

  function ReceiveAddressBlockTransactions(m: Model, r: Response): Model {
    match r.addressBlockTransactions
    case None => m
    case Some(txs) => m.(sink := m.sink.(blockTransactions := m.sink.blockTransactions + txs))
  }

  function ReceiveLive2hChart(m: Model, r: Response): Model {
    match r.live2hChart
    case None => m
    case Some(p) => m.(sink := m.sink.(live2Chart := m.sink.live2Chart + [p]))
  }

  function ReceiveMempoolInfo(m: Model, r: Response): Model {
    match r.mempoolInfo
    case None => m
    case Some(info) =>
      m.(sink := m.sink.(mempoolStats := m.sink.mempoolStats + [MempoolStats(info, r.vBytesPerSecond)]))
  }

  /** All field handlers of one response, in the order the source runs them. */
  function Dispatch(m: Model, r: Response, jitter: Jitter): Model {
    var m1 := ReceiveBlocks(m, r);
    var m2 := ReceiveBlock(m1, r);
    var m3 := ReceiveConversions(m2, r);
    var m4 := ReceiveMempoolBlocks(m3, r);
    var m5 := ReceiveGitCommit(m4, r, jitter);
    var m6 := ReceiveAddressTransactions(m5, r);
    var m7 := ReceiveAddressBlockTransactions(m6, r);
    var m8 := ReceiveLive2hChart(m7, r);
    ReceiveMempoolInfo(m8, r)
  }

  // ---------------------------------------------------------------------------
  // Intent operations

  function StartSubscription(m: Model): Model {
    m.(outbound := m.outbound + [Init])
  }

  function StartTrackTransaction(m: Model, txId: string): Model {
    m.(outbound := m.outbound + [TrackTx(txId)], trackingTxId := Some(txId))
  }

  function StartTrackAddress(m: Model, address: string): Model {
    m.(outbound := m.outbound + [TrackAddress(address)], trackingAddress := Some(address))
  }

  function FetchStatistics(m: Model, historicalDate: string): Model {
    m.(outbound := m.outbound + [HistoricalDate(historicalDate)])
  }

  function Want(m: Model, data: seq<string>): Model {
    m.(outbound := m.outbound + [WantRequest(data)], lastWant := Some(data))
  }

  // ---------------------------------------------------------------------------
  // Reconnect replay, the complete response handler and the error handler

  /** Runs after the field handlers: when the service had gone offline, clears
      the flag, replays the interests through the intent operations (the
      tracked address through the transaction primitive) and reports being
      back online. */
  function Reconnect(m: Model): Model {
    if m.goneOffline then
      var m1 := m.(goneOffline := false);
      var m2 := if m1.lastWant.Some? then Want(m1, m1.lastWant.value) else m1;
      var m3 := if Truthy(m2.trackingTxId) then StartTrackTransaction(m2, m2.trackingTxId.value) else m2;
      var m4 := if Truthy(m3.trackingAddress) then StartTrackTransaction(m3, m3.trackingAddress.value) else m3;
      m4.(sink := m4.sink.(isOffline := m4.sink.isOffline + [false]))
    else m
  }

  function HandleResponse(m: Model, r: Response, jitter: Jitter): Model {
    Reconnect(Dispatch(m, r, jitter))
  }

  function HandleError(m: Model): Model {
    m.(goneOffline := true,
       sink := m.sink.(isOffline := m.sink.isOffline + [true]),
       scheduled := m.scheduled + [Restart(RestartDelay)])
  }

  /** The frames a replay sends, read off the interest slots directly. */
  function ReplayRequests(m: Model): seq<Request> {
    (if m.lastWant.Some? then [WantRequest(m.lastWant.value)] else [])
    + (if Truthy(m.trackingTxId) then [TrackTx(m.trackingTxId.value)] else [])
    + (if Truthy(m.trackingAddress) then [TrackTx(m.trackingAddress.value)] else [])
  }

  // ---------------------------------------------------------------------------
  // Invariant of every reachable state

  /** Blocks emitted so far have strictly increasing heights, none above the
      latest known height. */
  predicate BlockLogValid(s: Sink) {
    Increasing(s.blocks)
    && forall k :: 0 <= k < |s.blocks| ==> s.blocks[k].height <= s.latestBlockHeight
  }

  /** Every `isOffline$(false)` directly follows an `isOffline$(true)`, and the
      flag is set exactly when the last event says offline. */
  predicate OfflineLogValid(log: seq<bool>, goneOffline: bool) {
    (forall k :: 0 <= k < |log| && !log[k] ==> 0 < k && log[k - 1])
    && goneOffline == (|log| > 0 && log[|log| - 1])
  }

  /** Restarts wait 10 s, reloads between 1 s and 61 s, and no reload exists
      before a baseline build identifier is known. */
  predicate TimersValid(ts: seq<Timer>, baseline: string) {
    (forall k :: 0 <= k < |ts| ==>
       match ts[k]
       case Restart(d) => d == RestartDelay
       case Reload(d) => baseline != "" && ReloadBase <= d < ReloadBase + 60000)
  }

  predicate Inv(m: Model) {
    BlockLogValid(m.sink)
    && OfflineLogValid(m.sink.isOffline, m.goneOffline)
    && TimersValid(m.scheduled, m.latestGitCommit)
  }

  // ---------------------------------------------------------------------------
  // Sequences of calls

  /** Everything that can happen to the service: a frame arriving (with the
      random draw its git-commit check may use), a transport error, the
      restart timer firing, and the four intent operations. */
  datatype Call =
    | Received(response: Response, jitter: Jitter)
    | Failed
    | Restarted
    | TrackTransactionCalled(txId: string)
    | TrackAddressCalled(address: string)
    | FetchStatisticsCalled(historicalDate: string)
    | WantCalled(data: seq<string>)

  function Apply(m: Model, c: Call): Model {
    match c
    case Received(r, j) => HandleResponse(m, r, j)
    case Failed => HandleError(m)
    case Restarted => StartSubscription(m)
    case TrackTransactionCalled(t) => StartTrackTransaction(m, t)
    case TrackAddressCalled(a) => StartTrackAddress(m, a)
    case FetchStatisticsCalled(d) => FetchStatistics(m, d)
    case WantCalled(d) => Want(m, d)
  }

  function Run(m: Model, cs: seq<Call>): Model
    decreases |cs|
  {
    if cs == [] then m else Run(Apply(m, cs[0]), cs[1..])
  }
}
