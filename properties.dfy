/** Properties of the websocket service's state machine: the block height
    filter, what one response does to each subject and slot, the reconnect
    replay, the build-identifier baseline, and invariants of whole runs. */
module Properties {
  import opened Messages
  import opened Transitions

  // ---------------------------------------------------------------------------
  // The block height filter

  /** Block `i` of the batch is above the starting height and above every
      earlier block of the batch. */
  predicate IsRecord(h: int, bs: seq<Block>, i: int)
    requires 0 <= i < |bs|
  {
    h < bs[i].height && forall k :: 0 <= k < i ==> bs[k].height < bs[i].height
  }

  /** Emitted heights strictly increase, exceed the starting height and end
      at the final latest height. */
  lemma {:induction false} FilterBlocksIncreasing(h: int, bs: seq<Block>)
    ensures var r := FilterBlocks(h, bs);
            && Increasing(r.emitted)
            && forall k :: 0 <= k < |r.emitted| ==> h < r.emitted[k].height <= r.height
    decreases |bs|
  {
    if bs != [] {
      FilterBlocksIncreasing(h, bs[..|bs| - 1]);
    }
  }

  /** The final latest height is the maximum of the starting height and the
      heights in the batch. */
  lemma {:induction false} FilterBlocksReachesMax(h: int, bs: seq<Block>)
    ensures forall k :: 0 <= k < |bs| ==> bs[k].height <= FilterBlocks(h, bs).height
    ensures FilterBlocks(h, bs).height == h
            || exists k :: 0 <= k < |bs| && bs[k].height == FilterBlocks(h, bs).height
    decreases |bs|
  {
    if bs != [] {
      var init := bs[..|bs| - 1];
      FilterBlocksReachesMax(h, init);
      forall k | 0 <= k < |bs| - 1 ensures bs[k].height <= FilterBlocks(h, bs).height {
        assert bs[k] == init[k];
      }
      var r := FilterBlocks(h, bs);
      if r.height != h {
        var last := r.emitted[|r.emitted| - 1];
        assert last in bs;
        var k :| 0 <= k < |bs| && bs[k] == last;
        assert bs[k].height == r.height;
      }
    }
  }

  /** Block `i` is emitted, and becomes the latest height, exactly when it is
      a record; otherwise it is dropped and nothing changes. */
  lemma FilterBlocksAt(h: int, bs: seq<Block>, i: int)
    requires 0 <= i < |bs|
    ensures IsRecord(h, bs, i) ==>
              FilterBlocks(h, bs[..i + 1]) == Scan(bs[i].height, FilterBlocks(h, bs[..i]).emitted + [bs[i]])
    ensures !IsRecord(h, bs, i) ==> FilterBlocks(h, bs[..i + 1]) == FilterBlocks(h, bs[..i])
  {
    var pre := bs[..i];
    assert bs[..i + 1][..i] == pre;
    assert bs[..i + 1][i] == bs[i];
    var prev := FilterBlocks(h, pre);
    FilterBlocksReachesMax(h, pre);
    if bs[i].height > prev.height {
      forall k | 0 <= k < i ensures bs[k].height < bs[i].height {
        assert pre[k] == bs[k];
      }
    }
  }

  /** Filtering a concatenation is filtering the second part from where the
      first part left the latest height. */
  lemma {:induction false} FilterBlocksAppend(h: int, xs: seq<Block>, ys: seq<Block>)
    ensures var first := FilterBlocks(h, xs);
            var second := FilterBlocks(first.height, ys);
            FilterBlocks(h, xs + ys) == Scan(second.height, first.emitted + second.emitted)
    decreases |ys|
  {
    if ys == [] {
      assert xs + ys == xs;
    } else {
      var ys' := ys[..|ys| - 1];
      assert (xs + ys)[..|xs + ys| - 1] == xs + ys';
      assert (xs + ys)[|xs + ys| - 1] == ys[|ys| - 1];
      FilterBlocksAppend(h, xs, ys');
    }
  }

  /** The blocks one response offers to the height filter, in handler order:
      the `blocks` batch, then the single `block`. */
  function Batch(r: Response): seq<Block> {
    (if r.blocks.Some? then r.blocks.value else []) + r.block.ToSeq()
  }

  predicate Confirms(r: Response) {
    r.block.Some? && r.txConfirmed
  }

  /** The baseline build identifier after a response: the first non-empty
      identifier seen, kept forever. */
  function NextBaseline(baseline: string, r: Response): string {
    if baseline == "" && Truthy(r.gitCommit) then r.gitCommit.value else baseline
  }

  /** The reloads a response schedules. */
  function GitReloads(baseline: string, r: Response, j: Jitter): seq<Timer> {
    if baseline != "" && Truthy(r.gitCommit) && r.gitCommit.value != baseline
    then [Reload(j + ReloadBase)] else []
  }

  function MempoolStatsOf(r: Response): seq<MempoolStats> {
    if r.mempoolInfo.Some? then [MempoolStats(r.mempoolInfo.value, r.vBytesPerSecond)] else []
  }

  /** The single-block handler is the height filter applied to a batch of
      one, followed by the confirmation. */
  lemma SingleBlockHandler(m: Model, r: Response)
    ensures var s := FilterBlocks(m.sink.latestBlockHeight, r.block.ToSeq());
            ReceiveBlock(m, r)
            == m.(trackingTxId := if Confirms(r) then None else m.trackingTxId,
                  sink := m.sink.(latestBlockHeight := s.height,
                                  blocks := m.sink.blocks + s.emitted,
                                  txConfirmed := m.sink.txConfirmed + (if Confirms(r) then [r.block.value] else [])))
  {
    if r.block.Some? {
      assert [r.block.value][..0] == [];
    }
  }

  /** The two block handlers together: the batch and the single block pass
      through one height filter; a confirmation clears the tracked
      transaction and pushes the block on `txConfirmed$`. */
  lemma BlockHandlers(m: Model, r: Response)
    ensures var s := FilterBlocks(m.sink.latestBlockHeight, Batch(r));
            ReceiveBlock(ReceiveBlocks(m, r), r)
            == m.(trackingTxId := if Confirms(r) then None else m.trackingTxId,
                  sink := m.sink.(latestBlockHeight := s.height,
                                  blocks := m.sink.blocks + s.emitted,
                                  txConfirmed := m.sink.txConfirmed + (if Confirms(r) then [r.block.value] else [])))
  {
    var h := m.sink.latestBlockHeight;
    var batch := if r.blocks.Some? then r.blocks.value else [];
    FilterBlocksAppend(h, batch, r.block.ToSeq());
    var first := FilterBlocks(h, batch);
    var m1 := ReceiveBlocks(m, r);
    assert m1 == WithScan(m, first);
    SingleBlockHandler(m1, r);
    var second := FilterBlocks(first.height, r.block.ToSeq());
  }

  /** The handlers after the block handlers, each touching only its own
      subject or slot. */
  lemma PayloadHandlers(m: Model, r: Response, j: Jitter)
    ensures ReceiveMempoolInfo(ReceiveLive2hChart(ReceiveAddressBlockTransactions(ReceiveAddressTransactions(
              ReceiveGitCommit(ReceiveMempoolBlocks(ReceiveConversions(m, r), r), r, j), r), r), r), r)
            == m.(latestGitCommit := NextBaseline(m.latestGitCommit, r),
                  scheduled := m.scheduled + GitReloads(m.latestGitCommit, r, j),
                  sink := m.sink.(
                    conversions := m.sink.conversions + r.conversions.ToSeq(),
                    mempoolBlocks := m.sink.mempoolBlocks + r.mempoolBlocks.ToSeq(),
                    mempoolTransactions := m.sink.mempoolTransactions + r.addressTransactions.GetOr([]),
                    blockTransactions := m.sink.blockTransactions + r.addressBlockTransactions.GetOr([]),
                    live2Chart := m.sink.live2Chart + r.live2hChart.ToSeq(),
                    mempoolStats := m.sink.mempoolStats + MempoolStatsOf(r)))
  {
    var m3 := ReceiveConversions(m, r);
    assert m3 == m.(sink := m.sink.(conversions := m.sink.conversions + r.conversions.ToSeq()));
    var m4 := ReceiveMempoolBlocks(m3, r);
    assert m4 == m3.(sink := m3.sink.(mempoolBlocks := m.sink.mempoolBlocks + r.mempoolBlocks.ToSeq()));
    var m5 := ReceiveGitCommit(m4, r, j);
    assert m5 == m4.(latestGitCommit := NextBaseline(m.latestGitCommit, r),
                     scheduled := m.scheduled + GitReloads(m.latestGitCommit, r, j));
    var m6 := ReceiveAddressTransactions(m5, r);
    assert m6 == m5.(sink := m5.sink.(mempoolTransactions := m.sink.mempoolTransactions + r.addressTransactions.GetOr([])));
    var m7 := ReceiveAddressBlockTransactions(m6, r);
    assert m7 == m6.(sink := m6.sink.(blockTransactions := m.sink.blockTransactions + r.addressBlockTransactions.GetOr([])));
    var m8 := ReceiveLive2hChart(m7, r);
    assert m8 == m7.(sink := m7.sink.(live2Chart := m.sink.live2Chart + r.live2hChart.ToSeq()));
  }

  /** The field handlers of one response are independent of each other: each
      field changes only its own subject or slot, nothing is sent and the
      offline flag is untouched; the `blocks` batch and the single `block`
      after it pass through one height filter. */
  lemma DispatchFieldsIndependent(m: Model, r: Response, j: Jitter)
    ensures var s := FilterBlocks(m.sink.latestBlockHeight, Batch(r));
            Dispatch(m, r, j) == m.(
              trackingTxId := if Confirms(r) then None else m.trackingTxId,
              latestGitCommit := NextBaseline(m.latestGitCommit, r),
              scheduled := m.scheduled + GitReloads(m.latestGitCommit, r, j),
              sink := m.sink.(
                latestBlockHeight := s.height,
                blocks := m.sink.blocks + s.emitted,
                txConfirmed := m.sink.txConfirmed + (if Confirms(r) then [r.block.value] else []),
                conversions := m.sink.conversions + r.conversions.ToSeq(),
                mempoolBlocks := m.sink.mempoolBlocks + r.mempoolBlocks.ToSeq(),
                mempoolTransactions := m.sink.mempoolTransactions + r.addressTransactions.GetOr([]),
                blockTransactions := m.sink.blockTransactions + r.addressBlockTransactions.GetOr([]),
                live2Chart := m.sink.live2Chart + r.live2hChart.ToSeq(),
                mempoolStats := m.sink.mempoolStats + MempoolStatsOf(r)))
  {
    BlockHandlers(m, r);
    PayloadHandlers(ReceiveBlock(ReceiveBlocks(m, r), r), r, j);
  }

  /** The reconnect replay in closed form: when offline, the flag is cleared,
      exactly the replay frames are sent, the tracked transaction becomes the
      tracked address when one is set, and `isOffline$(false)` is pushed;
      when online nothing happens. */
  lemma ReconnectReplays(m: Model)
    ensures m.goneOffline ==>
              Reconnect(m) == m.(goneOffline := false,
                                 outbound := m.outbound + ReplayRequests(m),
                                 trackingTxId := if Truthy(m.trackingAddress) then m.trackingAddress else m.trackingTxId,
                                 sink := m.sink.(isOffline := m.sink.isOffline + [false]))
    ensures !m.goneOffline ==> Reconnect(m) == m
  {
    if m.goneOffline {
      var m1 := m.(goneOffline := false);
      var w := if m.lastWant.Some? then [WantRequest(m.lastWant.value)] else [];
      var t := if Truthy(m.trackingTxId) then [TrackTx(m.trackingTxId.value)] else [];
      var a := if Truthy(m.trackingAddress) then [TrackTx(m.trackingAddress.value)] else [];
      var m2 := if m1.lastWant.Some? then Want(m1, m1.lastWant.value) else m1;
      assert m2 == m1.(outbound := m.outbound + w);
      var m3 := if Truthy(m2.trackingTxId) then StartTrackTransaction(m2, m2.trackingTxId.value) else m2;
      assert m3 == m2.(outbound := m.outbound + w + t);
      var m4 := if Truthy(m3.trackingAddress) then StartTrackTransaction(m3, m3.trackingAddress.value) else m3;
      assert m4 == m3.(outbound := m.outbound + w + t + a,
                       trackingTxId := if Truthy(m.trackingAddress) then m.trackingAddress else m.trackingTxId);
      assert m.outbound + w + t + a == m.outbound + ReplayRequests(m);
    }
  }

  /** One response, dispatch and replay together. */
  lemma HandleResponseParts(m: Model, r: Response, j: Jitter)
    ensures HandleResponse(m, r, j) == Reconnect(Dispatch(m, r, j))
    ensures Dispatch(m, r, j).goneOffline == m.goneOffline
    ensures Dispatch(m, r, j).outbound == m.outbound
    ensures Dispatch(m, r, j).lastWant == m.lastWant
    ensures Dispatch(m, r, j).trackingAddress == m.trackingAddress
    ensures Dispatch(m, r, j).sink.isOffline == m.sink.isOffline
  {
    DispatchFieldsIndependent(m, r, j);
  }

  /** One response's `blocks` batch followed by its single `block` pass, as a
      whole, through the height filter. */
  lemma ResponseFiltersBlocks(m: Model, r: Response, j: Jitter)
    ensures var s := FilterBlocks(m.sink.latestBlockHeight, Batch(r));
            var m' := HandleResponse(m, r, j);
            m'.sink.latestBlockHeight == s.height && m'.sink.blocks == m.sink.blocks + s.emitted
  {
    DispatchFieldsIndependent(m, r, j);
    ReconnectReplays(Dispatch(m, r, j));
  }

  // ---------------------------------------------------------------------------
  // One response: effect on each subject and slot

  /** A confirmation needs the `block` field: it clears the tracked
      transaction and pushes that block on `txConfirmed$` exactly once,
      whether or not the block passed the height filter. */
  lemma TxConfirmation(m: Model, r: Response, j: Jitter)
    ensures var d := Dispatch(m, r, j);
            && d.sink.txConfirmed == m.sink.txConfirmed + (if Confirms(r) then [r.block.value] else [])
            && d.trackingTxId == (if Confirms(r) then None else m.trackingTxId)
            && HandleResponse(m, r, j).sink.txConfirmed == d.sink.txConfirmed
  {
    DispatchFieldsIndependent(m, r, j);
    ReconnectReplays(Dispatch(m, r, j));
  }

  /** The address lists are flattened in order onto their subjects, and the
      other payload fields are pushed once, unchanged, when present. */
  lemma PayloadsPassThrough(m: Model, r: Response, j: Jitter)
    ensures var s := HandleResponse(m, r, j).sink;
            && s.mempoolTransactions == m.sink.mempoolTransactions + r.addressTransactions.GetOr([])
            && s.blockTransactions == m.sink.blockTransactions + r.addressBlockTransactions.GetOr([])
            && s.conversions == m.sink.conversions + r.conversions.ToSeq()
            && s.mempoolBlocks == m.sink.mempoolBlocks + r.mempoolBlocks.ToSeq()
            && s.live2Chart == m.sink.live2Chart + r.live2hChart.ToSeq()
            && s.mempoolStats == m.sink.mempoolStats + MempoolStatsOf(r)
  {
    DispatchFieldsIndependent(m, r, j);
    ReconnectReplays(Dispatch(m, r, j));
  }

  /** A frame with no fields changes nothing but what the reconnect replay
      changes. */
  lemma EmptyResponseOnlyReconnects(m: Model, j: Jitter)
    ensures HandleResponse(m, EmptyResponse(), j) == Reconnect(m)
    ensures !m.goneOffline ==> HandleResponse(m, EmptyResponse(), j) == m
  {
    DispatchFieldsIndependent(m, EmptyResponse(), j);
    assert Batch(EmptyResponse()) == [];
    assert Dispatch(m, EmptyResponse(), j) == m;
    ReconnectReplays(m);
  }

  /** The first non-empty build identifier becomes the baseline; afterwards
      the baseline stays, an equal identifier schedules nothing and a
      differing one schedules exactly one reload within [1000, 61000). */
  lemma GitCommitHandling(m: Model, r: Response, j: Jitter)
    ensures var m' := HandleResponse(m, r, j);
            var differs := m.latestGitCommit != "" && Truthy(r.gitCommit) && r.gitCommit.value != m.latestGitCommit;
            && m'.latestGitCommit == (if m.latestGitCommit == "" && Truthy(r.gitCommit) then r.gitCommit.value
                                      else m.latestGitCommit)
            && m'.scheduled == m.scheduled + (if differs then [Reload(j + ReloadBase)] else [])
            && (differs ==> ReloadBase <= m'.scheduled[|m.scheduled|].delay < ReloadBase + 60000)
  {
    DispatchFieldsIndependent(m, r, j);
    ReconnectReplays(Dispatch(m, r, j));
  }

  // ---------------------------------------------------------------------------
  // Reconnect replay

  /** A frame processed while offline first dispatches its fields (which send
      nothing), then clears the flag, sends the replay frames read from the
      dispatched state, and reports being back online. */
  lemma ReplayOnReconnect(m: Model, r: Response, j: Jitter)
    requires m.goneOffline
    ensures var d := Dispatch(m, r, j);
            var m' := HandleResponse(m, r, j);
            && !m'.goneOffline
            && m'.outbound == m.outbound + ReplayRequests(d)
            && m'.sink.isOffline == m.sink.isOffline + [false]
            && m'.trackingTxId == (if Truthy(m.trackingAddress) then m.trackingAddress else d.trackingTxId)
            && m'.lastWant == m.lastWant && m'.trackingAddress == m.trackingAddress
  {
    HandleResponseParts(m, r, j);
    ReconnectReplays(Dispatch(m, r, j));
  }

  /** While online a frame sends nothing, reports nothing on `isOffline$` and
      leaves the want list and the tracked address alone. */
  lemma NoReplayWhileOnline(m: Model, r: Response, j: Jitter)
    requires !m.goneOffline
    ensures var m' := HandleResponse(m, r, j);
            && !m'.goneOffline
            && m'.outbound == m.outbound
            && m'.sink.isOffline == m.sink.isOffline
            && m'.lastWant == m.lastWant
            && m'.trackingAddress == m.trackingAddress
  {
    HandleResponseParts(m, r, j);
    ReconnectReplays(Dispatch(m, r, j));
  }

  /** The frames a call sends by itself while the service is online: `init`
      for a restart, one frame per intent operation, nothing for a frame. */
  function DirectFrames(c: Call): seq<Request> {
    match c
    case Received(_, _) => []
    case Failed => []
    case Restarted => [Init]
    case TrackTransactionCalled(t) => [TrackTx(t)]
    case TrackAddressCalled(a) => [TrackAddress(a)]
    case FetchStatisticsCalled(d) => [HistoricalDate(d)]
    case WantCalled(d) => [WantRequest(d)]
  }

  function RunFrames(cs: seq<Call>): seq<Request> {
    if cs == [] then [] else DirectFrames(cs[0]) + RunFrames(cs[1..])
  }

  /** The replay fires on the first frame after going offline and on no later
      call until the next error: afterwards only the calls' own frames are
      sent and nothing more is reported on `isOffline$`. */
  lemma ReplayFiresOnce(m: Model, r: Response, j: Jitter, rest: seq<Call>)
    requires m.goneOffline
    requires forall k :: 0 <= k < |rest| ==> !rest[k].Failed?
    ensures var m1 := HandleResponse(m, r, j);
            && m1.outbound == m.outbound + ReplayRequests(Dispatch(m, r, j))
            && m1.sink.isOffline == m.sink.isOffline + [false]
            && Run(m1, rest).outbound == m1.outbound + RunFrames(rest)
            && Run(m1, rest).sink.isOffline == m1.sink.isOffline
            && !Run(m1, rest).goneOffline
  {
    ReplayOnReconnect(m, r, j);
    OnlineRunSendsNoReplay(HandleResponse(m, r, j), rest);
  }

  /** Without an error, an online service stays online, reports nothing on
      `isOffline$` and sends exactly the frames of its restarts and intent
      operations, never a replay. */
  lemma {:induction false} OnlineRunSendsNoReplay(m: Model, cs: seq<Call>)
    requires !m.goneOffline
    requires forall k :: 0 <= k < |cs| ==> !cs[k].Failed?
    ensures Run(m, cs).outbound == m.outbound + RunFrames(cs)
    ensures Run(m, cs).sink.isOffline == m.sink.isOffline
    ensures !Run(m, cs).goneOffline
    decreases |cs|
  {
    if cs != [] {
      var m1 := Apply(m, cs[0]);
      if cs[0].Received? {
        NoReplayWhileOnline(m, cs[0].response, cs[0].jitter);
      }
      assert m1.outbound == m.outbound + DirectFrames(cs[0]);
      assert forall k :: 0 <= k < |cs[1..]| ==> cs[1..][k] == cs[k + 1];
      OnlineRunSendsNoReplay(m1, cs[1..]);
      assert m.outbound + DirectFrames(cs[0]) + RunFrames(cs[1..])
             == m.outbound + (DirectFrames(cs[0]) + RunFrames(cs[1..]));
    }
  }

  /** `want(data)`, a transport error, the restart and the next frame: the
      server receives the want frame, `init`, and then the same list again as
      the first replayed frame. */
  lemma WantReplayedAfterReconnect(m: Model, data: seq<string>, r: Response, j: Jitter)
    ensures var m2 := HandleError(Want(m, data));
            var m4 := HandleResponse(StartSubscription(m2), r, j);
            && m2.scheduled == m.scheduled + [Restart(RestartDelay)]
            && |m4.outbound| >= |m.outbound| + 3
            && m4.outbound[..|m.outbound| + 3] == m.outbound + [WantRequest(data), Init, WantRequest(data)]
            && m4.sink.isOffline == m.sink.isOffline + [true, false]
            && !m4.goneOffline
  {
    var m3 := StartSubscription(HandleError(Want(m, data)));
    ReplayOnReconnect(m3, r, j);
    HandleResponseParts(m3, r, j);
    var d := Dispatch(m3, r, j);
    assert d.lastWant == Some(data);
    var m4 := HandleResponse(m3, r, j);
    assert m4.outbound == m.outbound + [WantRequest(data), Init] + ReplayRequests(d);
  }

  /** The tracked address is replayed as a `track-tx` frame and becomes the
      tracked transaction; the replay never sends `track-address`. */
  lemma AddressReplayedAsTrackTx(m: Model, r: Response, j: Jitter)
    requires m.goneOffline && Truthy(m.trackingAddress)
    ensures var m' := HandleResponse(m, r, j);
            && m'.trackingTxId == m.trackingAddress
            && |m'.outbound| > |m.outbound|
            && m'.outbound[|m'.outbound| - 1] == TrackTx(m.trackingAddress.value)
            && forall k :: |m.outbound| <= k < |m'.outbound| ==> !m'.outbound[k].TrackAddress?
  {
    ReplayOnReconnect(m, r, j);
    HandleResponseParts(m, r, j);
  }

  /** A confirmation in the frame that ends an offline period clears the
      tracked transaction before the replay reads it, so it is not replayed. */
  lemma ConfirmedTxNotReplayed(m: Model, r: Response, j: Jitter)
    requires m.goneOffline && Confirms(r) && !Truthy(m.trackingAddress)
    ensures var m' := HandleResponse(m, r, j);
            && m'.trackingTxId == None
            && m'.outbound == m.outbound + (if m.lastWant.Some? then [WantRequest(m.lastWant.value)] else [])
  {
    ReplayOnReconnect(m, r, j);
    TxConfirmation(m, r, j);
    HandleResponseParts(m, r, j);
  }

  /** A transport error followed by the restart timer: offline is reported,
      one 10 s restart is scheduled, `init` is sent again and no interest
      slot changes. */
  lemma ErrorThenRestart(m: Model)
    ensures var m' := StartSubscription(HandleError(m));
            && m'.goneOffline
            && m'.sink.isOffline == m.sink.isOffline + [true]
            && m'.scheduled == m.scheduled + [Restart(RestartDelay)]
            && m'.outbound == m.outbound + [Init]
            && (m'.lastWant, m'.trackingTxId, m'.trackingAddress) == (m.lastWant, m.trackingTxId, m.trackingAddress)
  {
  }

  /** Each intent operation sends exactly one frame and changes only its own
      slot. */
  lemma IntentOperation(m: Model, c: Call)
    requires c.TrackTransactionCalled? || c.TrackAddressCalled? || c.FetchStatisticsCalled? || c.WantCalled?
    ensures var m' := Apply(m, c);
            && m'.outbound == m.outbound + [match c
                                            case TrackTransactionCalled(t) => TrackTx(t)
                                            case TrackAddressCalled(a) => TrackAddress(a)
                                            case FetchStatisticsCalled(d) => HistoricalDate(d)
                                            case WantCalled(d) => WantRequest(d)]
            && m'.lastWant == (if c.WantCalled? then Some(c.data) else m.lastWant)
            && m'.trackingTxId == (if c.TrackTransactionCalled? then Some(c.txId) else m.trackingTxId)
            && m'.trackingAddress == (if c.TrackAddressCalled? then Some(c.address) else m.trackingAddress)
            && m'.goneOffline == m.goneOffline && m'.latestGitCommit == m.latestGitCommit
            && m'.sink == m.sink && m'.scheduled == m.scheduled
  {
  }

  /** The example of a confirmation arriving with the next block. */
  lemma ConfirmationExample(m: Model, rest: Payload, j: Jitter)
    requires m.trackingTxId == Some("abc") && m.sink.latestBlockHeight == 800000 && !m.goneOffline
    ensures var b := Block(800001, rest);
            var m' := HandleResponse(m, EmptyResponse().(block := Some(b), txConfirmed := true), j);
            && m'.sink.blocks == m.sink.blocks + [b]
            && m'.sink.latestBlockHeight == 800001
            && m'.trackingTxId == None
            && m'.sink.txConfirmed == m.sink.txConfirmed + [b]
  {
    var b := Block(800001, rest);
    var r := EmptyResponse().(block := Some(b), txConfirmed := true);
    ResponseFiltersBlocks(m, r, j);
    TxConfirmation(m, r, j);
    NoReplayWhileOnline(m, r, j);
    HandleResponseParts(m, r, j);
    ReconnectReplays(Dispatch(m, r, j));
    assert Batch(r) == [b];
    assert [b][..0] == [];
  }

  // ---------------------------------------------------------------------------
  // The invariant

  lemma AppendIncreasing(a: seq<Block>, b: seq<Block>, h: int)
    requires Increasing(a) && Increasing(b)
    requires forall k :: 0 <= k < |a| ==> a[k].height <= h
    requires forall k :: 0 <= k < |b| ==> h < b[k].height
    ensures Increasing(a + b)
  {
    forall i, k | 0 <= i < k < |a + b| ensures (a + b)[i].height < (a + b)[k].height {
      if k < |a| {
        assert (a + b)[i] == a[i] && (a + b)[k] == a[k];
      } else if i < |a| {
        assert (a + b)[i] == a[i] && (a + b)[k] == b[k - |a|];
      } else {
        assert (a + b)[i] == b[i - |a|] && (a + b)[k] == b[k - |a|];
      }
    }
  }

  /** Running a batch through the height filter keeps the invariant. */
  lemma ScanPreservesInv(m: Model, bs: seq<Block>)
    requires Inv(m)
    ensures Inv(WithScan(m, FilterBlocks(m.sink.latestBlockHeight, bs)))
  {
    var h := m.sink.latestBlockHeight;
    var s := FilterBlocks(h, bs);
    var b := m.sink.blocks + s.emitted;
    FilterBlocksIncreasing(h, bs);
    AppendIncreasing(m.sink.blocks, s.emitted, h);
    forall k | 0 <= k < |b| ensures b[k].height <= s.height {
      if k < |m.sink.blocks| {
        assert b[k] == m.sink.blocks[k];
      } else {
        assert b[k] == s.emitted[k - |m.sink.blocks|];
      }
    }
  }

  lemma ReceiveBlocksPreservesInv(m: Model, r: Response)
    requires Inv(m)
    ensures Inv(ReceiveBlocks(m, r))
  {
    if r.blocks.Some? && |r.blocks.value| > 0 {
      ScanPreservesInv(m, r.blocks.value);
    }
  }

  lemma ReceiveBlockPreservesInv(m: Model, r: Response)
    requires Inv(m)
    ensures Inv(ReceiveBlock(m, r))
  {
    SingleBlockHandler(m, r);
    ScanPreservesInv(m, r.block.ToSeq());
  }

  lemma ReceiveGitCommitPreservesInv(m: Model, r: Response, j: Jitter)
    requires Inv(m)
    ensures Inv(ReceiveGitCommit(m, r, j))
  {
    GitReloadsValid(m.scheduled, m.latestGitCommit, r, j);
    assert ReceiveGitCommit(m, r, j)
           == m.(latestGitCommit := NextBaseline(m.latestGitCommit, r),
                 scheduled := m.scheduled + GitReloads(m.latestGitCommit, r, j));
  }

  lemma DispatchPreservesInv(m: Model, r: Response, j: Jitter)
    requires Inv(m)
    ensures Inv(Dispatch(m, r, j))
  {
    var d := Dispatch(m, r, j);
    DispatchFieldsIndependent(m, r, j);
    var h := m.sink.latestBlockHeight;
    var s := FilterBlocks(h, Batch(r));
    FilterBlocksIncreasing(h, Batch(r));
    AppendIncreasing(m.sink.blocks, s.emitted, h);
    assert d.sink.blocks == m.sink.blocks + s.emitted && d.sink.latestBlockHeight == s.height;
    forall k | 0 <= k < |d.sink.blocks| ensures d.sink.blocks[k].height <= d.sink.latestBlockHeight {
      if k < |m.sink.blocks| {
        assert d.sink.blocks[k] == m.sink.blocks[k];
      } else {
        assert d.sink.blocks[k] == s.emitted[k - |m.sink.blocks|];
      }
    }
    assert BlockLogValid(d.sink);
    assert OfflineLogValid(d.sink.isOffline, d.goneOffline);
    GitReloadsValid(m.scheduled, m.latestGitCommit, r, j);
  }

  /** A response's reloads keep the timer invariant under the new baseline. */
  lemma GitReloadsValid(ts: seq<Timer>, baseline: string, r: Response, j: Jitter)
    requires TimersValid(ts, baseline)
    ensures TimersValid(ts + GitReloads(baseline, r, j), NextBaseline(baseline, r))
  {
    var ts' := ts + GitReloads(baseline, r, j);
    forall k | 0 <= k < |ts'|
      ensures match ts'[k]
              case Restart(d) => d == RestartDelay
              case Reload(d) => NextBaseline(baseline, r) != "" && ReloadBase <= d < ReloadBase + 60000
    {
      if k < |ts| {
        assert ts'[k] == ts[k];
      }
    }
  }

  lemma ReconnectPreservesInv(m: Model)
    requires Inv(m)
    ensures Inv(Reconnect(m))
  {
    ReconnectReplays(m);
    if m.goneOffline {
      var log := m.sink.isOffline + [false];
      forall k | 0 <= k < |log| && !log[k] ensures 0 < k && log[k - 1] {
        if k < |log| - 1 {
          assert log[k] == m.sink.isOffline[k];
          assert log[k - 1] == m.sink.isOffline[k - 1];
        }
      }
    }
  }

  lemma HandleResponsePreservesInv(m: Model, r: Response, j: Jitter)
    requires Inv(m)
    ensures Inv(HandleResponse(m, r, j))
  {
    DispatchPreservesInv(m, r, j);
    ReconnectPreservesInv(Dispatch(m, r, j));
  }

  lemma HandleErrorPreservesInv(m: Model)
    requires Inv(m)
    ensures Inv(HandleError(m))
  {
    var log := m.sink.isOffline + [true];
    forall k | 0 <= k < |log| && !log[k] ensures 0 < k && log[k - 1] {
      assert log[k] == m.sink.isOffline[k];
      assert k < |m.sink.isOffline|;
      assert log[k - 1] == m.sink.isOffline[k - 1];
    }
  }

  lemma {:induction false} ApplyPreservesInv(m: Model, c: Call)
    requires Inv(m)
    ensures Inv(Apply(m, c))
  {
    match c
    case Received(r, j) => HandleResponsePreservesInv(m, r, j);
    case Failed => HandleErrorPreservesInv(m);
    case _ =>
  }

  /** Every state reached by a run from a valid state is valid. */
  lemma {:induction false} RunPreservesInv(m: Model, cs: seq<Call>)
    requires Inv(m)
    ensures Inv(Run(m, cs))
    decreases |cs|
  {
    if cs != [] {
      ApplyPreservesInv(m, cs[0]);
      RunPreservesInv(Apply(m, cs[0]), cs[1..]);
    }
  }

  // ---------------------------------------------------------------------------
  // Whole runs

  /** The latest block height never decreases and `blocks$` is only ever
      extended. */
  lemma {:induction false} HeightNeverDecreases(m: Model, cs: seq<Call>)
    ensures Run(m, cs).sink.latestBlockHeight >= m.sink.latestBlockHeight
    ensures m.sink.blocks <= Run(m, cs).sink.blocks
    decreases |cs|
  {
    if cs != [] {
      var m1 := Apply(m, cs[0]);
      if cs[0].Received? {
        ResponseFiltersBlocks(m, cs[0].response, cs[0].jitter);
      }
      assert m1.sink.latestBlockHeight >= m.sink.latestBlockHeight;
      assert m.sink.blocks <= m1.sink.blocks;
      HeightNeverDecreases(m1, cs[1..]);
    }
  }

  /** Once a baseline build identifier is known it never changes. */
  lemma {:induction false} BaselineSetOnce(m: Model, cs: seq<Call>)
    requires m.latestGitCommit != ""
    ensures Run(m, cs).latestGitCommit == m.latestGitCommit
    decreases |cs|
  {
    if cs != [] {
      if cs[0].Received? {
        GitCommitHandling(m, cs[0].response, cs[0].jitter);
      }
      BaselineSetOnce(Apply(m, cs[0]), cs[1..]);
    }
  }

  /** The first non-empty `git-commit` of the run, or "" if there is none. */
  function FirstCommit(cs: seq<Call>): string {
    if cs == [] then ""
    else if cs[0].Received? && Truthy(cs[0].response.gitCommit) then cs[0].response.gitCommit.value
    else FirstCommit(cs[1..])
  }

  /** Starting without a baseline, the baseline after a run is the first
      non-empty build identifier the run received. */
  lemma {:induction false} BaselineIsFirstCommit(m: Model, cs: seq<Call>)
    requires m.latestGitCommit == ""
    ensures Run(m, cs).latestGitCommit == FirstCommit(cs)
    decreases |cs|
  {
    if cs != [] {
      var m1 := Apply(m, cs[0]);
      if cs[0].Received? {
        GitCommitHandling(m, cs[0].response, cs[0].jitter);
      }
      if cs[0].Received? && Truthy(cs[0].response.gitCommit) {
        BaselineSetOnce(m1, cs[1..]);
      } else {
        BaselineIsFirstCommit(m1, cs[1..]);
      }
    }
  }

  function CountReloads(ts: seq<Timer>): nat {
    if ts == [] then 0 else CountReloads(ts[..|ts| - 1]) + (if ts[|ts| - 1].Reload? then 1 else 0)
  }

  /** Whether call `c` is a frame carrying a non-empty identifier other than
      `baseline`. */
  predicate Mismatch(baseline: string, c: Call) {
    c.Received? && Truthy(c.response.gitCommit) && c.response.gitCommit.value != baseline
  }

  /** How many frames of the run carry a non-empty identifier other than
      `baseline`. */
  function Mismatches(baseline: string, cs: seq<Call>): nat {
    if cs == [] then 0 else (if Mismatch(baseline, cs[0]) then 1 else 0) + Mismatches(baseline, cs[1..])
  }

  lemma CountReloadsSnoc(ts: seq<Timer>, t: Timer)
    ensures CountReloads(ts + [t]) == CountReloads(ts) + (if t.Reload? then 1 else 0)
  {
    assert (ts + [t])[..|ts + [t]| - 1] == ts;
  }

  /** One call schedules a reload exactly when it is a mismatching frame. */
  lemma ApplyReloads(m: Model, c: Call)
    requires m.latestGitCommit != ""
    ensures Apply(m, c).latestGitCommit == m.latestGitCommit
    ensures CountReloads(Apply(m, c).scheduled) == CountReloads(m.scheduled) + (if Mismatch(m.latestGitCommit, c) then 1 else 0)
  {
    match c
    case Received(r, j) =>
      GitCommitHandling(m, r, j);
      var m' := HandleResponse(m, r, j);
      if Mismatch(m.latestGitCommit, c) {
        CountReloadsSnoc(m.scheduled, Reload(j + ReloadBase));
        assert m'.scheduled == m.scheduled + [Reload(j + ReloadBase)];
      } else {
        assert m'.scheduled == m.scheduled;
      }
    case Failed =>
      CountReloadsSnoc(m.scheduled, Restart(RestartDelay));
    case _ =>
  }

  /** Once a baseline is known, every frame whose identifier differs from it
      schedules one more reload; nothing else schedules a reload. */
  lemma {:induction false} ReloadPerMismatch(m: Model, cs: seq<Call>)
    requires m.latestGitCommit != ""
    ensures CountReloads(Run(m, cs).scheduled) == CountReloads(m.scheduled) + Mismatches(m.latestGitCommit, cs)
    decreases |cs|
  {
    if cs != [] {
      ApplyReloads(m, cs[0]);
      ReloadPerMismatch(Apply(m, cs[0]), cs[1..]);
    }
  }

  /** The latest `want` list of the run, or `w` if the run has none. */
  function LatestWant(w: Option<seq<string>>, cs: seq<Call>): Option<seq<string>>
    decreases |cs|
  {
    if cs == [] then w else LatestWant(if cs[0].WantCalled? then Some(cs[0].data) else w, cs[1..])
  }

  /** The latest address the run tracked, or `a` if it tracked none. */
  function LatestAddress(a: Option<string>, cs: seq<Call>): Option<string>
    decreases |cs|
  {
    if cs == [] then a else LatestAddress(if cs[0].TrackAddressCalled? then Some(cs[0].address) else a, cs[1..])
  }

  /** No response changes the want list or the tracked address. */
  lemma ResponseKeepsWantAndAddress(m: Model, r: Response, j: Jitter)
    ensures HandleResponse(m, r, j).lastWant == m.lastWant
    ensures HandleResponse(m, r, j).trackingAddress == m.trackingAddress
  {
    if m.goneOffline {
      ReplayOnReconnect(m, r, j);
    } else {
      NoReplayWhileOnline(m, r, j);
    }
  }

  /** The replayed want list is always the one most recently asked for. */
  lemma {:induction false} LastWantIsLatest(m: Model, cs: seq<Call>)
    ensures Run(m, cs).lastWant == LatestWant(m.lastWant, cs)
    decreases |cs|
  {
    if cs != [] {
      if cs[0].Received? {
        ResponseKeepsWantAndAddress(m, cs[0].response, cs[0].jitter);
      }
      LastWantIsLatest(Apply(m, cs[0]), cs[1..]);
    }
  }

  /** The replayed address is always the one most recently tracked. */
  lemma {:induction false} TrackedAddressIsLatest(m: Model, cs: seq<Call>)
    ensures Run(m, cs).trackingAddress == LatestAddress(m.trackingAddress, cs)
    decreases |cs|
  {
    if cs != [] {
      if cs[0].Received? {
        ResponseKeepsWantAndAddress(m, cs[0].response, cs[0].jitter);
      }
      TrackedAddressIsLatest(Apply(m, cs[0]), cs[1..]);
    }
  }
}
