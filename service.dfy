/** The websocket service as the object the source defines. The socket and the
    subjects are replaced by append-only ghost logs; every method is proved to
    perform the matching step of module Transitions and to keep that module's
    invariant. */
module Service {
  import opened Messages
  import opened Transitions
  import Properties

  /** The shared state holder: the latest known block height, which the
      websocket service reads and writes, and one log per subject. */
  class StateService {
    var latestBlockHeight: int
    ghost var blocks: seq<Block>
    ghost var txConfirmed: seq<Block>
    ghost var conversions: seq<Payload>
    ghost var mempoolBlocks: seq<Payload>
    ghost var mempoolTransactions: seq<Transaction>
    ghost var blockTransactions: seq<Transaction>
    ghost var live2Chart: seq<Payload>
    ghost var mempoolStats: seq<MempoolStats>
    ghost var isOffline: seq<bool>

    ghost function View(): Sink
      reads this
    {
      Sink(latestBlockHeight, blocks, txConfirmed, conversions, mempoolBlocks,
           mempoolTransactions, blockTransactions, live2Chart, mempoolStats, isOffline)
    }

    ghost predicate Valid()
      reads this
    {
      BlockLogValid(View())
    }

    constructor (latestBlockHeight: int)
      ensures View() == EmptySink(latestBlockHeight) && Valid()
    {
      this.latestBlockHeight := latestBlockHeight;
      blocks, txConfirmed, conversions, mempoolBlocks := [], [], [], [];
      mempoolTransactions, blockTransactions, live2Chart, mempoolStats, isOffline := [], [], [], [], [];
    }
  }

  class WebsocketService {
    const stateService: StateService
    var goneOffline: bool
    var lastWant: Option<seq<string>>
    var trackingTxId: Option<string>
    var trackingAddress: Option<string>
    var latestGitCommit: string
    /** Frames sent on the socket, oldest first. */
    ghost var outbound: seq<Request>
    /** Timers handed to `setTimeout`, oldest first. */
    ghost var scheduled: seq<Timer>

    ghost function Snapshot(): Model
      reads this, stateService
    {
      Model(goneOffline, lastWant, trackingTxId, trackingAddress, latestGitCommit,
            stateService.View(), outbound, scheduled)
    }

    ghost predicate Valid()
      reads this, stateService
    {
      Inv(Snapshot())
    }

    /** Initialises the fields and calls `startSubscription`. */
    constructor (stateService: StateService)
      requires stateService.Valid() && stateService.isOffline == []
      ensures this.stateService == stateService
      ensures Snapshot() == Transitions.StartSubscription(Initial(stateService.View()))
      ensures Valid()
    {
      this.stateService := stateService;
      goneOffline := false;
      lastWant := None;
      trackingTxId := None;
      trackingAddress := None;
      latestGitCommit := "";
      outbound := [];
      scheduled := [];
      new;
      StartSubscription();
    }

    /** Sends `init`; the subscription's callbacks are HandleResponse and
        HandleError. The restart timer calls this again. */
    method StartSubscription()
      modifies this`outbound
      ensures Snapshot() == Transitions.StartSubscription(old(Snapshot()))
      ensures old(Valid()) ==> Valid()
    {
      outbound := outbound + [Init];
    }

    /** The subscription's next-callback: the field handlers in source order
        (one method each below), then the reconnect replay. */
    method HandleResponse(response: Response, jitter: Jitter)
      requires Valid()
      modifies this, stateService
      ensures Snapshot() == Transitions.HandleResponse(old(Snapshot()), response, jitter)
      ensures Valid()
    {
      ghost var m0 := Snapshot();
      ReceiveBlocks(response);
      ReceiveBlock(response);
      ReceiveConversions(response);
      ReceiveMempoolBlocks(response);
      ReceiveGitCommit(response, jitter);
      ReceiveAddressTransactions(response);
      ReceiveAddressBlockTransactions(response);
      ReceiveLive2hChart(response);
      ReceiveMempoolInfo(response);
      assert Snapshot() == Dispatch(m0, response, jitter);
      Reconnect();
    }

    method ReceiveBlocks(response: Response)
      modifies stateService`latestBlockHeight, stateService`blocks
      ensures Snapshot() == Transitions.ReceiveBlocks(old(Snapshot()), response)
      ensures old(Valid()) ==> Valid()
    {
      ghost var m0 := Snapshot();
      if response.blocks.Some? && |response.blocks.value| > 0 {
        var blocks := response.blocks.value;
        ghost var h0 := stateService.latestBlockHeight;
        for i := 0 to |blocks|
          invariant Snapshot() == WithScan(m0, FilterBlocks(h0, blocks[..i]))
        {
          assert blocks[..i + 1][..i] == blocks[..i];
          var block := blocks[i];
          if block.height > stateService.latestBlockHeight {
            stateService.latestBlockHeight := block.height;
            stateService.blocks := stateService.blocks + [block];
          }
        }
        assert blocks[..|blocks|] == blocks;
      }
      if Inv(m0) {
        Properties.ReceiveBlocksPreservesInv(m0, response);
      }
    }

    method ReceiveBlock(response: Response)
      modifies this`trackingTxId, stateService`latestBlockHeight, stateService`blocks, stateService`txConfirmed
      ensures Snapshot() == Transitions.ReceiveBlock(old(Snapshot()), response)
      ensures old(Valid()) ==> Valid()
    {
      ghost var m0 := Snapshot();
      if response.block.Some? {
        var block := response.block.value;
        if block.height > stateService.latestBlockHeight {
          stateService.latestBlockHeight := block.height;
          stateService.blocks := stateService.blocks + [block];
        }
        if response.txConfirmed {
          trackingTxId := None;
          stateService.txConfirmed := stateService.txConfirmed + [block];
        }
      }
      if Inv(m0) {
        Properties.ReceiveBlockPreservesInv(m0, response);
      }
    }

    method ReceiveConversions(response: Response)
      modifies stateService`conversions
      ensures Snapshot() == Transitions.ReceiveConversions(old(Snapshot()), response)
      ensures old(Valid()) ==> Valid()
    {
      if response.conversions.Some? {
        stateService.conversions := stateService.conversions + [response.conversions.value];
      }
    }

    method ReceiveMempoolBlocks(response: Response)
      modifies stateService`mempoolBlocks
      ensures Snapshot() == Transitions.ReceiveMempoolBlocks(old(Snapshot()), response)
      ensures old(Valid()) ==> Valid()
    {
      if response.mempoolBlocks.Some? {
        stateService.mempoolBlocks := stateService.mempoolBlocks + [response.mempoolBlocks.value];
      }
    }

    method ReceiveGitCommit(response: Response, jitter: Jitter)
      modifies this`latestGitCommit, this`scheduled
      ensures Snapshot() == Transitions.ReceiveGitCommit(old(Snapshot()), response, jitter)
      ensures old(Valid()) ==> Valid()
    {
      ghost var m0 := Snapshot();
      if response.gitCommit.Some? && response.gitCommit.value != "" {
        if latestGitCommit == "" {
          latestGitCommit := response.gitCommit.value;
        } else if latestGitCommit != response.gitCommit.value {
          scheduled := scheduled + [Reload(jitter + ReloadBase)];
        }
      }
      if Inv(m0) {
        Properties.ReceiveGitCommitPreservesInv(m0, response, jitter);
      }
    }

    method ReceiveAddressTransactions(response: Response)
      modifies stateService`mempoolTransactions
      ensures Snapshot() == Transitions.ReceiveAddressTransactions(old(Snapshot()), response)
      ensures old(Valid()) ==> Valid()
    {
      if response.addressTransactions.Some? {
        var txs := response.addressTransactions.value;
        ghost var pushed := stateService.mempoolTransactions;
        for i := 0 to |txs|
          invariant stateService.mempoolTransactions == pushed + txs[..i]
        {
          assert txs[..i + 1] == txs[..i] + [txs[i]];
          stateService.mempoolTransactions := stateService.mempoolTransactions + [txs[i]];
        }
        assert txs[..|txs|] == txs;
      }
    }

    method ReceiveAddressBlockTransactions(response: Response)
      modifies stateService`blockTransactions
      ensures Snapshot() == Transitions.ReceiveAddressBlockTransactions(old(Snapshot()), response)
      ensures old(Valid()) ==> Valid()
    {
      if response.addressBlockTransactions.Some? {
        var txs := response.addressBlockTransactions.value;
        ghost var pushed := stateService.blockTransactions;
        for i := 0 to |txs|
          invariant stateService.blockTransactions == pushed + txs[..i]
        {
          assert txs[..i + 1] == txs[..i] + [txs[i]];
          stateService.blockTransactions := stateService.blockTransactions + [txs[i]];
        }
        assert txs[..|txs|] == txs;
      }
    }

    method ReceiveLive2hChart(response: Response)
      modifies stateService`live2Chart
      ensures Snapshot() == Transitions.ReceiveLive2hChart(old(Snapshot()), response)
      ensures old(Valid()) ==> Valid()
    {
      if response.live2hChart.Some? {
        stateService.live2Chart := stateService.live2Chart + [response.live2hChart.value];
      }
    }

    method ReceiveMempoolInfo(response: Response)
      modifies stateService`mempoolStats
      ensures Snapshot() == Transitions.ReceiveMempoolInfo(old(Snapshot()), response)
      ensures old(Valid()) ==> Valid()
    {
      if response.mempoolInfo.Some? {
        stateService.mempoolStats :=
          stateService.mempoolStats + [MempoolStats(response.mempoolInfo.value, response.vBytesPerSecond)];
      }
    }

    /** The end of the next-callback: the replay after an offline period. */
    method Reconnect()
      modifies this, stateService`isOffline
      ensures Snapshot() == Transitions.Reconnect(old(Snapshot()))
      ensures old(Valid()) ==> Valid()
    {
      ghost var m0 := Snapshot();
      if goneOffline == true {
        goneOffline := false;
        if lastWant.Some? {
          Want(lastWant.value);
        }
        if trackingTxId.Some? && trackingTxId.value != "" {
          StartTrackTransaction(trackingTxId.value);
        }
        if trackingAddress.Some? && trackingAddress.value != "" {
          StartTrackTransaction(trackingAddress.value);
        }
        stateService.isOffline := stateService.isOffline + [false];
      }
      if Inv(m0) {
        Properties.ReconnectPreservesInv(m0);
      }
    }

    /** The subscription's error callback. */
    method HandleError()
      requires Valid()
      modifies this`goneOffline, this`scheduled, stateService`isOffline
      ensures Snapshot() == Transitions.HandleError(old(Snapshot()))
      ensures Valid()
    {
      goneOffline := true;
      stateService.isOffline := stateService.isOffline + [true];
      scheduled := scheduled + [Restart(RestartDelay)];
    }

    method StartTrackTransaction(txId: string)
      modifies this`outbound, this`trackingTxId
      ensures Snapshot() == Transitions.StartTrackTransaction(old(Snapshot()), txId)
      ensures old(Valid()) ==> Valid()
    {
      outbound := outbound + [TrackTx(txId)];
      trackingTxId := Some(txId);
    }

    method StartTrackAddress(address: string)
      modifies this`outbound, this`trackingAddress
      ensures Snapshot() == Transitions.StartTrackAddress(old(Snapshot()), address)
      ensures old(Valid()) ==> Valid()
    {
      outbound := outbound + [TrackAddress(address)];
      trackingAddress := Some(address);
    }

    method FetchStatistics(historicalDate: string)
      modifies this`outbound
      ensures Snapshot() == Transitions.FetchStatistics(old(Snapshot()), historicalDate)
      ensures old(Valid()) ==> Valid()
    {
      outbound := outbound + [HistoricalDate(historicalDate)];
    }

    method Want(data: seq<string>)
      modifies this`outbound, this`lastWant
      ensures Snapshot() == Transitions.Want(old(Snapshot()), data)
      ensures old(Valid()) ==> Valid()
    {
      outbound := outbound + [WantRequest(data)];
      lastWant := Some(data);
    }
  }
}
