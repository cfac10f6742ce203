/** Values exchanged by the websocket client: the inbound response record, the
    outbound request frames, the payloads pushed to the state subjects and the
    deferred actions (timers) the client schedules. */
module Messages {

  datatype Option<+T> = None | Some(value: T) {
    function GetOr(default: T): T {
      match this
      case Some(v) => v
      case None => default
    }

    /** The pushes a present field causes: one, or none when absent. */
    function ToSeq(): seq<T> {
      match this
      case Some(v) => [v]
      case None => []
    }
  }

  /** JavaScript truthiness of a `string | null` value: null and "" are falsy. */
  predicate Truthy(s: Option<string>) {
    s.Some? && s.value != ""
  }

  /** A server payload whose contents the client never inspects (conversion
      rates, projected mempool blocks, chart data, mempool info, transactions). */
  datatype Payload = Payload(json: string)

  type Transaction = Payload

  /** A block; only its height is looked at by the client. */
  datatype Block = Block(height: int, rest: Payload)

  /** One inbound frame. Every field is optional and any subset may be present.
      `txConfirmed` is `false` both when absent and when sent as false. */
  datatype Response = Response(
    blocks: Option<seq<Block>>,
    block: Option<Block>,
    txConfirmed: bool,
    conversions: Option<Payload>,
    mempoolBlocks: Option<Payload>,
    gitCommit: Option<string>,
    addressTransactions: Option<seq<Transaction>>,
    addressBlockTransactions: Option<seq<Transaction>>,
    live2hChart: Option<Payload>,
    mempoolInfo: Option<Payload>,
    vBytesPerSecond: Option<Payload>)

  /** The frame with no field at all. */
  function EmptyResponse(): Response {
    Response(None, None, false, None, None, None, None, None, None, None, None)
  }

  /** Outbound frames: `{action:'init'}`, `{action:'want', data}`,
      `{'track-tx'}`, `{'track-address'}`, `{historicalDate}`. */
  datatype Request =
    | Init
    | WantRequest(data: seq<string>)
    | TrackTx(txId: string)
    | TrackAddress(address: string)
    | HistoricalDate(date: string)

  /** The event pushed on `mempoolStats$`. */
  datatype MempoolStats = MempoolStats(memPoolInfo: Payload, vBytesPerSecond: Option<Payload>)

  /** A deferred action with its delay in milliseconds: re-running the
      subscription after a transport error, or reloading the page. */
  datatype Timer = Restart(delay: int) | Reload(delay: int)

  /** The value of `Math.floor(Math.random() * 60000)`. */
  type Jitter = j: int | 0 <= j < 60000

  const RestartDelay: int := 10000
  const ReloadBase: int := 1000
}
