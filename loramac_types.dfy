/** Values exchanged between the Semtech LoRaMAC engine, the application that
    calls it and the external LoRaMAC stack beneath it
    (pkg/semtech-loramac/contrib/semtech_loramac.c).

    The external stack is not modelled: its status codes, confirms and
    indications appear here only as values handed to the engine. */
module LoRaMacTypes {

  type Byte = bv8

  /** A C `uint8_t`. */
  type U8 = x: int | 0 <= x < 256

  /** The four bytes `devaddr[0..3]` of an ABP device address. */
  type DevAddrBytes = s: seq<Byte> | |s| == 4 witness [0, 0, 0, 0]

  datatype Option<+T> = None | Some(value: T)

  /** SEMTECH_LORAMAC_STATE_IDLE / SEMTECH_LORAMAC_STATE_BUSY */
  datatype MacState = StateIdle | StateBusy

  /** LoRaMacStatus_t, the result of the stack's request functions. */
  datatype StackStatus = StatusOk | StatusBusy | StatusDutyCycleRestricted | StatusError(code: nat)

  /** LoRaMacEventInfoStatus_t, carried by confirms and indications. */
  datatype EventStatus = EventOk | EventError(code: nat)

  datatype McpsType = McpsUnconfirmed | McpsConfirmed | McpsProprietary | McpsMulticast

  datatype MlmeType = MlmeJoin | MlmeLinkCheck | MlmeScheduleUplink | MlmeOther(code: nat)

  /** LORAMAC_TX_CNF / LORAMAC_TX_UNCNF */
  datatype TxMode = TxCnf | TxUncnf

  /** The `uint8_t type` argument of a join: LORAMAC_JOIN_OTAA, LORAMAC_JOIN_ABP or anything else. */
  datatype JoinType = JoinOtaa | JoinAbp | JoinOther(code: U8)

  /** The result codes the application sees (SEMTECH_LORAMAC_*). */
  datatype Outcome =
    | Busy | NotJoined | TxScheduled | DataReceived | TxDone | TxCnfFailed
    | JoinSucceeded | JoinFailed | Restricted

  /** McpsConfirm_t, as far as the engine reads it. */
  datatype McpsConfirm = McpsConfirm(status: EventStatus, request: McpsType)

  /** McpsIndication_t: a downlink, with `bufferSize` meaningful bytes at the head of `buffer`. */
  datatype McpsIndication = McpsIndication(
    status: EventStatus,
    indication: McpsType,
    framePending: bool,
    rxData: bool,
    buffer: seq<Byte>,
    bufferSize: U8,
    port: U8,
    ackReceived: bool,
    multicast: U8,
    rssi: int,
    rxDatarate: U8)

  /** MlmeConfirm_t, as far as the engine reads it. */
  datatype MlmeConfirm = MlmeConfirm(request: MlmeType, status: EventStatus, demodMargin: U8, nbGateways: U8)

  /** McpsReq_t. A field the C code leaves unwritten is `None`; `nbTrials`
      exists only in the confirmed variant of the request. */
  datatype McpsReq = McpsReq(
    mtype: McpsType,
    fPort: Option<U8>,
    fBuffer: Option<seq<Byte>>,
    fBufferSize: U8,
    nbTrials: Option<U8>,
    datarate: int)

  /** A request handed to the external stack. */
  datatype StackRequest =
    | Mcps(req: McpsReq)
    | MlmeJoinRequest(devEui: seq<Byte>, appEui: seq<Byte>, appKey: seq<Byte>, datarate: U8)
    | MlmeLinkCheckRequest

  /** What a facade call asks the engine thread to run (semtech_loramac_call_t). */
  datatype Command = JoinCmd(joinType: JoinType) | SendCmd(payload: seq<Byte>, len: U8)

  /** A message posted to the engine thread, tagged by its MSG_TYPE_* kind and
      carrying what `content` points to. */
  datatype EngineMsg =
    | MsgIsr
    | MsgRxTimeout
    | MsgTxTimeout
    | MsgMacTimeout(timer: nat)
    | MsgCmd(cmd: Command)
    | MsgJoin(outcome: Outcome)
    | MsgLinkCheck(confirm: MlmeConfirm)
    | MsgTxDone
    | MsgTxSchedule
    | MsgTxCnfFailed
    | MsgRx(ind: McpsIndication)
    | MsgUnexpected(code: nat)

  /** The `type` field of a `msg_t`. */
  datatype MsgType =
    | TypeIsr | TypeRxTimeout | TypeTxTimeout | TypeMacTimeout | TypeCmd | TypeJoin
    | TypeLinkCheck | TypeTxDone | TypeTxSchedule | TypeTxCnfFailed | TypeRx | TypeOther(code: nat)

  /** A message the engine sends to the waiting application thread. A
      `Notice` has its `type` set and its content unset; the forwarded join
      outcome has its `content.value` set and its `type` unset. */
  datatype Notification = Notice(kind: MsgType) | JoinNotice(value: Outcome)

  datatype Envelope = Envelope(to: nat, msg: Notification)

  /** The `type` a receiver reads from `n`; `unset` stands for whatever an
      unwritten field happens to hold. */
  function TypeRead(n: Notification, unset: MsgType): MsgType
  {
    match n
    case Notice(k) => k
    case JoinNotice(_) => unset
  }

  /** The `content.value` a receiver reads from `n`; `unset` as above. */
  function ValueRead(n: Notification, unset: Outcome): Outcome
  {
    match n
    case Notice(_) => unset
    case JoinNotice(v) => v
  }

  /** netdev_event_t values delivered to the engine's event callback. */
  datatype NetdevEvent =
    | EventIsr | EventTxComplete | EventTxTimeout | EventRxComplete | EventRxTimeout
    | EventCrcError | EventFhssChangeChannel | EventCadDone | EventCadDetected
    | EventValidHeader | EventOther(code: nat)

  /** The `(int8_t)` cast of a `uint8_t`: two's-complement wrap-around. */
  function AsInt8(x: U8): (r: int)
    ensures -128 <= r < 128
    ensures (x - r) % 256 == 0
    ensures x < 128 ==> r == x
  {
    if x < 128 then x else x - 256
  }

  /** The uplink `_semtech_loramac_send` builds. When the stack says the
      payload cannot go out with the pending MAC commands, an empty
      unconfirmed frame is sent to flush them, whatever the TX mode; otherwise
      the caller's payload goes out, confirmed unless the mode is unconfirmed. */
  function UplinkRequest(txPossible: bool, cnf: TxMode, port: U8, trials: U8, dr: U8,
                         payload: Option<seq<Byte>>, len: U8): (req: McpsReq)
    ensures req.mtype == McpsConfirmed <==> txPossible && cnf != TxUncnf
    ensures req.mtype == McpsUnconfirmed <==> !(txPossible && cnf != TxUncnf)
    ensures req.fBuffer == (if txPossible then payload else None)
    ensures req.fBufferSize == (if txPossible then len else 0)
    ensures req.datarate == AsInt8(dr)
    ensures txPossible ==> req.fPort == Some(port)
    ensures req.nbTrials.Some? <==> req.mtype == McpsConfirmed
    ensures req.mtype == McpsConfirmed ==> req.nbTrials == Some(trials)
  {
    if !txPossible then
      McpsReq(McpsUnconfirmed, None, None, 0, None, AsInt8(dr))
    else if cnf == TxUncnf then
      McpsReq(McpsUnconfirmed, Some(port), payload, len, None, AsInt8(dr))
    else
      McpsReq(McpsConfirmed, Some(port), payload, len, Some(trials), AsInt8(dr))
  }

  /** The empty frame does not depend on the TX mode, the port, the trials or
      the payload. */
  lemma EmptyFrameIgnoresSettings(cnf1: TxMode, cnf2: TxMode, port1: U8, port2: U8,
                                  trials1: U8, trials2: U8, dr: U8,
                                  p1: Option<seq<Byte>>, p2: Option<seq<Byte>>, len1: U8, len2: U8)
    ensures UplinkRequest(false, cnf1, port1, trials1, dr, p1, len1)
         == UplinkRequest(false, cnf2, port2, trials2, dr, p2, len2)
  {
  }

  /** Byte `i` of a device address, most significant first. */
  function DevAddrByte(a: bv32, i: nat): Byte
    requires i < 4
  {
    if i == 0 then ((a >> 24) & 0xFF) as Byte
    else if i == 1 then ((a >> 16) & 0xFF) as Byte
    else if i == 2 then ((a >> 8) & 0xFF) as Byte
    else (a & 0xFF) as Byte
  }

  /** The four bytes of a device address, most significant first. */
  function UnpackDevAddr(a: bv32): DevAddrBytes
  {
    [DevAddrByte(a, 0), DevAddrByte(a, 1), DevAddrByte(a, 2), DevAddrByte(a, 3)]
  }

  /** The DevAddr `_join_abp` hands to the stack: `devaddr[0]` is the most
      significant byte (section 6.1.1 of the LoRaWAN Specification v1.0.2). */
  function PackDevAddr(d: DevAddrBytes): (a: bv32)
    ensures UnpackDevAddr(a) == d
  {
    (d[0] as bv32 << 24) | (d[1] as bv32 << 16) | (d[2] as bv32 << 8) | (d[3] as bv32)
  }

  /** Packing loses nothing: every 32-bit address is the packing of its bytes. */
  lemma PackUnpack(a: bv32)
    ensures PackDevAddr(UnpackDevAddr(a)) == a
  {
  }

  /** How `semtech_loramac_recv` classifies the `type` of the message it receives. */
  function RecvOutcome(t: MsgType): (r: Outcome)
    ensures r == DataReceived <==> t == TypeRx
    ensures r == TxCnfFailed <==> t == TypeTxCnfFailed
    ensures r == TxDone <==> t != TypeRx && t != TypeTxCnfFailed
  {
    match t
    case TypeRx => DataReceived
    case TypeTxCnfFailed => TxCnfFailed
    case _ => TxDone
  }

  /** The message `_semtech_loramac_event_cb` posts to the engine for a radio
      event: interrupts and radio timeouts are posted, every other event is
      handled in place or dropped. */
  function EventMessage(e: NetdevEvent): (m: Option<EngineMsg>)
    ensures m.Some? <==> e == EventIsr || e == EventTxTimeout || e == EventRxTimeout
    ensures e == EventIsr ==> m == Some(MsgIsr)
    ensures e == EventTxTimeout ==> m == Some(MsgTxTimeout)
    ensures e == EventRxTimeout ==> m == Some(MsgRxTimeout)
  {
    match e
    case EventIsr => Some(MsgIsr)
    case EventTxTimeout => Some(MsgTxTimeout)
    case EventRxTimeout => Some(MsgRxTimeout)
    case _ => None
  }
}
