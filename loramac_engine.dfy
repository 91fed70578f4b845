/** The Semtech LoRaMAC engine of pkg/semtech-loramac/contrib/semtech_loramac.c
    as a sequential state machine over one `semtech_loramac_t` record.

    The engine thread, the application thread and the interrupt context of
    the source become calls on one object: each engine message is one call to
    `Dispatch`, each facade function one method, and the blocking rendezvous
    of a facade with the engine a direct call to `RunCommand`. A message a
    thread would block for in `msg_receive` is a parameter. The external
    LoRaMAC stack answers through `StackReplies`; the requests handed to it
    are logged in `submitted`, messages posted to the engine in `posted` and
    messages sent to the application in `outbox`. */
module LoRaMacEngine {
  import opened LoRaMacTypes

  /** `link_chk`: the cached result of the last LinkCheckAns. */
  datatype LinkCheckInfo = LinkCheckInfo(available: bool, demodMargin: U8, nbGateways: U8)

  /** The metadata of `rx_data`; its payload bytes live in `Mac.rxPayload`. */
  datatype RxMeta = RxMeta(payloadLen: U8, port: U8, ack: bool, multicast: U8, rssi: int, datarate: U8)

  datatype DeviceClass = ClassA | ClassB | ClassC

  /** The LORAMAC_DEFAULT_* settings `_init_loramac` applies. */
  datatype Defaults = Defaults(dr: U8, adr: bool, publicNetwork: bool, deviceClass: DeviceClass,
                               txPort: U8, txMode: TxMode)

  /** Join credentials: OTAA identities and key, ABP address and session keys. */
  datatype Credentials = Credentials(devEui: seq<Byte>, appEui: seq<Byte>, appKey: seq<Byte>,
                                     devAddr: DevAddrBytes, nwkSKey: seq<Byte>, appSKey: seq<Byte>)

  /** What the external stack answers within one engine step:
      `LoRaMacQueryTxPossible` (as success or not), `LoRaMacMcpsRequest` and
      `LoRaMacMlmeRequest`. */
  datatype StackReplies = StackReplies(txPossible: bool, mcps: StackStatus, mlme: StackStatus)

  /** Calls the engine makes into the radio driver or the stack's timer and
      radio callbacks, whose effects are not modelled. */
  datatype ExternalCall = ServiceIsr | RadioRxTimeout | RadioTxTimeout | MacTimerCallback(timer: nat)

  /** Every field of a `Mac`, including the bytes of its receive buffer. */
  datatype MacView = MacView(
    state: MacState,
    port: U8,
    cnf: TxMode,
    trials: U8,
    datarate: U8,
    adr: bool,
    publicNetwork: bool,
    deviceClass: DeviceClass,
    callerPid: nat,
    linkChk: LinkCheckInfo,
    rxMeta: RxMeta,
    rxPayload: seq<Byte>,
    joined: bool,
    mibDevAddr: bv32,
    mibNwkSKey: seq<Byte>,
    mibAppSKey: seq<Byte>,
    posted: seq<EngineMsg>,
    outbox: seq<Envelope>,
    submitted: seq<StackRequest>,
    external: seq<ExternalCall>)

  class Mac {
    const creds: Credentials
    /** `rx_data.payload`, a fixed-size buffer. */
    const rxPayload: array<Byte>

    var state: MacState
    var port: U8
    var cnf: TxMode
    var trials: U8
    var datarate: U8
    var adr: bool
    var publicNetwork: bool
    var deviceClass: DeviceClass
    var callerPid: nat
    var linkChk: LinkCheckInfo
    var rxMeta: RxMeta

    // The parts of the external stack's MIB the engine reads or writes.
    var joined: bool
    var mibDevAddr: bv32
    var mibNwkSKey: seq<Byte>
    var mibAppSKey: seq<Byte>

    // Logs of what the engine sends out.
    var posted: seq<EngineMsg>
    var outbox: seq<Envelope>
    var submitted: seq<StackRequest>
    var external: seq<ExternalCall>

    ghost function View(): MacView
      reads this, rxPayload
    {
      MacView(state, port, cnf, trials, datarate, adr, publicNetwork, deviceClass, callerPid,
              linkChk, rxMeta, rxPayload[..], joined, mibDevAddr, mibNwkSKey, mibAppSKey,
              posted, outbox, submitted, external)
    }

    /** The stored downlink fits the receive buffer. Only the RX branch of
        the event loop writes `rx_data`, so `Dispatch` and `StoreRx` are the
        only methods that carry this invariant: every other method leaves
        `rxMeta` alone, by its frame or by its `View()` equation. */
    ghost predicate Valid()
      reads this
    {
      rxMeta.payloadLen <= rxPayload.Length
    }

    /** Every JOIN message posted to the engine and every join outcome sent
        to the application is SUCCEEDED, FAILED or RESTRICTED. */
    ghost predicate JoinOutcomesOk()
      reads this
    {
      OnlyJoinOutcomes(posted, outbox)
    }

    /** The payload of the last downlink. */
    ghost function ReceivedPayload(): seq<Byte>
      reads this, rxPayload
      requires Valid()
    {
      rxPayload[..rxMeta.payloadLen]
    }

    /** `_init_loramac`: applies the default settings and clears the link-check
        cache. Fields it does not touch start from zero, as in the static
        record the source passes in; the stack's MIB starts not joined. */
    constructor (defaults: Defaults, creds: Credentials, capacity: nat)
      ensures Valid() && fresh(rxPayload) && rxPayload.Length == capacity
      ensures this.creds == creds
      ensures state == StateIdle && !joined
      ensures datarate == defaults.dr && adr == defaults.adr && publicNetwork == defaults.publicNetwork
      ensures deviceClass == defaults.deviceClass && port == defaults.txPort && cnf == defaults.txMode
      ensures !linkChk.available
      ensures rxMeta.payloadLen == 0
      ensures posted == [] && outbox == [] && submitted == [] && external == []
      ensures JoinOutcomesOk()
    {
      this.creds := creds;
      rxPayload := new Byte[capacity](_ => 0);
      state := StateIdle;
      trials := 0;
      callerPid := 0;
      rxMeta := RxMeta(0, 0, false, 0, 0, 0);
      joined := false;
      mibDevAddr := 0;
      mibNwkSKey := [];
      mibAppSKey := [];
      posted, outbox, submitted, external := [], [], [], [];
      datarate := defaults.dr;
      adr := defaults.adr;
      publicNetwork := defaults.publicNetwork;
      deviceClass := defaults.deviceClass;
      port := defaults.txPort;
      cnf := defaults.txMode;
      linkChk := LinkCheckInfo(false, 0, 0);
    }

    // ----- Submitting an uplink -----

    /** `_semtech_loramac_send`: builds the uplink (see `UplinkRequest`) and
        hands it to the stack. Returns false, leaving the state alone, exactly
        when the stack accepts it; on BUSY, DUTYCYCLE_RESTRICTED or any other
        error the engine goes back to IDLE and the result is true. */
    method SubmitUplink(payload: Option<seq<Byte>>, len: U8, env: StackReplies) returns (failed: bool)
      modifies this
      ensures failed <==> env.mcps != StatusOk
      ensures state == (if failed then StateIdle else old(state))
      ensures View() == old(View()).(
                submitted := old(submitted)
                  + [Mcps(UplinkRequest(env.txPossible, cnf, port, trials, datarate, payload, len))],
                state := state)
    {
      var req := UplinkRequest(env.txPossible, cnf, port, trials, datarate, payload, len);
      submitted := submitted + [Mcps(req)];
      match env.mcps {
        case StatusOk =>
          return false;
        case StatusBusy =>
        case StatusDutyCycleRestricted =>
        case StatusError(_) =>
      }
      state := StateIdle;
      failed := true;
    }

    // ----- Callbacks of the external stack, which post to the engine -----

    /** `mcps_confirm`: a confirmed uplink that failed posts TX_CNF_FAILED; an
        unconfirmed uplink that went out posts TX_DONE; anything else posts nothing. */
    method OnMcpsConfirm(c: McpsConfirm)
      modifies this`posted
      ensures c.status == EventOk && c.request == McpsUnconfirmed ==> posted == old(posted) + [MsgTxDone]
      ensures c.status == EventOk && c.request != McpsUnconfirmed ==> posted == old(posted)
      ensures c.status != EventOk ==> posted == old(posted) + [MsgTxCnfFailed]
      ensures old(JoinOutcomesOk()) ==> JoinOutcomesOk()
    {
      if c.status == EventOk {
        match c.request {
          case McpsUnconfirmed =>
            posted := posted + [MsgTxDone];
          case McpsConfirmed =>
          case McpsProprietary =>
          case McpsMulticast =>
        }
      } else {
        posted := posted + [MsgTxCnfFailed];
      }
    }

    /** `mcps_indication`: a failed indication posts nothing; otherwise a set
        FPending bit (section 4.3.1.4 of the LoRaWAN Specification v1.0.2)
        first posts TX_SCHEDULE, then exactly one of RX (with data) or TX_DONE. */
    method OnMcpsIndication(ind: McpsIndication)
      modifies this`posted
      ensures ind.status != EventOk ==> posted == old(posted)
      ensures ind.status == EventOk ==>
                posted == old(posted) + (if ind.framePending then [MsgTxSchedule] else [])
                                      + [if ind.rxData then MsgRx(ind) else MsgTxDone]
      ensures old(JoinOutcomesOk()) ==> JoinOutcomesOk()
    {
      if ind.status != EventOk {
        return;
      }
      if ind.framePending {
        posted := posted + [MsgTxSchedule];
      }
      var msg := if ind.rxData then MsgRx(ind) else MsgTxDone;
      posted := posted + [msg];
    }

    /** `mlme_indication`: the stack asking for an uplink posts TX_SCHEDULE. */
    method OnMlmeIndication(kind: MlmeType)
      modifies this`posted
      ensures posted == old(posted) + (if kind == MlmeScheduleUplink then [MsgTxSchedule] else [])
      ensures old(JoinOutcomesOk()) ==> JoinOutcomesOk()
    {
      if kind == MlmeScheduleUplink {
        posted := posted + [MsgTxSchedule];
      }
    }

    /** `mlme_confirm`: a join confirm posts JOIN with SUCCEEDED or FAILED; a
        link-check confirm posts LINK_CHECK only when it succeeded. The
        missing `break` after the link-check case falls into an empty
        default, so a failed link check posts nothing. */
    method OnMlmeConfirm(c: MlmeConfirm)
      modifies this`posted
      ensures c.request == MlmeJoin ==>
                posted == old(posted) + [MsgJoin(if c.status == EventOk then JoinSucceeded else JoinFailed)]
      ensures c.request == MlmeLinkCheck ==>
                posted == old(posted) + (if c.status == EventOk then [MsgLinkCheck(c)] else [])
      ensures c.request != MlmeJoin && c.request != MlmeLinkCheck ==> posted == old(posted)
      ensures old(JoinOutcomesOk()) ==> JoinOutcomesOk()
    {
      match c.request {
        case MlmeJoin =>
          if c.status == EventOk {
            posted := posted + [MsgJoin(JoinSucceeded)];
          } else {
            posted := posted + [MsgJoin(JoinFailed)];
          }
        case MlmeLinkCheck =>
          if c.status == EventOk {
            posted := posted + [MsgLinkCheck(c)];
          }
        case _ =>
      }
    }

    /** The stack's own handling of a Join-Accept (section 6.2.5 of the
        LoRaWAN Specification v1.0.2), which marks the MIB as joined before
        it confirms the join. Stands for code outside this file. */
    method StackJoinAccepted()
      modifies this`joined
      ensures joined
    {
      joined := true;
    }

    /** `_semtech_loramac_event_cb`: interrupts and radio timeouts are posted
        to the engine; the other radio events go to the radio callbacks, which
        are not modelled. */
    method OnRadioEvent(e: NetdevEvent)
      modifies this`posted
      ensures posted == old(posted) + (match EventMessage(e) case Some(m) => [m] case None => [])
      ensures old(JoinOutcomesOk()) ==> JoinOutcomesOk()
    {
      match EventMessage(e) {
        case Some(m) => posted := posted + [m];
        case None =>
      }
    }

    // ----- Commands run on the engine thread -----

    /** `_join_otaa`: marks the MIB not joined and asks the stack for an OTAA
        join (section 6.2 of the LoRaWAN Specification v1.0.2). An accepted
        request posts nothing (the outcome comes later through `mlme_confirm`);
        a duty-cycle refusal posts JOIN(RESTRICTED), any other refusal JOIN(FAILED). */
    method OtaaJoin(status: StackStatus)
      modifies this`joined, this`submitted, this`posted
      ensures !joined
      ensures submitted == old(submitted) + [MlmeJoinRequest(creds.devEui, creds.appEui, creds.appKey, datarate)]
      ensures status == StatusOk ==> posted == old(posted)
      ensures status == StatusDutyCycleRestricted ==> posted == old(posted) + [MsgJoin(Restricted)]
      ensures status != StatusOk && status != StatusDutyCycleRestricted ==>
                posted == old(posted) + [MsgJoin(JoinFailed)]
      ensures old(JoinOutcomesOk()) ==> JoinOutcomesOk()
    {
      joined := false;
      submitted := submitted + [MlmeJoinRequest(creds.devEui, creds.appEui, creds.appKey, datarate)];
      match status {
        case StatusOk =>
        case StatusDutyCycleRestricted =>
          posted := posted + [MsgJoin(Restricted)];
        case _ =>
          posted := posted + [MsgJoin(JoinFailed)];
      }
    }

    /** `_join_abp`: personalisation (section 6.3 of the LoRaWAN Specification
        v1.0.2). Writes the big-endian DevAddr and the session keys into the
        MIB, marks it joined and returns the engine to IDLE. */
    method AbpJoin()
      modifies this`joined, this`mibDevAddr, this`mibNwkSKey, this`mibAppSKey, this`state
      ensures joined && state == StateIdle
      ensures mibDevAddr == PackDevAddr(creds.devAddr)
      ensures UnpackDevAddr(mibDevAddr) == creds.devAddr
      ensures mibNwkSKey == creds.nwkSKey && mibAppSKey == creds.appSKey
    {
      joined := false;
      mibDevAddr := PackDevAddr(creds.devAddr);
      mibNwkSKey := creds.nwkSKey;
      mibAppSKey := creds.appSKey;
      joined := true;
      state := StateIdle;
    }

    /** `_join`: runs the join of the given type; any other type does nothing. */
    method RunJoin(t: JoinType, env: StackReplies)
      modifies this
      ensures t == JoinOtaa ==> View() == old(View()).(
                joined := false,
                submitted := old(submitted) + [MlmeJoinRequest(creds.devEui, creds.appEui, creds.appKey, datarate)],
                posted := posted)
      ensures t == JoinOtaa ==> posted == old(posted) + OtaaRefusal(env.mlme)
      ensures t == JoinAbp ==> View() == old(View()).(
                joined := true, state := StateIdle, mibDevAddr := PackDevAddr(creds.devAddr),
                mibNwkSKey := creds.nwkSKey, mibAppSKey := creds.appSKey)
      ensures t.JoinOther? ==> View() == old(View())
      ensures old(JoinOutcomesOk()) ==> JoinOutcomesOk()
    {
      match t {
        case JoinOtaa => OtaaJoin(env.mlme);
        case JoinAbp => AbpJoin();
        case JoinOther(_) =>
      }
    }

    /** The CMD branch of the event loop: BUSY is set before the command runs
        (`_join` or `_send`); returning from it is the reply that releases
        the waiting facade. */
    method RunCommand(cmd: Command, env: StackReplies)
      modifies this
      ensures View() == CommandView(old(View()), creds, cmd, env)
      ensures old(JoinOutcomesOk()) ==> JoinOutcomesOk()
    {
      if JoinOutcomesOk() {
        CommandKeepsJoinOutcomes(View(), creds, cmd, env);
      }
      state := StateBusy;
      match cmd {
        case JoinCmd(t) =>
          RunJoin(t, env);
        case SendCmd(payload, len) =>
          var _ := SubmitUplink(Some(payload), len, env);
      }
    }

    // ----- The event loop -----

    /** One turn of `_semtech_loramac_event_loop`, handling the message `m`
        it received; `DispatchView` states what each kind does. */
    method Dispatch(m: EngineMsg, env: StackReplies)
      requires Valid()
      requires m.MsgRx? ==> m.ind.bufferSize <= |m.ind.buffer| && m.ind.bufferSize <= rxPayload.Length
      modifies this, rxPayload
      ensures Valid()
      ensures View() == DispatchView(old(View()), creds, m, env)
      ensures m.MsgRx? ==> ReceivedPayload() == m.ind.buffer[..m.ind.bufferSize]
      ensures old(JoinOutcomesOk()) && m in old(posted) ==> JoinOutcomesOk()
    {
      if JoinOutcomesOk() && m in posted {
        DispatchKeepsJoinOutcomes(View(), creds, m, env);
      }
      match m {
        case MsgIsr =>
          RecordExternal(m, env);
        case MsgRxTimeout =>
          RecordExternal(m, env);
        case MsgTxTimeout =>
          RecordExternal(m, env);
        case MsgMacTimeout(_) =>
          RecordExternal(m, env);
        case MsgCmd(cmd) =>
          RunCommand(cmd, env);
        case MsgJoin(_) =>
          Notify(m, env);
        case MsgLinkCheck(confirm) =>
          StoreLinkCheck(confirm, env);
        case MsgTxDone =>
          Notify(m, env);
        case MsgTxSchedule =>
          ScheduleUplink(env);
        case MsgTxCnfFailed =>
          Notify(m, env);
        case MsgRx(ind) =>
          StoreRx(ind, env);
        case MsgUnexpected(_) =>
      }
    }

    /** The ISR, RX_TIMEOUT, TX_TIMEOUT and MAC_TIMEOUT branches of the event
        loop: a call into the radio driver or a stack callback. */
    method RecordExternal(m: EngineMsg, env: StackReplies)
      requires m.MsgIsr? || m.MsgRxTimeout? || m.MsgTxTimeout? || m.MsgMacTimeout?
      modifies this`external
      ensures View() == DispatchView(old(View()), creds, m, env)
    {
      var call := match m
        case MsgIsr => ServiceIsr
        case MsgRxTimeout => RadioRxTimeout
        case MsgTxTimeout => RadioTxTimeout
        case MsgMacTimeout(timer) => MacTimerCallback(timer);
      external := external + [call];
    }

    /** The JOIN, TX_DONE and TX_CNF_FAILED branches of the event loop: one
        message to the waiting application, then back to IDLE. */
    method Notify(m: EngineMsg, env: StackReplies)
      requires m.MsgJoin? || m == MsgTxDone || m == MsgTxCnfFailed
      modifies this`outbox, this`state
      ensures View() == DispatchView(old(View()), creds, m, env)
    {
      outbox := outbox + [Envelope(callerPid, NotificationFor(m))];
      state := StateIdle;
    }

    /** The LINK_CHECK branch of the event loop: caches the LinkCheckAns
        fields (section 5.1 of the LoRaWAN Specification v1.0.2). */
    method StoreLinkCheck(c: MlmeConfirm, env: StackReplies)
      modifies this`linkChk
      ensures View() == DispatchView(old(View()), creds, MsgLinkCheck(c), env)
    {
      linkChk := LinkCheckInfo(true, c.demodMargin, c.nbGateways);
    }

    /** The TX_SCHEDULE branch of the event loop: an empty frame on port 0
        (section 4.3.2 of the LoRaWAN Specification v1.0.2), after which the
        port is restored. */
    method ScheduleUplink(env: StackReplies)
      modifies this
      ensures View() == DispatchView(old(View()), creds, MsgTxSchedule, env)
    {
      var prevPort := port;
      port := 0;
      var _ := SubmitUplink(None, 0, env);
      port := prevPort;
    }

    /** The RX branch of the event loop: copies `BufferSize` bytes and the
        metadata of the indication into `rx_data`, notifies the application
        and returns to IDLE. */
    method StoreRx(ind: McpsIndication, env: StackReplies)
      requires ind.bufferSize <= |ind.buffer| && ind.bufferSize <= rxPayload.Length
      modifies this`rxMeta, this`outbox, this`state, rxPayload
      ensures Valid()
      ensures ReceivedPayload() == ind.buffer[..ind.bufferSize]
      ensures View() == DispatchView(old(View()), creds, MsgRx(ind), env)
    {
      forall i | 0 <= i < ind.bufferSize {
        rxPayload[i] := ind.buffer[i];
      }
      assert rxPayload[..] == ind.buffer[..ind.bufferSize] + old(rxPayload[..])[ind.bufferSize..];
      rxMeta := RxMeta(ind.bufferSize, ind.port, ind.ackReceived, ind.multicast, ind.rssi, ind.rxDatarate);
      outbox := outbox + [Envelope(callerPid, Notice(TypeRx))];
      state := StateIdle;
    }

    // ----- The facade, called from the application thread -----

    /** `semtech_loramac_join` up to its wait: BUSY unless IDLE. Otherwise
        records the caller and runs the join command. Any type other than
        OTAA answers JOIN_SUCCEEDED at once; an OTAA join answers nothing
        yet (`None`): the facade blocks until the engine forwards the
        outcome, which `AwaitJoin` then receives. */
    method Join(t: JoinType, pid: nat, env: StackReplies) returns (r: Option<Outcome>)
      modifies this
      ensures old(state) != StateIdle ==> r == Some(Busy) && View() == old(View())
      ensures old(state) == StateIdle ==>
                r == (if t == JoinOtaa then None else Some(JoinSucceeded))
                && View() == CommandView(old(View()).(callerPid := pid), creds, JoinCmd(t), env)
      ensures old(JoinOutcomesOk()) ==> JoinOutcomesOk()
    {
      if state != StateIdle {
        return Some(Busy);
      }
      callerPid := pid;
      RunCommand(JoinCmd(t), env);
      if t == JoinOtaa {
        return None;
      }
      r := Some(JoinSucceeded);
    }

    /** The end of an OTAA `semtech_loramac_join`: receives the message
        `next` the engine sent to the caller, returns the engine to IDLE and
        answers the `content.value` it carries. A join outcome the engine
        forwarded is always SUCCEEDED, FAILED or RESTRICTED. */
    method AwaitJoin(next: Notification, unset: Outcome) returns (r: Outcome)
      modifies this`state
      ensures state == StateIdle
      ensures r == ValueRead(next, unset)
      ensures JoinOutcomesOk() && next.JoinNotice? && (exists i :: 0 <= i < |outbox| && outbox[i].msg == next) ==>
                JoinOutcome(r)
    {
      state := StateIdle;
      r := ValueRead(next, unset);
    }

    /** `semtech_loramac_request_link_check`: clears the cached result and
        asks the stack for a LinkCheckReq (section 5.1 of the LoRaWAN
        Specification v1.0.2). */
    method RequestLinkCheck()
      modifies this`linkChk, this`submitted
      ensures linkChk == old(linkChk).(available := false)
      ensures submitted == old(submitted) + [MlmeLinkCheckRequest]
    {
      linkChk := linkChk.(available := false);
      submitted := submitted + [MlmeLinkCheckRequest];
    }

    /** `semtech_loramac_send`: clears the link-check availability first,
        then answers NOT_JOINED before BUSY; otherwise runs the send command
        and answers TX_SCHEDULED, the outcome arriving later through `Recv`. */
    method Send(payload: seq<Byte>, len: U8, env: StackReplies) returns (r: Outcome)
      modifies this
      ensures !linkChk.available
      ensures !old(joined) ==> r == NotJoined
      ensures old(joined) && old(state) != StateIdle ==> r == Busy
      ensures old(joined) && old(state) == StateIdle ==> r == TxScheduled
      ensures r != TxScheduled ==> View() == old(View()).(linkChk := old(linkChk).(available := false))
      ensures r == TxScheduled ==>
                View() == CommandView(old(View()).(linkChk := old(linkChk).(available := false)),
                                      creds, SendCmd(payload, len), env)
      ensures old(JoinOutcomesOk()) ==> JoinOutcomesOk()
    {
      var isJoined := joined;
      linkChk := linkChk.(available := false);
      if !isJoined {
        return NotJoined;
      }
      if state != StateIdle {
        return Busy;
      }
      RunCommand(SendCmd(payload, len), env);
      r := TxScheduled;
    }

    /** `semtech_loramac_recv`: records the caller, waits for the next
        message `next` and classifies its type. */
    method Recv(pid: nat, next: Notification, unset: MsgType) returns (r: Outcome)
      modifies this`callerPid
      ensures callerPid == pid
      ensures r == RecvOutcome(TypeRead(next, unset))
    {
      callerPid := pid;
      r := RecvOutcome(TypeRead(next, unset));
    }
  }

  /** The results a join can report to the application. */
  predicate JoinOutcome(o: Outcome)
  {
    o == JoinSucceeded || o == JoinFailed || o == Restricted
  }

  /** Every JOIN message in `posted` and every join outcome in `outbox` is a
      join result. */
  predicate OnlyJoinOutcomes(posted: seq<EngineMsg>, outbox: seq<Envelope>)
  {
    && (forall i :: 0 <= i < |posted| && posted[i].MsgJoin? ==> JoinOutcome(posted[i].outcome))
    && (forall i :: 0 <= i < |outbox| && outbox[i].msg.JoinNotice? ==> JoinOutcome(outbox[i].msg.value))
  }

  /** What `_join_otaa` posts for the status of its join request. */
  function OtaaRefusal(status: StackStatus): (msgs: seq<EngineMsg>)
    ensures status == StatusOk <==> msgs == []
    ensures status != StatusOk ==> msgs == [MsgJoin(if status == StatusDutyCycleRestricted then Restricted else JoinFailed)]
  {
    match status
    case StatusOk => []
    case StatusDutyCycleRestricted => [MsgJoin(Restricted)]
    case _ => [MsgJoin(JoinFailed)]
  }

  /** What the CMD branch of the event loop does to the engine record: the
      effect of `_send` or `_join` after the state has been set to BUSY.
      A command leaves the engine IDLE only after an ABP join or a send the
      stack refused; otherwise it stays BUSY until a later message. A command
      writes exactly one request to the stack unless it is an ABP join or a
      join of unknown type, never notifies the application directly and
      leaves the port, the caller, the link-check cache and `rx_data` alone. */
  function CommandView(v: MacView, creds: Credentials, cmd: Command, env: StackReplies): (w: MacView)
    ensures w.state == StateIdle <==> cmd == JoinCmd(JoinAbp) || (cmd.SendCmd? && env.mcps != StatusOk)
    ensures cmd.SendCmd? || cmd == JoinCmd(JoinOtaa) ==> |w.submitted| == |v.submitted| + 1
    ensures cmd == JoinCmd(JoinAbp) || (cmd.JoinCmd? && cmd.joinType.JoinOther?) ==> w.submitted == v.submitted
    ensures cmd == JoinCmd(JoinOtaa) ==> !w.joined
    ensures cmd == JoinCmd(JoinAbp) ==> w.joined && UnpackDevAddr(w.mibDevAddr) == creds.devAddr
    ensures cmd.SendCmd? || (cmd.JoinCmd? && cmd.joinType.JoinOther?) ==> w.joined == v.joined
    ensures w.outbox == v.outbox && w.port == v.port && w.callerPid == v.callerPid
    ensures w.linkChk == v.linkChk && w.rxMeta == v.rxMeta && w.rxPayload == v.rxPayload
  {
    match cmd
    case SendCmd(payload, len) =>
      v.(submitted := v.submitted
           + [Mcps(UplinkRequest(env.txPossible, v.cnf, v.port, v.trials, v.datarate, Some(payload), len))],
         state := if env.mcps == StatusOk then StateBusy else StateIdle)
    case JoinCmd(JoinOtaa) =>
      v.(state := StateBusy,
         joined := false,
         submitted := v.submitted + [MlmeJoinRequest(creds.devEui, creds.appEui, creds.appKey, v.datarate)],
         posted := v.posted + OtaaRefusal(env.mlme))
    case JoinCmd(JoinAbp) =>
      v.(joined := true, state := StateIdle, mibDevAddr := PackDevAddr(creds.devAddr),
         mibNwkSKey := creds.nwkSKey, mibAppSKey := creds.appSKey)
    case JoinCmd(JoinOther(_)) =>
      v.(state := StateBusy)
  }

  /** The kinds of engine message that notify the waiting application. */
  predicate Notifies(m: EngineMsg)
  {
    m.MsgJoin? || m == MsgTxDone || m == MsgTxCnfFailed || m.MsgRx?
  }

  /** What the application receives for a notifying message. */
  function NotificationFor(m: EngineMsg): Notification
    requires Notifies(m)
  {
    match m
    case MsgJoin(outcome) => JoinNotice(outcome)
    case MsgRx(_) => Notice(TypeRx)
    case MsgTxCnfFailed => Notice(TypeTxCnfFailed)
    case _ => Notice(TypeTxDone)
  }

  /** What one turn of the event loop does to the engine record for message
      `m`. Exactly the notifying kinds send one message to the recorded
      caller and return to IDLE; only a command can make the engine BUSY; no
      message changes the port (TX_SCHEDULE restores it); LINK_CHECK alone
      fills the link-check cache and RX alone writes `rx_data`; an unknown
      kind changes nothing. */
  function DispatchView(v: MacView, creds: Credentials, m: EngineMsg, env: StackReplies): (w: MacView)
    requires m.MsgRx? ==> m.ind.bufferSize <= |m.ind.buffer| && m.ind.bufferSize <= |v.rxPayload|
    ensures |w.rxPayload| == |v.rxPayload|
    ensures Notifies(m) ==> w.state == StateIdle && w.outbox == v.outbox + [Envelope(v.callerPid, NotificationFor(m))]
    ensures !Notifies(m) ==> w.outbox == v.outbox
    ensures w.state == StateBusy ==> v.state == StateBusy || m.MsgCmd?
    ensures !m.MsgCmd? ==> w.port == v.port && w.joined == v.joined && w.callerPid == v.callerPid
    ensures m == MsgTxSchedule ==> w.state == (if env.mcps == StatusOk then v.state else StateIdle)
    ensures m.MsgLinkCheck? ==>
              w.linkChk == LinkCheckInfo(true, m.confirm.demodMargin, m.confirm.nbGateways) && w.state == v.state
    ensures !m.MsgLinkCheck? ==> w.linkChk == v.linkChk
    ensures m.MsgRx? ==>
              w.rxPayload[..m.ind.bufferSize] == m.ind.buffer[..m.ind.bufferSize]
              && w.rxPayload[m.ind.bufferSize..] == v.rxPayload[m.ind.bufferSize..]
              && w.rxMeta.payloadLen == m.ind.bufferSize
    ensures !m.MsgRx? ==> w.rxPayload == v.rxPayload && w.rxMeta == v.rxMeta
    ensures m.MsgUnexpected? ==> w == v
  {
    match m
    case MsgIsr => v.(external := v.external + [ServiceIsr])
    case MsgRxTimeout => v.(external := v.external + [RadioRxTimeout])
    case MsgTxTimeout => v.(external := v.external + [RadioTxTimeout])
    case MsgMacTimeout(timer) => v.(external := v.external + [MacTimerCallback(timer)])
    case MsgCmd(cmd) => CommandView(v, creds, cmd, env)
    case MsgJoin(outcome) =>
      v.(outbox := v.outbox + [Envelope(v.callerPid, JoinNotice(outcome))], state := StateIdle)
    case MsgLinkCheck(c) =>
      v.(linkChk := LinkCheckInfo(true, c.demodMargin, c.nbGateways))
    case MsgTxDone =>
      v.(outbox := v.outbox + [Envelope(v.callerPid, Notice(TypeTxDone))], state := StateIdle)
    case MsgTxSchedule =>
      v.(submitted := v.submitted + [Mcps(UplinkRequest(env.txPossible, v.cnf, 0, v.trials, v.datarate, None, 0))],
         state := if env.mcps == StatusOk then v.state else StateIdle)
    case MsgTxCnfFailed =>
      v.(outbox := v.outbox + [Envelope(v.callerPid, Notice(TypeTxCnfFailed))], state := StateIdle)
    case MsgRx(ind) =>
      v.(rxPayload := ind.buffer[..ind.bufferSize] + v.rxPayload[ind.bufferSize..],
         rxMeta := RxMeta(ind.bufferSize, ind.port, ind.ackReceived, ind.multicast, ind.rssi, ind.rxDatarate),
         outbox := v.outbox + [Envelope(v.callerPid, Notice(TypeRx))],
         state := StateIdle)
    case MsgUnexpected(_) => v
  }

  /** A command posts only join results: `_join_otaa` posts RESTRICTED or
      FAILED, and no command sends anything to the application. */
  lemma CommandKeepsJoinOutcomes(v: MacView, creds: Credentials, cmd: Command, env: StackReplies)
    requires OnlyJoinOutcomes(v.posted, v.outbox)
    ensures OnlyJoinOutcomes(CommandView(v, creds, cmd, env).posted, CommandView(v, creds, cmd, env).outbox)
  {
  }

  /** Handling a message taken from `posted` forwards only join results: a
      JOIN message carries one, and no branch posts a message of its own. */
  lemma DispatchKeepsJoinOutcomes(v: MacView, creds: Credentials, m: EngineMsg, env: StackReplies)
    requires m.MsgRx? ==> m.ind.bufferSize <= |m.ind.buffer| && m.ind.bufferSize <= |v.rxPayload|
    requires OnlyJoinOutcomes(v.posted, v.outbox) && m in v.posted
    ensures OnlyJoinOutcomes(DispatchView(v, creds, m, env).posted, DispatchView(v, creds, m, env).outbox)
  {
    var w := DispatchView(v, creds, m, env);
    if m.MsgCmd? {
      CommandKeepsJoinOutcomes(v, creds, m.cmd, env);
    } else {
      assert w.posted == v.posted;
      if Notifies(m) {
        var i :| 0 <= i < |v.posted| && v.posted[i] == m;
        assert w.outbox == v.outbox + [Envelope(v.callerPid, NotificationFor(m))];
      } else {
        assert w.outbox == v.outbox;
      }
    }
  }
}
