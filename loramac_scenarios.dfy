/** End-to-end runs of the LoRaMAC engine: each method builds a fresh engine
    and plays one exchange between the application, the engine and the
    stack, in the order the threads of the source interleave it. */
module LoRaMacScenarios {
  import opened LoRaMacTypes
  import opened LoRaMacEngine

  /** A stack that accepts every request and has room for the payload. */
  function Accepting(): StackReplies
  {
    StackReplies(true, StatusOk, StatusOk)
  }

  /** Sending before any join is refused with NOT_JOINED, and nothing reaches
      the stack or the engine. */
  method SendBeforeJoin(defaults: Defaults, creds: Credentials, payload: seq<Byte>, len: U8)
    returns (r: Outcome, submitted: seq<StackRequest>, posted: seq<EngineMsg>)
    ensures r == NotJoined && submitted == [] && posted == []
  {
    var mac := new Mac(defaults, creds, 16);
    r := mac.Send(payload, len, Accepting());
    submitted, posted := mac.submitted, mac.posted;
  }

  /** ABP join, an unconfirmed uplink, the stack's confirm and the
      application's receive: JOIN_SUCCEEDED, TX_SCHEDULED, then TX_DONE, with
      the engine IDLE again and the uplink carrying the payload on the
      configured port. */
  method AbpUnconfirmedUplink(defaults: Defaults, creds: Credentials, pid: nat, payload: seq<Byte>, len: U8)
    returns (join: Option<Outcome>, send: Outcome, recv: Outcome, idle: bool, request: StackRequest)
    requires defaults.txMode == TxUncnf
    ensures join == Some(JoinSucceeded) && send == TxScheduled && recv == TxDone && idle
    ensures request == Mcps(McpsReq(McpsUnconfirmed, Some(defaults.txPort), Some(payload), len, None, AsInt8(defaults.dr)))
  {
    var mac := new Mac(defaults, creds, 16);
    join := mac.Join(JoinAbp, pid, Accepting());
    send := mac.Send(payload, len, Accepting());
    request := mac.submitted[0];
    mac.OnMcpsConfirm(McpsConfirm(EventOk, McpsUnconfirmed));
    assert mac.posted == [MsgTxDone];
    mac.Dispatch(mac.posted[0], Accepting());
    assert mac.outbox == [Envelope(pid, Notice(TypeTxDone))];
    recv := mac.Recv(pid, mac.outbox[0].msg, TypeOther(0));
    idle := mac.state == StateIdle;
  }

  /** While an accepted uplink is in flight the engine stays BUSY: a second
      send is refused with BUSY and submits nothing. */
  method SecondSendWhileBusy(defaults: Defaults, creds: Credentials, pid: nat, payload: seq<Byte>, len: U8)
    returns (first: Outcome, second: Outcome, submittedCount: nat)
    ensures first == TxScheduled && second == Busy && submittedCount == 1
  {
    var mac := new Mac(defaults, creds, 16);
    var _ := mac.Join(JoinAbp, pid, Accepting());
    first := mac.Send(payload, len, Accepting());
    second := mac.Send(payload, len, Accepting());
    submittedCount := |mac.submitted|;
  }

  /** A refused uplink (duty-cycle restriction) returns the engine to IDLE,
      so the next send goes through. */
  method RestrictedSendReleasesEngine(defaults: Defaults, creds: Credentials, pid: nat, payload: seq<Byte>, len: U8)
    returns (first: Outcome, second: Outcome)
    ensures first == TxScheduled && second == TxScheduled
  {
    var mac := new Mac(defaults, creds, 16);
    var _ := mac.Join(JoinAbp, pid, Accepting());
    first := mac.Send(payload, len, StackReplies(true, StatusDutyCycleRestricted, StatusOk));
    second := mac.Send(payload, len, Accepting());
  }

  /** A link check: the request clears the cached answer; the LinkCheckAns
      confirm fills it in without a message to the application and without
      touching the engine state. */
  method LinkCheck(defaults: Defaults, creds: Credentials, margin: U8, gateways: U8)
    returns (before: LinkCheckInfo, after: LinkCheckInfo, notified: seq<Envelope>, idle: bool)
    ensures !before.available
    ensures after == LinkCheckInfo(true, margin, gateways)
    ensures notified == [] && idle
  {
    var mac := new Mac(defaults, creds, 16);
    mac.RequestLinkCheck();
    before := mac.linkChk;
    mac.OnMlmeConfirm(MlmeConfirm(MlmeLinkCheck, EventOk, margin, gateways));
    mac.Dispatch(mac.posted[0], Accepting());
    after, notified, idle := mac.linkChk, mac.outbox, mac.state == StateIdle;
  }

  /** An OTAA join the stack refuses for the duty cycle: the engine posts
      JOIN(RESTRICTED) to itself and forwards it to the waiting caller, whose
      `join` returns RESTRICTED with the engine IDLE and not joined. */
  method OtaaJoinRestricted(defaults: Defaults, creds: Credentials, pid: nat)
    returns (waits: bool, r: Outcome, forwarded: Notification, idle: bool, joined: bool)
    ensures waits && r == Restricted && forwarded == JoinNotice(Restricted) && idle && !joined
  {
    var mac := new Mac(defaults, creds, 16);
    var env := StackReplies(true, StatusOk, StatusDutyCycleRestricted);
    var answer := mac.Join(JoinOtaa, pid, env);
    waits := answer == None;
    assert mac.posted == [MsgJoin(Restricted)];
    mac.Dispatch(mac.posted[0], env);
    forwarded := mac.outbox[0].msg;
    r := mac.AwaitJoin(forwarded, JoinFailed);
    idle, joined := mac.state == StateIdle, mac.joined;
  }

  /** An unknown join type is answered JOIN_SUCCEEDED, yet nothing on the
      join path returns the engine to IDLE: the next join is refused with
      BUSY. */
  method UnknownJoinTypeLeavesEngineBusy(defaults: Defaults, creds: Credentials, pid: nat, code: U8)
    returns (first: Option<Outcome>, second: Option<Outcome>, busy: bool)
    ensures first == Some(JoinSucceeded) && second == Some(Busy) && busy
  {
    var mac := new Mac(defaults, creds, 16);
    first := mac.Join(JoinOther(code), pid, Accepting());
    second := mac.Join(JoinAbp, pid, Accepting());
    busy := mac.state == StateBusy;
  }

  /** The BUSY an unknown join type leaves behind lasts only until some
      notifying message reaches the engine: a stray TX_DONE from the stack
      returns it to IDLE, and a join goes through again. */
  method UnknownJoinTypeReleasedByNotice(defaults: Defaults, creds: Credentials, pid: nat, code: U8)
    returns (first: Option<Outcome>, afterNotice: Option<Outcome>)
    ensures first == Some(JoinSucceeded) && afterNotice == Some(JoinSucceeded)
  {
    var mac := new Mac(defaults, creds, 16);
    first := mac.Join(JoinOther(code), pid, Accepting());
    mac.OnMcpsConfirm(McpsConfirm(EventOk, McpsUnconfirmed));
    assert mac.posted == [MsgTxDone];
    mac.Dispatch(mac.posted[0], Accepting());
    afterNotice := mac.Join(JoinAbp, pid, Accepting());
  }

  /** A downlink with data: the indication posts RX, the engine copies the
      payload into its buffer and the application's receive reports
      DATA_RECEIVED. */
  method Downlink(defaults: Defaults, creds: Credentials, pid: nat, ind: McpsIndication)
    returns (r: Outcome, payload: seq<Byte>)
    requires ind.status == EventOk && ind.rxData && !ind.framePending
    requires ind.bufferSize <= |ind.buffer| && ind.bufferSize <= 64
    ensures r == DataReceived
    ensures payload == ind.buffer[..ind.bufferSize]
  {
    var mac := new Mac(defaults, creds, 64);
    mac.OnMcpsIndication(ind);
    assert mac.posted == [MsgRx(ind)];
    mac.Dispatch(mac.posted[0], Accepting());
    payload := mac.rxPayload[..mac.rxMeta.payloadLen];
    r := mac.Recv(pid, mac.outbox[0].msg, TypeOther(0));
  }

  /** A successful OTAA join: the stack accepts the request, later accepts
      the Join-Accept and confirms; the engine forwards JOIN_SUCCEEDED to the
      waiting caller, whose `join` returns it, and a send is then scheduled. */
  method OtaaJoinThenSend(defaults: Defaults, creds: Credentials, pid: nat, payload: seq<Byte>, len: U8)
    returns (waits: bool, join: Outcome, forwarded: Notification, send: Outcome)
    ensures waits && join == JoinSucceeded && forwarded == JoinNotice(JoinSucceeded) && send == TxScheduled
  {
    var mac := new Mac(defaults, creds, 16);
    var answer := mac.Join(JoinOtaa, pid, Accepting());
    waits := answer == None;
    assert mac.posted == [] && mac.outbox == [] && mac.callerPid == pid;
    mac.StackJoinAccepted();
    mac.OnMlmeConfirm(MlmeConfirm(MlmeJoin, EventOk, 0, 0));
    assert mac.posted == [MsgJoin(JoinSucceeded)] && mac.joined;
    mac.Dispatch(mac.posted[0], Accepting());
    assert mac.outbox == [Envelope(pid, JoinNotice(JoinSucceeded))] && mac.joined;
    forwarded := mac.outbox[0].msg;
    join := mac.AwaitJoin(forwarded, JoinFailed);
    assert mac.joined && mac.state == StateIdle;
    send := mac.Send(payload, len, Accepting());
  }
}
