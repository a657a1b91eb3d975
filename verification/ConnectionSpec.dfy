/** The connection's state machine on values: what every handler of src/DoIPDefaultConnection.cpp and
    src/DoIPConnection.cpp does to the connection, its timer table, its transport and the application. */
module ConnectionSpec {
  import opened Options
  import opened Bytes
  import opened Message
  import opened Timers
  import opened Transport

  datatype ServerState =
    | SocketInitialized
    | WaitRoutingActivation
    | RoutingActivated
    | WaitAliveCheckResponse
    | WaitDownstreamResponse
    | Finalize
    | Closed

  datatype TimerId = InitialInactivity | GeneralInactivity | AliveCheck | DownstreamResponse | UserDefined

  /** The callback stored with a timer: every descriptor leaves timeoutHandler null, so it is handleTimeout. */
  datatype TimeoutHandler = HandleTimeoutOfConnection

  datatype CloseReason =
    | NoReason
    | InitialInactivityTimeout
    | GeneralInactivityTimeout
    | AliveCheckTimeout
    | SocketError
    | InvalidMessage
    | ApplicationRequest
    | RoutingActivationDenied

  datatype DownstreamResult = Pending | Handled | Error

  /** What the application answers if asked during an event: its verdict, and the downstream initiation result. */
  datatype AppReply = AppReply(verdict: DiagnosticAck, downstream: DownstreamResult)

  datatype StateDescriptor =
    StateDescriptor(stateAfterTimeout: ServerState, timer: TimerId, timeoutDurationUser: int)

  /** STATE_DESCRIPTORS, indexed by state. */
  function Descriptor(s: ServerState): StateDescriptor {
    match s
    case SocketInitialized => StateDescriptor(WaitRoutingActivation, UserDefined, 0)
    case WaitRoutingActivation => StateDescriptor(Finalize, InitialInactivity, 0)
    case RoutingActivated => StateDescriptor(Finalize, GeneralInactivity, 0)
    case WaitAliveCheckResponse => StateDescriptor(Finalize, AliveCheck, 0)
    case WaitDownstreamResponse => StateDescriptor(Finalize, UserDefined, 2000)
    case Finalize => StateDescriptor(Closed, UserDefined, 0)
    case Closed => StateDescriptor(Closed, UserDefined, 0)
  }

  /** The adjustable settings, all times in milliseconds. */
  datatype Config = Config(initial: int, general: int, alive: int, downstream: int, retryCount: byte)

  const DEFAULT_CONFIG := Config(2000, 300000, 500, 10000, 1)

  /** getTimerDuration */
  function Duration(cfg: Config, s: ServerState): int {
    match Descriptor(s).timer
    case AliveCheck => cfg.alive
    case InitialInactivity => cfg.initial
    case GeneralInactivity => cfg.general
    case DownstreamResponse => cfg.downstream
    case UserDefined => Descriptor(s).timeoutDurationUser
  }

  /** What a connection was built with. */
  datatype Site = Site(server: u16, hasDownstream: bool)

  /** Everything the outside world was told or asked, in order.
      outbox: messages passed to sendProtocolMessage; routed: setClientAddress calls;
      asked: messages given to onDiagnosticMessage; forwarded: messages given to onDownstreamRequest;
      notified: onDiagnosticNotification; notices: onCloseConnection. */
  datatype Log = Log(
    outbox: seq<DoIPMessage>,
    routed: seq<u16>,
    asked: seq<DoIPMessage>,
    forwarded: seq<DoIPMessage>,
    notified: seq<DiagnosticAck>,
    notices: seq<CloseReason>)

  /** The state, with what transitionTo changes along with it; `armedBy` is the configuration in force when the
      present timer was armed. */
  datatype Phase = Phase(state: ServerState, retry: byte, armedBy: Config, table: Monitor<TimerId, TimeoutHandler>)

  /** m_isOpen, m_isClosing and m_closeReason. */
  datatype Status = Status(open: bool, closing: bool, reason: CloseReason)

  datatype Conn = Conn(
    site: Site,
    cfg: Config,
    phase: Phase,
    client: u16,
    status: Status,
    link: Link,
    log: Log)

  // ---------------------------------------------------------------- state changes

  /** Longest way along stateAfterTimeout to Closed. */
  function Rank(s: ServerState): nat {
    match s
    case SocketInitialized => 3
    case Closed => 0
    case Finalize => 1
    case _ => 2
  }

  function EnterState(p: Phase): Phase {
    match p.state
    case RoutingActivated => p.(retry := 0)
    case WaitAliveCheckResponse => p.(retry := (p.retry + 1) % 0x100)
    case _ => p
  }

  /** The first state with a nonzero duration along the stateAfterTimeout chain, or Closed. */
  function Settle(cfg: Config, s: ServerState): ServerState
    decreases Rank(s)
  {
    if s == Closed || Duration(cfg, s) != 0 then s else Settle(cfg, Descriptor(s).stateAfterTimeout)
  }

  /** Resting in state s: only its own timer is armed, for a full duration, or none if s has no duration. */
  function Rest(p: Phase, cfg: Config, s: ServerState, now: int): Phase {
    var d := Duration(cfg, s);
    if d == 0 then p.(state := s, table := Monitor(map[], true))
    else Phase(s, p.retry, cfg,
               Monitor(map[Descriptor(s).timer := Timer(now + d, HandleTimeoutOfConnection, d, false, true)], true))
  }

  /** What the mutual recursion of transitionTo and startStateTimer amounts to. */
  function Move(p: Phase, cfg: Config, newState: ServerState, now: int): Phase {
    if p.state == newState then p else EnterState(Rest(p, cfg, Settle(cfg, newState), now))
  }

  function TransitionTo(c: Conn, newState: ServerState, now: int): Conn {
    c.(phase := Move(c.phase, c.cfg, newState, now))
  }

  function RestartStateTimer(c: Conn, now: int): Conn {
    c.(phase := c.phase.(table := Apply(c.phase.table, Restart(Descriptor(c.phase.state).timer), now)))
  }

  // ---------------------------------------------------------------- sending

  function SendMessage(c: Conn, msg: DoIPMessage): Conn {
    c.(link := Send(c.link, msg), log := c.log.(outbox := c.log.outbox + [msg]))
  }

  function SendDiagnosticResponse(c: Conn, source: u16, ack: DiagnosticAck): Conn {
    var sent := SendMessage(c, MakeDiagnosticResponse(source, c.site.server, ack));
    sent.(log := sent.log.(notified := sent.log.notified + [ack]))
  }

  function SetClientAddress(c: Conn, address: u16): Conn {
    c.(client := address, log := c.log.(routed := c.log.routed + [address]))
  }

  function AskApplication(c: Conn, msg: DoIPMessage): Conn {
    c.(log := c.log.(asked := c.log.asked + [msg]))
  }

  function Forward(c: Conn, msg: DoIPMessage): Conn {
    c.(log := c.log.(forwarded := c.log.forwarded + [msg]))
  }

  // ---------------------------------------------------------------- closing

  /** closeConnection with DoIPConnection's compare-exchange guard. */
  function CloseConnection(c: Conn, reason: CloseReason, now: int): Conn {
    if c.status.closing then c else
    var p := Move(c.phase, c.cfg, Closed, now);
    c.(phase := p.(table := Monitor(map[], true)),
       status := Status(false, true, reason),
       link := c.link.(active := false),
       log := c.log.(notices := c.log.notices + [reason]))
  }

  // ---------------------------------------------------------------- message handlers

  function HandleWaitRoutingActivation(c: Conn, msg: DoIPMessage, now: int): Conn {
    if msg.SourceAddress().None? || msg.PayloadType() != ROUTING_ACTIVATION_REQUEST then
      CloseConnection(c, InvalidMessage, now)
    else
      var source := msg.SourceAddress().value;
      var bound := SetClientAddress(c, source);
      var answered := SendMessage(bound, MakeRoutingActivationResponse(source, c.site.server, ROUTE_ACTIVATED));
      TransitionTo(answered, RoutingActivated, now)
  }

  function HandleRoutingActivated(c: Conn, msg: DoIPMessage, app: AppReply, now: int): Conn {
    if msg.PayloadType() == ALIVE_CHECK_RESPONSE then
      RestartStateTimer(c, now)
    else if msg.PayloadType() != DIAGNOSTIC_MESSAGE then
      SendDiagnosticResponse(c, 0, Some(TransportProtocolError))
    else match msg.SourceAddress()
      case None => CloseConnection(c, InvalidMessage, now)
      case Some(source) =>
        if source != c.client then
          SendDiagnosticResponse(c, source, Some(InvalidSourceAddress))
        else
          AnswerDiagnostic(c, msg, app, now)
  }

  /** The part of handleRoutingActivated behind the source address check. */
  function AnswerDiagnostic(c: Conn, msg: DoIPMessage, app: AppReply, now: int): Conn {
    var asked := AskApplication(c, msg);
    var acked := RestartStateTimer(SendDiagnosticResponse(asked, c.client, app.verdict), now);
    if app.verdict.Some? then TransitionTo(acked, RoutingActivated, now)
    else if !c.site.hasDownstream then acked
    else
      var handed := Forward(acked, msg);
      match app.downstream
      case Pending => TransitionTo(handed, WaitDownstreamResponse, now)
      case Handled => TransitionTo(handed, RoutingActivated, now)
      case Error =>
        TransitionTo(SendDiagnosticResponse(handed, c.client, Some(TargetUnreachable)), RoutingActivated, now)
  }

  function HandleWaitAliveCheckResponse(c: Conn, msg: DoIPMessage, now: int): Conn {
    if msg.PayloadType() == DIAGNOSTIC_MESSAGE || msg.PayloadType() == ALIVE_CHECK_RESPONSE then
      TransitionTo(c, RoutingActivated, now)
    else
      SendDiagnosticResponse(c, 0, Some(TransportProtocolError))
  }

  /** handleMessage dispatches through the state's handler; None is the call through Closed's null handler. */
  function HandleMessage(c: Conn, msg: DoIPMessage, app: AppReply, now: int): Option<Conn> {
    match c.phase.state
    case SocketInitialized => Some(TransitionTo(c, WaitRoutingActivation, now))
    case WaitRoutingActivation => Some(HandleWaitRoutingActivation(c, msg, now))
    case RoutingActivated => Some(HandleRoutingActivated(c, msg, app, now))
    case WaitAliveCheckResponse => Some(HandleWaitAliveCheckResponse(c, msg, now))
    case WaitDownstreamResponse => Some(c)
    case Finalize => Some(TransitionTo(c, Closed, now))
    case Closed => None
  }

  // ---------------------------------------------------------------- timers and the downstream side

  function HandleTimeout(c: Conn, id: TimerId, now: int): Conn {
    match id
    case InitialInactivity => CloseConnection(c, InitialInactivityTimeout, now)
    case GeneralInactivity => TransitionTo(SendMessage(c, MakeAliveCheckRequest()), WaitAliveCheckResponse, now)
    case AliveCheck =>
      if c.phase.retry < c.cfg.retryCount then TransitionTo(c, WaitAliveCheckResponse, now)
      else CloseConnection(c, AliveCheckTimeout, now)
    case DownstreamResponse => TransitionTo(c, RoutingActivated, now)
    case UserDefined => c
  }

  function ReceiveDownstreamResponse(c: Conn, response: seq<byte>, result: DownstreamResult, now: int): Conn {
    var answer :=
      if result == Handled then MakeDiagnosticMessage(c.site.server, c.client, response)
      else MakeDiagnosticResponse(c.site.server, c.client, Some(TargetUnreachable));
    TransitionTo(SendMessage(c, answer), RoutingActivated, now)
  }

  // ---------------------------------------------------------------- construction

  /** The constructor: it arms the initial timer with the default settings, setters come later. */
  function Construct(site: Site, link: Link, now: int): Conn {
    var p := Phase(SocketInitialized, 0, DEFAULT_CONFIG, Monitor(map[], false));
    TransitionTo(
      Conn(site, DEFAULT_CONFIG, p, 0, Status(true, false, NoReason), link, Log([], [], [], [], [], [])),
      WaitRoutingActivation, now)
  }

  // ---------------------------------------------------------------- where a state change settles

  function AlongTimeouts(s: ServerState, n: nat): ServerState
    decreases n
  {
    if n == 0 then s else AlongTimeouts(Descriptor(s).stateAfterTimeout, n - 1)
  }

  /** Settle follows zero durations only, and stops at the first state that can wait or at Closed. */
  lemma {:induction false} SettleIsFirst(cfg: Config, s: ServerState) returns (n: nat)
    ensures Settle(cfg, s) == AlongTimeouts(s, n)
    ensures Duration(cfg, AlongTimeouts(s, n)) != 0 || AlongTimeouts(s, n) == Closed
    ensures forall m: nat :: m < n ==> Duration(cfg, AlongTimeouts(s, m)) == 0
    decreases Rank(s)
  {
    n := 0;
    if s != Closed && Duration(cfg, s) == 0 {
      var next := Descriptor(s).stateAfterTimeout;
      var m := SettleIsFirst(cfg, next);
      n := m + 1;
      forall k: nat | k < n
        ensures Duration(cfg, AlongTimeouts(s, k)) == 0
      {
        if k > 0 {
          assert AlongTimeouts(s, k) == AlongTimeouts(next, k - 1);
        }
      }
    }
  }

  /** A chain of zero durations never leads into a state with an entry action. */
  lemma SettleElsewhere(cfg: Config, s: ServerState)
    ensures Settle(cfg, s) == s || Settle(cfg, s) == Closed || Settle(cfg, s) == WaitRoutingActivation
  {
  }
}
