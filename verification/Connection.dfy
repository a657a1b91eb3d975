/** DoIPConnection as an object: fields changed step by step, each method proved against ConnectionSpec. */
module Connection {
  import opened Options
  import opened Bytes
  import opened Message
  import opened Timers
  import opened Transport
  import opened ConnectionSpec
  import opened Downstream

  class DoIPConnection {
    const site: Site
    const timerManager: TimerManager<TimerId, TimeoutHandler>
    const transport: TcpConnectionTransport
    /** The gateway model, or null for an application whose answers arrive as AppReply. */
    const gateway: DoIPDownstreamServerModel?

    var state: ServerState
    var routedClientAddress: u16
    var isOpen: bool
    var isClosing: bool
    var closeReason: CloseReason
    var aliveCheckRetry: byte
    var settings: Config

    ghost var armedBy: Config
    ghost var log: Log

    /** An application reply that fits the model: a gateway always answers Pending. */
    ghost predicate Fits(app: AppReply) {
      gateway != null ==> gateway.Valid() && site.hasDownstream && app.downstream == Pending
    }

    ghost function Queues(): set<object> {
      if gateway == null then {} else {gateway, gateway.tx}
    }

    /** What the gateway was handed is what the connection forwarded. */
    twostate predicate Handed(forwarded: bool, msg: DoIPMessage)
      reads this, if gateway == null then {} else {gateway, gateway.tx, gateway.rx}
    {
      gateway != null ==>
        gateway.View() == if forwarded then Accept(old(gateway.View()), msg) else old(gateway.View())
    }

    ghost function PhaseView(): Phase
      reads this, timerManager
    {
      Phase(state, aliveCheckRetry, armedBy, timerManager.View())
    }

    ghost function View(): Conn
      reads this, timerManager, transport, transport.socket
    {
      Conn(site, settings, PhaseView(), routedClientAddress, Status(isOpen, isClosing, closeReason),
           transport.View(), log)
    }

    constructor (site: Site, timerManager: TimerManager<TimerId, TimeoutHandler>, transport: TcpConnectionTransport,
                 gateway: DoIPDownstreamServerModel?, now: int)
      requires timerManager.View() == Monitor(map[], false)
      modifies timerManager
      ensures this.site == site && this.timerManager == timerManager
      ensures this.transport == transport && this.gateway == gateway
      ensures View() == Construct(site, transport.View(), now)
    {
      this.site := site;
      this.timerManager := timerManager;
      this.transport := transport;
      this.gateway := gateway;
      routedClientAddress := 0;
      isOpen := true;
      isClosing := false;
      closeReason := NoReason;
      aliveCheckRetry := 0;
      settings := DEFAULT_CONFIG;
      armedBy := DEFAULT_CONFIG;
      log := Log([], [], [], [], [], []);
      state := SocketInitialized;
      new;
      TransitionTo(WaitRoutingActivation, now);
    }

    method Configure(cfg: Config)
      modifies this`settings
      ensures View() == old(View()).(cfg := cfg)
    {
      settings := cfg;
    }

    method TransitionTo(newState: ServerState, now: int)
      modifies this`state, this`aliveCheckRetry, this`armedBy, timerManager
      ensures PhaseView() == Move(old(PhaseView()), settings, newState, now)
      decreases if state == newState then 0 else 2 * Rank(newState) + 2
    {
      if state == newState {
        return;
      }
      SettleElsewhere(settings, newState);
      state := newState;
      StartStateTimer(now);
      match state {
        case RoutingActivated => aliveCheckRetry := 0;
        case WaitAliveCheckResponse => aliveCheckRetry := (aliveCheckRetry + 1) % 0x100;
        case _ =>
      }
    }

    method StartStateTimer(now: int)
      modifies this`state, this`aliveCheckRetry, this`armedBy, timerManager
      ensures PhaseView() == Rest(old(PhaseView()), settings, Settle(settings, old(state)), now)
      decreases 2 * Rank(state) + 1
    {
      timerManager.StopAll();
      var duration := Duration(settings, state);
      if duration == 0 {
        SettleElsewhere(settings, Descriptor(state).stateAfterTimeout);
        TransitionTo(Descriptor(state).stateAfterTimeout, now);
        return;
      }
      var _ := timerManager.AddTimer(Descriptor(state).timer, duration, Some(HandleTimeoutOfConnection), false, now);
      armedBy := settings;
    }

    method RestartStateTimer(now: int) returns (found: bool)
      modifies timerManager
      ensures View() == ConnectionSpec.RestartStateTimer(old(View()), now)
      ensures found == (Descriptor(state).timer in old(timerManager.timers))
    {
      found := timerManager.RestartTimer(Descriptor(state).timer, now);
    }

    method SendProtocolMessage(msg: DoIPMessage)
      modifies this`log, transport`isActive, transport.socket`writesLeft, transport.socket`written
      ensures View() == SendMessage(old(View()), msg)
    {
      var _ := transport.SendMessage(msg);
      log := log.(outbox := log.outbox + [msg]);
    }

    method SendDiagnosticMessageResponse(source: u16, ack: DiagnosticAck)
      modifies this`log, transport`isActive, transport.socket`writesLeft, transport.socket`written
      ensures View() == SendDiagnosticResponse(old(View()), source, ack)
    {
      var message;
      if ack.Some? {
        message := DiagnosticNegativeResponse(source, site.server, ack.value, []);
      } else {
        message := DiagnosticPositiveResponse(source, site.server, []);
      }
      SendProtocolMessage(message);
      log := log.(notified := log.notified + [ack]);
    }

    method SetClientAddress(address: u16)
      modifies this`routedClientAddress, this`log
      ensures View() == ConnectionSpec.SetClientAddress(old(View()), address)
    {
      routedClientAddress := address;
      log := log.(routed := log.routed + [address]);
    }

    method CloseConnection(reason: CloseReason, now: int)
      modifies this, timerManager, transport`isActive
      ensures View() == ConnectionSpec.CloseConnection(old(View()), reason, now)
    {
      if isClosing {
        return;
      }
      isClosing := true;
      TransitionTo(Closed, now);
      closeReason := reason;
      timerManager.StopAll();
      transport.Close();
      log := log.(notices := log.notices + [reason]);
      isOpen := false;
    }

    method HandleWaitRoutingActivation(msg: DoIPMessage, now: int)
      modifies this, timerManager, transport`isActive, transport.socket`writesLeft, transport.socket`written
      ensures View() == ConnectionSpec.HandleWaitRoutingActivation(old(View()), msg, now)
    {
      var source := msg.SourceAddress();
      if source.None? || msg.PayloadType() != ROUTING_ACTIVATION_REQUEST {
        CloseConnection(InvalidMessage, now);
        return;
      }
      SetClientAddress(source.value);
      var response := RoutingActivationResponse(source.value, site.server, ROUTE_ACTIVATED);
      SendProtocolMessage(response);
      TransitionTo(RoutingActivated, now);
    }

    method HandleRoutingActivated(msg: DoIPMessage, app: AppReply, now: int)
      requires Fits(app)
      modifies this, timerManager, transport`isActive, transport.socket`writesLeft, transport.socket`written, Queues()
      ensures View() == ConnectionSpec.HandleRoutingActivated(old(View()), msg, app, now)
      ensures Handed(log.forwarded != old(log.forwarded), msg)
    {
      if msg.PayloadType() == ALIVE_CHECK_RESPONSE {
        var _ := RestartStateTimer(now);
        return;
      }
      if msg.PayloadType() != DIAGNOSTIC_MESSAGE {
        SendDiagnosticMessageResponse(0, Some(TransportProtocolError));
        return;
      }
      var source := msg.SourceAddress();
      if source.None? {
        CloseConnection(InvalidMessage, now);
        return;
      }
      if source.value != routedClientAddress {
        SendDiagnosticMessageResponse(source.value, Some(InvalidSourceAddress));
        return;
      }
      AnswerDiagnostic(msg, app, now);
    }

    method AnswerDiagnostic(msg: DoIPMessage, app: AppReply, now: int)
      requires Fits(app)
      modifies this, timerManager, transport`isActive, transport.socket`writesLeft, transport.socket`written, Queues()
      ensures View() == ConnectionSpec.AnswerDiagnostic(old(View()), msg, app, now)
      ensures Handed(log.forwarded != old(log.forwarded), msg)
    {
      log := log.(asked := log.asked + [msg]);
      SendDiagnosticMessageResponse(routedClientAddress, app.verdict);
      var _ := RestartStateTimer(now);
      if app.verdict.Some? {
        TransitionTo(RoutingActivated, now);
        return;
      }
      if site.hasDownstream {
        log := log.(forwarded := log.forwarded + [msg]);
        var result := app.downstream;
        if gateway != null {
          result := gateway.OnDownstreamRequest(msg, true);
        }
        match result {
          case Pending => TransitionTo(WaitDownstreamResponse, now);
          case Handled => TransitionTo(RoutingActivated, now);
          case Error =>
            SendDiagnosticMessageResponse(routedClientAddress, Some(TargetUnreachable));
            TransitionTo(RoutingActivated, now);
        }
      }
    }

    method HandleWaitAliveCheckResponse(msg: DoIPMessage, now: int)
      modifies this, timerManager, transport`isActive, transport.socket`writesLeft, transport.socket`written
      ensures View() == ConnectionSpec.HandleWaitAliveCheckResponse(old(View()), msg, now)
    {
      if msg.PayloadType() == DIAGNOSTIC_MESSAGE || msg.PayloadType() == ALIVE_CHECK_RESPONSE {
        TransitionTo(RoutingActivated, now);
      } else {
        SendDiagnosticMessageResponse(0, Some(TransportProtocolError));
      }
    }

    /** `dispatched` is false when the state has no handler and the call throws. */
    method HandleMessage(msg: DoIPMessage, app: AppReply, now: int) returns (dispatched: bool)
      requires Fits(app)
      modifies this, timerManager, transport`isActive, transport.socket`writesLeft, transport.socket`written, Queues()
      ensures dispatched == ConnectionSpec.HandleMessage(old(View()), msg, app, now).Some?
      ensures dispatched ==> Some(View()) == ConnectionSpec.HandleMessage(old(View()), msg, app, now)
      ensures !dispatched ==> View() == old(View())
      ensures Handed(log.forwarded != old(log.forwarded), msg)
    {
      dispatched := true;
      match state {
        case SocketInitialized => TransitionTo(WaitRoutingActivation, now);
        case WaitRoutingActivation => HandleWaitRoutingActivation(msg, now);
        case RoutingActivated => HandleRoutingActivated(msg, app, now);
        case WaitAliveCheckResponse => HandleWaitAliveCheckResponse(msg, now);
        case WaitDownstreamResponse =>
        case Finalize => TransitionTo(Closed, now);
        case Closed => dispatched := false;
      }
    }

    method HandleTimeout(id: TimerId, now: int)
      modifies this, timerManager, transport`isActive, transport.socket`writesLeft, transport.socket`written
      ensures View() == ConnectionSpec.HandleTimeout(old(View()), id, now)
    {
      match id {
        case InitialInactivity => CloseConnection(InitialInactivityTimeout, now);
        case GeneralInactivity =>
          SendProtocolMessage(MakeAliveCheckRequest());
          TransitionTo(WaitAliveCheckResponse, now);
        case AliveCheck =>
          if aliveCheckRetry < settings.retryCount {
            TransitionTo(WaitAliveCheckResponse, now);
          } else {
            CloseConnection(AliveCheckTimeout, now);
          }
        case DownstreamResponse => TransitionTo(RoutingActivated, now);
        case UserDefined =>
      }
    }

    method ReceiveDownstreamResponse(response: seq<byte>, result: DownstreamResult, now: int)
      modifies this, timerManager, transport`isActive, transport.socket`writesLeft, transport.socket`written
      ensures View() == ConnectionSpec.ReceiveDownstreamResponse(old(View()), response, result, now)
    {
      var answer;
      if result == Handled {
        answer := DiagnosticMessage(site.server, routedClientAddress, response);
      } else {
        answer := DiagnosticNegativeResponse(site.server, routedClientAddress, TargetUnreachable, []);
      }
      SendProtocolMessage(answer);
      TransitionTo(RoutingActivated, now);
    }
  }
}
