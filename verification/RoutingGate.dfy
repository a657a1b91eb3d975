/** Nothing gets past an inactive route: src/DoIPDefaultConnection.cpp over whole runs. */
module RoutingGate {
  import opened Options
  import opened Bytes
  import opened Message
  import opened ConnectionSpec
  import opened Runs

  predicate FromClient(m: DoIPMessage, client: u16) {
    m.PayloadType() == DIAGNOSTIC_MESSAGE && m.SourceAddress() == Some(client)
  }

  /** Before activation: nothing sent, nothing asked, nothing forwarded. */
  ghost predicate Unrouted(c: Conn) {
    && c.log.routed == [] && c.log.outbox == [] && c.log.asked == [] && c.log.forwarded == []
    && (c.phase.state == WaitRoutingActivation || c.status.closing)
    && c.phase.table.timers.Keys <= {InitialInactivity}
  }

  /** After activation: one client for good, its activation response sent first and never again. */
  ghost predicate Routed(c: Conn) {
    && c.log.routed == [c.client]
    && c.phase.state != WaitRoutingActivation && c.phase.state != SocketInitialized
    && c.log.outbox != []
    && c.log.outbox[0] == MakeRoutingActivationResponse(c.client, c.site.server, ROUTE_ACTIVATED)
    && (forall k :: 1 <= k < |c.log.outbox| ==> c.log.outbox[k].PayloadType() != ROUTING_ACTIVATION_RESPONSE)
    && (forall m :: m in c.log.asked ==> FromClient(m, c.client))
    && (forall m :: m in c.log.forwarded ==> FromClient(m, c.client))
  }

  ghost predicate Gate(s: Sys) {
    Routed(s.conn) || (Unrouted(s.conn) && forall id :: id in s.due ==> id == InitialInactivity)
  }

  lemma OutgoingTypes(sa: u16, ta: u16, ack: DiagnosticAck, payload: seq<byte>)
    ensures MakeDiagnosticResponse(sa, ta, ack).PayloadType() ==
      if ack.None? then DIAGNOSTIC_MESSAGE_ACK else DIAGNOSTIC_MESSAGE_NEGATIVE_ACK
    ensures MakeDiagnosticMessage(sa, ta, payload).PayloadType() == DIAGNOSTIC_MESSAGE
    ensures MakeAliveCheckRequest().PayloadType() == ALIVE_CHECK_REQUEST
  {
    match ack {
      case None => BuiltFields(DIAGNOSTIC_MESSAGE_ACK, U16(sa) + U16(ta) + [0]);
      case Some(nack) => BuiltFields(DIAGNOSTIC_MESSAGE_NEGATIVE_ACK, U16(sa) + U16(ta) + [nack.Code()]);
    }
    BuiltFields(DIAGNOSTIC_MESSAGE, U16(sa) + U16(ta) + payload);
    BuiltFields(ALIVE_CHECK_REQUEST, []);
  }

  lemma RoutingResponseType(client: u16, server: u16)
    ensures MakeRoutingActivationResponse(client, server, ROUTE_ACTIVATED).PayloadType() == ROUTING_ACTIVATION_RESPONSE
  {
    BuiltFields(ROUTING_ACTIVATION_RESPONSE, U16(client) + U16(server) + [ROUTE_ACTIVATED] + [0, 0, 0, 0]);
  }

  lemma SendKeepsRouted(c: Conn, msg: DoIPMessage)
    requires Routed(c) && msg.PayloadType() != ROUTING_ACTIVATION_RESPONSE
    ensures Routed(SendMessage(c, msg))
  {
  }

  lemma AckKeepsRouted(c: Conn, source: u16, ack: DiagnosticAck)
    requires Routed(c)
    ensures Routed(SendDiagnosticResponse(c, source, ack))
  {
    OutgoingTypes(source, c.site.server, ack, []);
    SendKeepsRouted(c, MakeDiagnosticResponse(source, c.site.server, ack));
  }

  lemma MoveKeepsRouted(c: Conn, s: ServerState, now: int)
    requires Routed(c) && s != WaitRoutingActivation && s != SocketInitialized
    ensures Routed(TransitionTo(c, s, now))
  {
  }

  lemma Activation(c: Conn, msg: DoIPMessage, now: int)
    requires Unrouted(c) && c.phase.state == WaitRoutingActivation
    ensures var c' := HandleWaitRoutingActivation(c, msg, now); Unrouted(c') || Routed(c')
  {
    if msg.SourceAddress().Some? {
      var source := msg.SourceAddress().value;
      var response := MakeRoutingActivationResponse(source, c.site.server, ROUTE_ACTIVATED);
      var answered := SendMessage(SetClientAddress(c, source), response);
      assert answered.log.outbox == [response];
    }
  }

  lemma AnswerKeepsRouted(c: Conn, msg: DoIPMessage, app: AppReply, now: int)
    requires Routed(c) && FromClient(msg, c.client)
    ensures Routed(AnswerDiagnostic(c, msg, app, now))
  {
    var asked := AskApplication(c, msg);
    AckKeepsRouted(asked, c.client, app.verdict);
    var acked := RestartStateTimer(SendDiagnosticResponse(asked, c.client, app.verdict), now);
    var handed := Forward(acked, msg);
    AckKeepsRouted(handed, c.client, Some(TargetUnreachable));
    MoveKeepsRouted(acked, RoutingActivated, now);
    MoveKeepsRouted(handed, RoutingActivated, now);
    MoveKeepsRouted(handed, WaitDownstreamResponse, now);
    MoveKeepsRouted(SendDiagnosticResponse(handed, c.client, Some(TargetUnreachable)), RoutingActivated, now);
  }

  lemma MessageKeepsRouted(c: Conn, msg: DoIPMessage, app: AppReply, now: int)
    requires Routed(c) && HandleMessage(c, msg, app, now).Some?
    ensures Routed(HandleMessage(c, msg, app, now).value)
  {
    AckKeepsRouted(c, 0, Some(TransportProtocolError));
    match c.phase.state {
      case RoutingActivated =>
        if msg.PayloadType() == DIAGNOSTIC_MESSAGE && msg.SourceAddress().Some? {
          if msg.SourceAddress().value == c.client {
            AnswerKeepsRouted(c, msg, app, now);
          } else {
            AckKeepsRouted(c, msg.SourceAddress().value, Some(InvalidSourceAddress));
          }
        }
      case WaitAliveCheckResponse => MoveKeepsRouted(c, RoutingActivated, now);
      case Finalize => MoveKeepsRouted(c, Closed, now);
      case _ =>
    }
  }

  lemma TimeoutKeepsRouted(c: Conn, id: TimerId, now: int)
    requires Routed(c)
    ensures Routed(HandleTimeout(c, id, now))
  {
    OutgoingTypes(0, 0, None, []);
    SendKeepsRouted(c, MakeAliveCheckRequest());
    MoveKeepsRouted(SendMessage(c, MakeAliveCheckRequest()), WaitAliveCheckResponse, now);
    MoveKeepsRouted(c, WaitAliveCheckResponse, now);
    MoveKeepsRouted(c, RoutingActivated, now);
  }

  lemma ResponseKeepsRouted(c: Conn, response: seq<byte>, result: DownstreamResult, now: int)
    requires Routed(c)
    ensures Routed(ReceiveDownstreamResponse(c, response, result, now))
  {
    OutgoingTypes(c.site.server, c.client, Some(TargetUnreachable), response);
    var answer :=
      if result == Handled then MakeDiagnosticMessage(c.site.server, c.client, response)
      else MakeDiagnosticResponse(c.site.server, c.client, Some(TargetUnreachable));
    SendKeepsRouted(c, answer);
    MoveKeepsRouted(SendMessage(c, answer), RoutingActivated, now);
  }

  lemma StepKeepsGate(s: Sys, e: Event)
    requires Enabled(s, e) && ClosedOnce(s.conn) && Gate(s)
    ensures Gate(Step(s, e))
  {
    var c := s.conn;
    if Routed(c) {
      match e {
        case Received(msg, app, now) =>
          if HandleMessage(c, msg, app, now).Some? {
            MessageKeepsRouted(c, msg, app, now);
          }
        case Callback(now) => TimeoutKeepsRouted(c, s.due[0], now);
        case Response(response, result, now) => ResponseKeepsRouted(c, response, result, now);
        case _ =>
      }
    } else {
      match e {
        case Received(msg, app, now) => Activation(c, msg, now);
        case Callback(now) =>
          assert s.due[0] in s.due && forall id :: id in s.due[1..] ==> id in s.due;
        case _ =>
      }
    }
  }

  /** In every run: the client address is assigned at most once; the first message the client gets is the one routing
      activation response, for that address; everything the application or the downstream side is given is a
      diagnostic message from that address. */
  lemma {:induction false} NothingBeforeActivation(states: seq<Sys>, events: seq<Event>, k: nat)
    requires IsRun(states, events) && k < |states|
    ensures Gate(states[k])
    ensures var c := states[k].conn;
      && |c.log.routed| <= 1
      && (c.link.sent != [] ==>
          && c.log.routed == [c.client]
          && c.link.sent[0] == MakeRoutingActivationResponse(c.client, c.site.server, ROUTE_ACTIVATED))
      && (forall j :: 1 <= j < |c.link.sent| ==> c.link.sent[j].PayloadType() != ROUTING_ACTIVATION_RESPONSE)
      && (forall m :: m in c.log.asked || m in c.log.forwarded ==>
          c.log.routed == [c.client] && FromClient(m, c.client))
  {
    CloseHappensOnce(states, events, k, k);
    if k == 0 {
      var site, writesLeft, now :| states[0] == Start(site, writesLeft, now);
      StartIsClosedOnce(site, writesLeft, now);
    } else {
      NothingBeforeActivation(states, events, k - 1);
      CloseHappensOnce(states, events, k - 1, k - 1);
      StepKeepsGate(states[k - 1], events[k - 1]);
    }
  }
}
