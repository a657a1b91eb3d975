/** One connection with its own timer manager, interleaved with its environment. */
module Runs {
  import opened Options
  import opened Bytes
  import opened Message
  import opened Timers
  import opened Transport
  import opened ConnectionSpec

  /** `due`: timers the timer worker has collected whose callbacks it has not run yet.
      `crashed`: a message was dispatched through the null handler of Closed. */
  datatype Sys = Sys(conn: Conn, due: seq<TimerId>, crashed: bool)

  datatype Event =
    | Received(msg: DoIPMessage, app: AppReply, now: int)
    | LinkLost
    | Collect(now: int, order: seq<TimerId>)
    | Callback(now: int)
    | Response(response: seq<byte>, result: DownstreamResult, now: int)
    | CloseRequest(reason: CloseReason, now: int)
    | Configure(cfg: Config)

  /** A message is received and dispatched in one step, which needs an active transport. The worker collects in an
      arbitrary order, and only after its previous callbacks ran. A downstream response needs a handler to call. */
  ghost predicate Enabled(s: Sys, e: Event) {
    match e
    case Received(_, _, _) => s.conn.link.active
    case Collect(now, order) => s.due == [] && Enumerates(order, DueIds(s.conn.phase.table.timers, now))
    case Callback(_) => s.due != []
    case Response(_, _, _) => s.conn.log.forwarded != []
    case _ => true
  }

  ghost function Step(s: Sys, e: Event): Sys
    requires Enabled(s, e)
  {
    match e
    case Received(msg, app, now) =>
      (match HandleMessage(s.conn, msg, app, now)
       case Some(c) => s.(conn := c)
       case None => s.(crashed := true))
    case LinkLost => s.(conn := s.conn.(link := s.conn.link.(active := false)))
    case Collect(now, order) =>
      var table := s.conn.phase.table;
      var after := Monitor(AfterPass(table.timers, now, _ => now), table.changed);
      s.(conn := s.conn.(phase := s.conn.phase.(table := after)), due := order)
    case Callback(now) => Sys(HandleTimeout(s.conn, s.due[0], now), s.due[1..], s.crashed)
    case Response(response, result, now) => s.(conn := ReceiveDownstreamResponse(s.conn, response, result, now))
    case CloseRequest(reason, now) => s.(conn := CloseConnection(s.conn, reason, now))
    case Configure(cfg) => s.(conn := s.conn.(cfg := cfg))
  }

  ghost function Start(site: Site, writesLeft: nat, now: int): Sys {
    Sys(Construct(site, Link(true, writesLeft, []), now), [], false)
  }

  /** A run: all states it passes through, one more than events. */
  ghost predicate IsRun(states: seq<Sys>, events: seq<Event>) {
    && |states| == |events| + 1
    && (exists site, writesLeft, now :: states[0] == Start(site, writesLeft, now))
    && (forall k :: 0 <= k < |events| ==> Enabled(states[k], events[k]) && states[k + 1] == Step(states[k], events[k]))
  }

  // ---------------------------------------------------------------- closing happens once

  /** Before closing nothing was announced; afterwards one notice carries the recorded reason, for good. */
  ghost predicate ClosedOnce(c: Conn) {
    && (c.status.closing ==> !c.status.open && !c.link.active && c.log.notices == [c.status.reason])
    && (!c.status.closing ==> c.status.open && c.log.notices == [] && c.status.reason == NoReason)
    && c.link.sent <= c.log.outbox
    && (c.link.active ==> c.link.sent == c.log.outbox)
  }

  /** What can never be undone. */
  ghost predicate Evolves(c: Conn, c': Conn) {
    && c'.site == c.site
    && c.log.outbox <= c'.log.outbox
    && c.link.sent <= c'.link.sent
    && (!c.link.active ==> !c'.link.active && c'.link.sent == c.link.sent)
    && (c.status.closing ==>
        c'.status.closing && c'.status.reason == c.status.reason && c'.log.notices == c.log.notices)
  }

  lemma SendEvolves(c: Conn, msg: DoIPMessage)
    ensures Evolves(c, SendMessage(c, msg))
    ensures ClosedOnce(c) ==> ClosedOnce(SendMessage(c, msg))
  {
  }

  lemma CloseEvolves(c: Conn, reason: CloseReason, now: int)
    requires ClosedOnce(c)
    ensures var c' := CloseConnection(c, reason, now);
      && Evolves(c, c') && ClosedOnce(c') && c'.status.closing
      && c'.status.reason == (if c.status.closing then c.status.reason else reason)
      && (!c.status.closing ==> c'.phase.state == Closed && c'.phase.table.timers == map[])
  {
  }

  lemma MoveEvolves(c: Conn, s: ServerState, now: int)
    requires ClosedOnce(c)
    ensures Evolves(c, TransitionTo(c, s, now)) && ClosedOnce(TransitionTo(c, s, now))
  {
  }

  lemma AnswerEvolves(c: Conn, msg: DoIPMessage, app: AppReply, now: int)
    requires ClosedOnce(c)
    ensures Evolves(c, AnswerDiagnostic(c, msg, app, now)) && ClosedOnce(AnswerDiagnostic(c, msg, app, now))
  {
    var acked := RestartStateTimer(SendDiagnosticResponse(AskApplication(c, msg), c.client, app.verdict), now);
    var handed := Forward(acked, msg);
    var refused := SendDiagnosticResponse(handed, c.client, Some(TargetUnreachable));
    assert Evolves(c, acked) && ClosedOnce(acked);
    assert Evolves(c, handed) && ClosedOnce(handed);
    assert Evolves(c, refused) && ClosedOnce(refused);
    MoveEvolves(acked, RoutingActivated, now);
    MoveEvolves(handed, RoutingActivated, now);
    MoveEvolves(handed, WaitDownstreamResponse, now);
    MoveEvolves(refused, RoutingActivated, now);
  }

  lemma RoutedEvolves(c: Conn, msg: DoIPMessage, app: AppReply, now: int)
    requires ClosedOnce(c)
    ensures Evolves(c, HandleRoutingActivated(c, msg, app, now)) && ClosedOnce(HandleRoutingActivated(c, msg, app, now))
  {
    CloseEvolves(c, InvalidMessage, now);
    AnswerEvolves(c, msg, app, now);
  }

  lemma MessageEvolves(c: Conn, msg: DoIPMessage, app: AppReply, now: int)
    requires ClosedOnce(c) && HandleMessage(c, msg, app, now).Some?
    ensures var c' := HandleMessage(c, msg, app, now).value; Evolves(c, c') && ClosedOnce(c')
  {
    match c.phase.state {
      case WaitRoutingActivation => CloseEvolves(c, InvalidMessage, now);
      case RoutingActivated => RoutedEvolves(c, msg, app, now);
      case _ =>
    }
  }

  lemma TimeoutEvolves(c: Conn, id: TimerId, now: int)
    requires ClosedOnce(c)
    ensures Evolves(c, HandleTimeout(c, id, now)) && ClosedOnce(HandleTimeout(c, id, now))
  {
    CloseEvolves(c, InitialInactivityTimeout, now);
    CloseEvolves(c, AliveCheckTimeout, now);
    SendEvolves(c, MakeAliveCheckRequest());
    MoveEvolves(SendMessage(c, MakeAliveCheckRequest()), WaitAliveCheckResponse, now);
  }

  lemma ResponseEvolves(c: Conn, response: seq<byte>, result: DownstreamResult, now: int)
    requires ClosedOnce(c)
    ensures var c' := ReceiveDownstreamResponse(c, response, result, now); Evolves(c, c') && ClosedOnce(c')
  {
  }

  lemma StepEvolves(s: Sys, e: Event)
    requires Enabled(s, e) && ClosedOnce(s.conn)
    ensures Evolves(s.conn, Step(s, e).conn) && ClosedOnce(Step(s, e).conn)
  {
    match e {
      case Received(msg, app, now) =>
        if HandleMessage(s.conn, msg, app, now).Some? {
          MessageEvolves(s.conn, msg, app, now);
        }
      case Callback(now) => TimeoutEvolves(s.conn, s.due[0], now);
      case Response(response, result, now) => ResponseEvolves(s.conn, response, result, now);
      case CloseRequest(reason, now) => CloseEvolves(s.conn, reason, now);
      case _ =>
    }
  }

  lemma StartIsClosedOnce(site: Site, writesLeft: nat, now: int)
    ensures ClosedOnce(Start(site, writesLeft, now).conn)
    ensures var c := Start(site, writesLeft, now).conn;
      && c.phase.state == WaitRoutingActivation && c.phase.retry == 0 && c.log == Log([], [], [], [], [], [])
      && c.phase.armedBy == c.cfg == DEFAULT_CONFIG && c.site == site && !c.status.closing
      && c.phase.table.timers == map[InitialInactivity :=
           Timer(now + DEFAULT_CONFIG.initial, HandleTimeoutOfConnection, DEFAULT_CONFIG.initial, false, true)]
  {
  }

  /** Over every run, late timer callbacks and late responses included: closing is announced once, with the reason
      recorded first; from then on the connection is not open and nothing more reaches the client. */
  lemma {:induction false} CloseHappensOnce(states: seq<Sys>, events: seq<Event>, i: nat, j: nat)
    requires IsRun(states, events) && i <= j < |states|
    ensures ClosedOnce(states[i].conn) && ClosedOnce(states[j].conn)
    ensures Evolves(states[i].conn, states[j].conn)
    ensures |states[j].conn.log.notices| <= 1
    ensures states[i].conn.status.closing ==>
      && !states[j].conn.status.open
      && states[j].conn.status.reason == states[i].conn.status.reason
      && states[j].conn.log.notices == [states[i].conn.status.reason]
      && states[j].conn.link.sent == states[i].conn.link.sent
    decreases j
  {
    if j == 0 {
      var site, writesLeft, now :| states[0] == Start(site, writesLeft, now);
      StartIsClosedOnce(site, writesLeft, now);
    } else if i < j {
      CloseHappensOnce(states, events, i, j - 1);
      StepEvolves(states[j - 1], events[j - 1]);
    } else {
      CloseHappensOnce(states, events, j - 1, j - 1);
      StepEvolves(states[j - 1], events[j - 1]);
    }
  }
}
