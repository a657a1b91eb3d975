/** The state and the timer table agree, over whole runs with late callbacks. */
module StateTimers {
  import opened Options
  import opened Message
  import opened Timers
  import opened ConnectionSpec
  import opened Runs

  /** States that can wait: entering them does not fall through to Closed. */
  predicate CanWait(cfg: Config) {
    cfg.general != 0 && cfg.alive != 0
  }

  predicate IsLive(s: ServerState) {
    s == WaitRoutingActivation || s == RoutingActivated || s == WaitAliveCheckResponse || s == WaitDownstreamResponse
  }

  function TimerOf(p: Phase): TimerId {
    Descriptor(p.state).timer
  }

  /** Only the timer of the present state is armed: enabled, one-shot, with the interval its state was entered with. */
  ghost predicate OwnTimer(p: Phase) {
    forall id :: id in p.table.timers ==>
      && id == TimerOf(p)
      && p.table.timers[id].callback == HandleTimeoutOfConnection
      && p.table.timers[id].interval == Duration(p.armedBy, p.state)
      && !p.table.timers[id].periodic
      && p.table.timers[id].enabled
  }

  ghost predicate Live(c: Conn) {
    && CanWait(c.cfg)
    && (!c.status.closing ==> IsLive(c.phase.state))
  }

  /** An open connection that is not waiting for the downstream side is either timed, or its expiry has been
      collected and the callback is about to run. The retry counter tells an alive check from normal operation. */
  ghost predicate Agreement(s: Sys) {
    var p := s.conn.phase;
    && OwnTimer(p)
    && s.conn.cfg.retryCount <= 1
    && |s.due| <= 1
    && (!s.conn.status.closing ==>
        && p.retry == (if p.state == WaitAliveCheckResponse then 1 else 0)
        && (p.state != WaitDownstreamResponse && TimerOf(p) !in p.table.timers ==> s.due == [TimerOf(p)]))
  }

  ghost predicate GoodSettings(events: seq<Event>) {
    forall k :: 0 <= k < |events| && events[k].Configure? ==> CanWait(events[k].cfg) && events[k].cfg.retryCount <= 1
  }

  lemma MoveAgrees(s: Sys, target: ServerState, now: int)
    requires Agreement(s) && Live(s.conn) && !s.conn.status.closing
    requires target == RoutingActivated || target == WaitDownstreamResponse || target == WaitAliveCheckResponse
    requires target == WaitDownstreamResponse ==> s.conn.phase.state == RoutingActivated
    ensures var s' := s.(conn := TransitionTo(s.conn, target, now));
      && Live(s'.conn) && s'.conn.phase.state == target
      && Agreement(s')
      && (s.conn.phase.state != target ==> s'.conn.phase.table.timers.Keys == {TimerOf(s'.conn.phase)})
  {
  }

  lemma RestartAgrees(s: Sys, now: int)
    requires Agreement(s)
    ensures Agreement(s.(conn := RestartStateTimer(s.conn, now)))
  {
  }

  lemma AnswerAgrees(s: Sys, msg: DoIPMessage, app: AppReply, now: int)
    requires Agreement(s) && Live(s.conn) && !s.conn.status.closing && s.conn.phase.state == RoutingActivated
    ensures var s' := s.(conn := AnswerDiagnostic(s.conn, msg, app, now)); Agreement(s') && Live(s'.conn)
  {
    var c := s.conn;
    var asked := SendDiagnosticResponse(AskApplication(c, msg), c.client, app.verdict);
    RestartAgrees(s.(conn := asked), now);
    var acked := RestartStateTimer(asked, now);
    var handed := Forward(acked, msg);
    MoveAgrees(s.(conn := handed), WaitDownstreamResponse, now);
  }

  lemma MessageAgrees(s: Sys, msg: DoIPMessage, app: AppReply, now: int)
    requires Agreement(s) && Live(s.conn) && !s.conn.status.closing
    requires HandleMessage(s.conn, msg, app, now).Some?
    ensures var s' := s.(conn := HandleMessage(s.conn, msg, app, now).value); Agreement(s') && Live(s'.conn)
  {
    var c := s.conn;
    match c.phase.state {
      case WaitRoutingActivation =>
        if msg.SourceAddress().Some? {
          var source := msg.SourceAddress().value;
          var answered := SendMessage(SetClientAddress(c, source),
                                      MakeRoutingActivationResponse(source, c.site.server, ROUTE_ACTIVATED));
          MoveAgrees(s.(conn := answered), RoutingActivated, now);
        }
      case RoutingActivated =>
        RestartAgrees(s, now);
        AnswerAgrees(s, msg, app, now);
      case WaitAliveCheckResponse => MoveAgrees(s, RoutingActivated, now);
      case WaitDownstreamResponse =>
    }
  }

  lemma AliveCheckAgrees(s: Sys, now: int)
    requires Agreement(s) && Live(s.conn) && !s.conn.status.closing && s.due == [GeneralInactivity]
    ensures Agreement(Step(s, Callback(now))) && Live(Step(s, Callback(now)).conn)
  {
    var sent := s.(conn := SendMessage(s.conn, MakeAliveCheckRequest()));
    MoveAgrees(sent, WaitAliveCheckResponse, now);
  }

  lemma OpenCallbackAgrees(s: Sys, now: int)
    requires Agreement(s) && Live(s.conn) && !s.conn.status.closing && s.due != []
    ensures Agreement(Step(s, Callback(now))) && Live(Step(s, Callback(now)).conn)
  {
    match s.due[0] {
      case GeneralInactivity => AliveCheckAgrees(s, now);
      case AliveCheck => MoveAgrees(s, WaitAliveCheckResponse, now);
      case DownstreamResponse => MoveAgrees(s, RoutingActivated, now);
      case _ =>
    }
  }

  lemma ClosedStepAgrees(s: Sys, e: Event)
    requires Enabled(s, e) && ClosedOnce(s.conn) && Agreement(s) && Live(s.conn) && s.conn.status.closing
    requires e.Callback? || e.Response?
    ensures Agreement(Step(s, e)) && Live(Step(s, e).conn)
  {
  }

  lemma CollectAgrees(s: Sys, now: int, order: seq<TimerId>)
    requires Enabled(s, Collect(now, order)) && Agreement(s) && Live(s.conn)
    ensures Agreement(Step(s, Collect(now, order))) && Live(Step(s, Collect(now, order)).conn)
  {
    var timers := s.conn.phase.table.timers;
    var id := TimerOf(s.conn.phase);
    EnumerationOfAtMostOne(order, DueIds(timers, now), id);
    if order == [] {
      assert forall i :: i in timers ==> i in DueIds(timers, now) || !Due(timers[i], now);
      assert AfterPass(timers, now, _ => now) == timers;
    }
  }

  lemma StepAgrees(s: Sys, e: Event)
    requires Enabled(s, e) && ClosedOnce(s.conn) && Agreement(s) && Live(s.conn)
    requires e.Configure? ==> CanWait(e.cfg) && e.cfg.retryCount <= 1
    ensures Agreement(Step(s, e)) && Live(Step(s, e).conn)
    ensures Step(s, e).crashed == s.crashed
  {
    match e {
      case Received(msg, app, now) => MessageAgrees(s, msg, app, now);
      case Collect(now, order) => CollectAgrees(s, now, order);
      case Callback(now) =>
        if s.conn.status.closing {
          ClosedStepAgrees(s, e);
        } else {
          OpenCallbackAgrees(s, now);
        }
      case Response(response, result, now) =>
        if s.conn.status.closing {
          ClosedStepAgrees(s, e);
        } else {
          var answer :=
            if result == Handled then MakeDiagnosticMessage(s.conn.site.server, s.conn.client, response)
            else MakeDiagnosticResponse(s.conn.site.server, s.conn.client, Some(TargetUnreachable));
          MoveAgrees(s.(conn := SendMessage(s.conn, answer)), RoutingActivated, now);
        }
      case _ =>
    }
  }

  lemma {:induction false} AgreementRun(states: seq<Sys>, events: seq<Event>, k: nat)
    requires IsRun(states, events) && GoodSettings(events) && k < |states|
    ensures Agreement(states[k]) && Live(states[k].conn) && !states[k].crashed
  {
    if k == 0 {
      var site, writesLeft, now :| states[0] == Start(site, writesLeft, now);
      StartIsClosedOnce(site, writesLeft, now);
    } else {
      AgreementRun(states, events, k - 1);
      CloseHappensOnce(states, events, k - 1, k - 1);
      StepAgrees(states[k - 1], events[k - 1]);
    }
  }

  /** Whenever the timer worker has no callback outstanding, an open connection that waits for the client has exactly
      the timer of its state, and restarting it from RoutingActivated finds it. */
  ghost predicate Timed(s: Sys) {
    var p := s.conn.phase;
    !s.conn.status.closing && s.due == [] ==>
      && IsLive(p.state)
      && OwnTimer(p)
      && (p.state != WaitDownstreamResponse ==> p.table.timers.Keys == {TimerOf(p)})
      && (p.state == WaitDownstreamResponse ==> p.table.timers.Keys <= {UserDefined})
      && (p.state == RoutingActivated ==> p.retry == 0 && GeneralInactivity in p.table.timers)
      && (p.state == WaitAliveCheckResponse ==> p.retry == 1)
  }

  lemma ExactlyOneTimer(states: seq<Sys>, events: seq<Event>, k: nat)
    requires IsRun(states, events) && GoodSettings(events) && k < |states|
    ensures Timed(states[k])
  {
    AgreementRun(states, events, k);
  }
}
