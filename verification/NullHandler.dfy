/** When can a message reach the null handler of Closed (src/DoIPDefaultConnection.cpp, src/DoIPServer.cpp)? */
module NullHandler {
  import opened Options
  import opened Message
  import opened Timers
  import opened ConnectionSpec
  import opened Runs
  import opened StateTimers
  import opened Tester

  ghost predicate OnlyConfigures(events: seq<Event>, cfg: Config) {
    forall k :: 0 <= k < |events| && events[k].Configure? ==> events[k].cfg == cfg
  }

  ghost predicate NeverCrashes(cfg: Config) {
    forall states: seq<Sys>, events: seq<Event> | IsRun(states, events) && OnlyConfigures(events, cfg) ::
      forall k :: 0 <= k < |states| ==> !states[k].crashed
  }

  lemma StepStaysLive(s: Sys, e: Event)
    requires Enabled(s, e) && ClosedOnce(s.conn) && Live(s.conn)
    requires e.Configure? ==> CanWait(e.cfg)
    ensures Live(Step(s, e).conn) && Step(s, e).crashed == s.crashed
  {
    var c := s.conn;
    match e {
      case Received(msg, app, now) => MessageStaysLive(c, msg, app, now);
      case Callback(now) => assert Live(HandleTimeout(c, s.due[0], now));
      case Response(response, result, now) =>
        assert Live(ReceiveDownstreamResponse(c, response, result, now));
      case _ =>
    }
  }

  lemma MessageStaysLive(c: Conn, msg: DoIPMessage, app: AppReply, now: int)
    requires Live(c) && !c.status.closing
    ensures HandleMessage(c, msg, app, now).Some? && Live(HandleMessage(c, msg, app, now).value)
  {
    if c.phase.state == RoutingActivated {
      assert Live(AnswerDiagnostic(c, msg, app, now));
    }
  }

  lemma {:induction false} LiveRun(states: seq<Sys>, events: seq<Event>, cfg: Config, k: nat)
    requires IsRun(states, events) && OnlyConfigures(events, cfg) && CanWait(cfg) && k < |states|
    ensures Live(states[k].conn) && !states[k].crashed
  {
    if k == 0 {
      var site, writesLeft, now :| states[0] == Start(site, writesLeft, now);
      StartIsClosedOnce(site, writesLeft, now);
    } else {
      LiveRun(states, events, cfg, k - 1);
      CloseHappensOnce(states, events, k - 1, k - 1);
      StepStaysLive(states[k - 1], events[k - 1]);
    }
  }

  /** Extends a run by one enabled event. */
  lemma Extend(states: seq<Sys>, events: seq<Event>, cfg: Config, e: Event)
      returns (states': seq<Sys>, events': seq<Event>)
    requires IsRun(states, events) && OnlyConfigures(events, cfg)
    requires Enabled(states[|events|], e) && (e.Configure? ==> e.cfg == cfg)
    ensures IsRun(states', events') && OnlyConfigures(events', cfg)
    ensures events' == events + [e] && states <= states' && states'[|events'|] == Step(states[|events|], e)
  {
    events' := events + [e];
    states' := states + [Step(states[|events|], e)];
    assert states'[0] == states[0];
  }

  /** A freshly opened connection on a transport with room for ten messages. */
  ghost function Opened(): Sys {
    Start(Site(SERVER, false), 10, 0)
  }

  const NO_MATTER := AppReply(None, Handled)

  lemma ActivationEffect(s: Sys)
    requires s.conn.phase.state == WaitRoutingActivation && s.conn.link.active && s.conn.link.writesLeft == 10
    ensures var c := s.conn;
      var c' := Step(s, Received(ActivationRequest(), NO_MATTER, 0)).conn;
      && c'.phase.state == Settle(c.cfg, RoutingActivated)
      && (c.cfg == DEFAULT_CONFIG ==>
          && c'.phase.retry == 0 && c'.phase.armedBy == c.cfg
          && c'.phase.table.timers.Keys == {GeneralInactivity}
          && Due(c'.phase.table.timers[GeneralInactivity], DEFAULT_CONFIG.general))
      && c'.link.active && c'.link.writesLeft == 9 && c'.cfg == c.cfg && c'.status == c.status
      && c'.site == c.site && c'.client == CLIENT
  {
    TesterFields();
  }

  lemma OpenedAndConfigured(cfg: Config) returns (states: seq<Sys>, events: seq<Event>)
    ensures IsRun(states, events) && OnlyConfigures(events, cfg)
    ensures var s := states[|events|];
      && s.conn.phase.state == WaitRoutingActivation && s.conn.link.active && s.conn.link.writesLeft == 10
      && !s.conn.status.closing && s.due == [] && s.conn.cfg == cfg
  {
    StartIsClosedOnce(Site(SERVER, false), 10, 0);
    states, events := [Opened()], [];
    states, events := Extend(states, events, cfg, Configure(cfg));
  }

  /** Closed is reached with the transport still active: a zero general timeout at once ... */
  lemma ClosedByGeneral(cfg: Config) returns (states: seq<Sys>, events: seq<Event>)
    requires cfg.general == 0
    ensures IsRun(states, events) && OnlyConfigures(events, cfg)
    ensures var s := states[|events|];
      s.conn.phase.state == Closed && s.conn.link.active && !s.conn.status.closing && s.due == []
  {
    states, events := OpenedAndConfigured(cfg);
    ActivationEffect(states[|events|]);
    states, events := Extend(states, events, cfg, Received(ActivationRequest(), NO_MATTER, 0));
  }

  lemma CollectsIdle(s: Sys, now: int)
    requires s.due == [] && s.conn.phase.table.timers.Keys == {GeneralInactivity}
    requires Due(s.conn.phase.table.timers[GeneralInactivity], now)
    ensures var e := Collect(now, [GeneralInactivity]);
      && Enabled(s, e)
      && Step(s, e).due == [GeneralInactivity]
      && Step(s, e).conn.phase.state == s.conn.phase.state
      && Step(s, e).conn.phase.retry == s.conn.phase.retry && Step(s, e).conn.status == s.conn.status
      && Step(s, e).conn.cfg == s.conn.cfg && Step(s, e).conn.link == s.conn.link
      && Step(s, e).conn.site == s.conn.site && Step(s, e).conn.client == s.conn.client
      && Step(s, e).conn.phase.armedBy == s.conn.phase.armedBy
  {
    assert DueIds(s.conn.phase.table.timers, now) == {GeneralInactivity};
  }

  lemma FallsThrough(s: Sys, now: int)
    requires s.due == [GeneralInactivity] && s.conn.phase.state == RoutingActivated
    requires s.conn.cfg.alive == 0 && s.conn.link.active && s.conn.link.writesLeft > 0
    ensures var s' := Step(s, Callback(now));
      s'.conn.phase.state == Closed && s'.conn.link.active && s'.conn.status == s.conn.status && s'.due == []
  {
  }

  /** ... and a zero alive-check timeout when the general inactivity timer expires. */
  lemma ClosedByAlive(cfg: Config) returns (states: seq<Sys>, events: seq<Event>)
    requires cfg.alive == 0
    ensures IsRun(states, events) && OnlyConfigures(events, cfg)
    ensures var s := states[|events|];
      s.conn.phase.state == Closed && s.conn.link.active && !s.conn.status.closing && s.due == []
  {
    StartIsClosedOnce(Site(SERVER, false), 10, 0);
    states, events := [Opened()], [];
    ActivationEffect(states[|events|]);
    states, events := Extend(states, events, cfg, Received(ActivationRequest(), NO_MATTER, 0));
    states, events := Extend(states, events, cfg, Configure(cfg));
    var now := DEFAULT_CONFIG.general;
    CollectsIdle(states[|events|], now);
    states, events := Extend(states, events, cfg, Collect(now, [GeneralInactivity]));
    FallsThrough(states[|events|], now);
    states, events := Extend(states, events, cfg, Callback(now));
  }

  /** The next message then hits the null handler. */
  lemma CrashWithZeroTimeout(cfg: Config) returns (states: seq<Sys>, events: seq<Event>)
    requires !CanWait(cfg)
    ensures IsRun(states, events) && OnlyConfigures(events, cfg)
    ensures states[|events|].crashed
  {
    if cfg.general == 0 {
      states, events := ClosedByGeneral(cfg);
    } else {
      states, events := ClosedByAlive(cfg);
    }
    states, events := Extend(states, events, cfg, Received(ActivationRequest(), NO_MATTER, 0));
  }

  /** No run dispatches into the null handler exactly when neither timeout is set to zero. */
  lemma NullHandlerUnreachable(cfg: Config)
    ensures NeverCrashes(cfg) <==> CanWait(cfg)
  {
    if CanWait(cfg) {
      forall states: seq<Sys>, events: seq<Event> | IsRun(states, events) && OnlyConfigures(events, cfg)
        ensures forall k :: 0 <= k < |states| ==> !states[k].crashed
      {
        forall k | 0 <= k < |states|
          ensures !states[k].crashed
        {
          LiveRun(states, events, cfg, k);
        }
      }
    } else {
      var states, events := CrashWithZeroTimeout(cfg);
      assert states[|events|].crashed;
    }
  }
}
