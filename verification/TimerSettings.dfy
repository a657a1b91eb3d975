/** For which settings do the state and its timer always agree (src/DoIPDefaultConnection.cpp)? */
module TimerSettings {
  import opened Timers
  import opened ConnectionSpec
  import opened Runs
  import opened StateTimers
  import opened NullHandler
  import opened Tester

  ghost predicate AlwaysTimed(cfg: Config) {
    forall states: seq<Sys>, events: seq<Event> | IsRun(states, events) && OnlyConfigures(events, cfg) ::
      forall k :: 0 <= k < |states| ==> Timed(states[k])
  }

  lemma ChecksAlive(s: Sys, now: int)
    requires s.due == [GeneralInactivity] && s.conn.phase.state == RoutingActivated && !s.conn.status.closing
    requires s.conn.cfg.alive != 0 && s.conn.phase.retry == 0
    ensures var c := Step(s, Callback(now)).conn;
      && Step(s, Callback(now)).due == []
      && c.phase.state == WaitAliveCheckResponse && !c.status.closing && c.phase.retry == 1
      && c.cfg == s.conn.cfg
      && c.phase.table.timers.Keys == {AliveCheck}
      && Due(c.phase.table.timers[AliveCheck], now + s.conn.cfg.alive)
      && !c.phase.table.timers[AliveCheck].periodic
  {
  }

  lemma CollectsAliveCheck(s: Sys, now: int)
    requires s.due == [] && s.conn.phase.table.timers.Keys == {AliveCheck}
    requires Due(s.conn.phase.table.timers[AliveCheck], now) && !s.conn.phase.table.timers[AliveCheck].periodic
    ensures var e := Collect(now, [AliveCheck]);
      && Enabled(s, e)
      && Step(s, e).due == [AliveCheck]
      && Step(s, e).conn.phase.table.timers == map[]
      && Step(s, e).conn.phase.state == s.conn.phase.state && Step(s, e).conn.phase.retry == s.conn.phase.retry
      && Step(s, e).conn.cfg == s.conn.cfg && Step(s, e).conn.status == s.conn.status
  {
    assert DueIds(s.conn.phase.table.timers, now) == {AliveCheck};
  }

  /** The retry changes nothing: the state is the same, so no timer is started. */
  lemma RetriesUntimed(s: Sys, now: int)
    requires s.due == [AliveCheck] && s.conn.phase.state == WaitAliveCheckResponse && !s.conn.status.closing
    requires s.conn.phase.retry < s.conn.cfg.retryCount && s.conn.phase.table.timers == map[]
    ensures !Timed(Step(s, Callback(now)))
  {
    assert Step(s, Callback(now)).conn.phase == s.conn.phase;
    assert AliveCheck !in Step(s, Callback(now)).conn.phase.table.timers;
  }

  lemma UntilAliveCheck(cfg: Config) returns (states: seq<Sys>, events: seq<Event>)
    requires cfg.alive != 0
    ensures IsRun(states, events) && OnlyConfigures(events, cfg)
    ensures var s := states[|events|];
      && s.due == [GeneralInactivity] && s.conn.phase.state == RoutingActivated && !s.conn.status.closing
      && s.conn.cfg == cfg && s.conn.phase.retry == 0
  {
    StartIsClosedOnce(Site(SERVER, false), 10, 0);
    states, events := [Opened()], [];
    ActivationEffect(states[|events|]);
    states, events := Extend(states, events, cfg, Received(ActivationRequest(), NO_MATTER, 0));
    var now := DEFAULT_CONFIG.general;
    CollectsIdle(states[|events|], now);
    states, events := Extend(states, events, cfg, Collect(now, [GeneralInactivity]));
    states, events := Extend(states, events, cfg, Configure(cfg));
  }

  lemma UntimedWithRetries(cfg: Config) returns (states: seq<Sys>, events: seq<Event>)
    requires CanWait(cfg) && cfg.retryCount > 1
    ensures IsRun(states, events) && OnlyConfigures(events, cfg)
    ensures !Timed(states[|events|])
  {
    states, events := UntilAliveCheck(cfg);
    var now := DEFAULT_CONFIG.general;
    ChecksAlive(states[|events|], now);
    states, events := Extend(states, events, cfg, Callback(now));
    var later := now + cfg.alive;
    CollectsAliveCheck(states[|events|], later);
    states, events := Extend(states, events, cfg, Collect(later, [AliveCheck]));
    RetriesUntimed(states[|events|], later);
    states, events := Extend(states, events, cfg, Callback(later));
  }

  /** State and timer agree on every run with these settings exactly when neither timeout is zero and at most one alive
      check retry is configured. */
  lemma TimersAlwaysAgree(cfg: Config)
    ensures AlwaysTimed(cfg) <==> CanWait(cfg) && cfg.retryCount <= 1
  {
    if CanWait(cfg) && cfg.retryCount <= 1 {
      forall states: seq<Sys>, events: seq<Event> | IsRun(states, events) && OnlyConfigures(events, cfg)
        ensures forall k :: 0 <= k < |states| ==> Timed(states[k])
      {
        forall k | 0 <= k < |states|
          ensures Timed(states[k])
        {
          ExactlyOneTimer(states, events, k);
        }
      }
    } else {
      var states, events := UntimedRun(cfg);
      assert !Timed(states[|events|]);
    }
  }

  lemma UntimedRun(cfg: Config) returns (states: seq<Sys>, events: seq<Event>)
    requires !(CanWait(cfg) && cfg.retryCount <= 1)
    ensures IsRun(states, events) && OnlyConfigures(events, cfg)
    ensures !Timed(states[|events|])
  {
    if cfg.general == 0 {
      states, events := ClosedByGeneral(cfg);
    } else if cfg.alive == 0 {
      states, events := ClosedByAlive(cfg);
    } else {
      states, events := UntimedWithRetries(cfg);
    }
  }
}
