/** The upper bounds for a silent client over whole runs, messages that are refused included: how far the timer worker
    must have got, and what the connection has done by then (src/DoIPDefaultConnection.cpp). */
module SilenceEnds {
  import opened Options
  import opened Message
  import opened Timers
  import opened ConnectionSpec
  import opened Runs
  import opened RoutingGate
  import opened StateTimers
  import opened Silence
  import opened SilentRuns
  import opened NullHandler
  import opened OutstandingExpiry
  import opened TimerSettings
  import opened Tester

  /** What is fixed while the client is silent: the first deadline, the last moment for the second one, the settings,
      and the alive checks put out before. */
  datatype Terms = Terms(deadline: int, bound: int, cfg: Config, before: nat)

  function Checks(c: Conn): nat {
    AliveChecks(c.log.outbox)
  }

  ghost predicate Idle(s: Sys, t: Terms) {
    Idling(s.conn, t.deadline) && s.due == []
  }

  ghost predicate Expired(s: Sys) {
    && !s.conn.status.closing && s.conn.phase.state == RoutingActivated && s.conn.phase.retry == 0
    && s.conn.phase.table.timers == map[] && s.due == [GeneralInactivity]
  }

  ghost predicate Checked(s: Sys, t: Terms) {
    && (exists x :: x <= t.bound && Resting(s.conn, WaitAliveCheckResponse, x))
    && s.conn.phase.retry == 1 && s.due == [] && Checks(s.conn) > t.before
  }

  ghost predicate Unanswered(s: Sys, t: Terms) {
    && !s.conn.status.closing && s.conn.phase.state == WaitAliveCheckResponse && s.conn.phase.retry == 1
    && s.conn.phase.table.timers == map[] && Checks(s.conn) > t.before
  }

  ghost predicate Over(s: Sys, t: Terms) {
    && s.conn.status.closing
    && (s.conn.status.reason == AliveCheckTimeout ==> t.cfg.retryCount <= 1 && Checks(s.conn) > t.before)
  }

  /** How far things have got at least: 0 idle, 1 idle timer collected, 2 alive check out, 3 its timer collected, 4 its
      callback done, which leaves an open connection only if more retries are configured, and that one untimed. */
  ghost predicate AtLeast(s: Sys, level: nat, t: Terms) {
    && s.conn.cfg == t.cfg && Checks(s.conn) >= t.before
    && (|| (level <= 0 && Idle(s, t))
        || (level <= 1 && Expired(s))
        || (level <= 2 && Checked(s, t))
        || (level <= 3 && Unanswered(s, t) && s.due == [AliveCheck])
        || (Unanswered(s, t) && s.due == [] && t.cfg.retryCount > 1)
        || Over(s, t))
  }

  function Next(level: nat, e: Event, t: Terms): nat {
    match e
    case Collect(now, _) =>
      if level == 0 && now >= t.deadline then 1 else if level == 2 && now >= t.bound then 3 else level
    case Callback(_) => if level == 1 then 2 else if level == 3 then 4 else level
    case _ => level
  }

  /** A step of a silent stretch. */
  ghost predicate Silent(s: Sys, e: Event) {
    !Stirs(s, e) && !e.Configure? && (e.CloseRequest? ==> e.reason != AliveCheckTimeout)
  }

  lemma ChecksGrow(s: Sys, e: Event)
    requires Enabled(s, e) && ClosedOnce(s.conn)
    ensures Checks(Step(s, e).conn) >= Checks(s.conn)
  {
    StepEvolves(s, e);
    OfTypesOfPrefix(s.conn.log.outbox, Step(s, e).conn.log.outbox, {ALIVE_CHECK_REQUEST});
  }

  lemma OverStays(s: Sys, e: Event, t: Terms)
    requires Enabled(s, e) && ClosedOnce(s.conn) && !e.Configure? && s.conn.cfg == t.cfg
    requires Over(s, t) && Checks(s.conn) >= t.before
    ensures AtLeast(Step(s, e), 4, t)
  {
    StepEvolves(s, e);
    ChecksGrow(s, e);
  }

  lemma MessageLevel(s: Sys, e: Event, level: nat, t: Terms)
    requires Enabled(s, e) && ClosedOnce(s.conn) && Silent(s, e) && e.Received?
    requires !s.conn.status.closing && AtLeast(s, level, t)
    ensures AtLeast(Step(s, e), level, t)
  {
    ChecksGrow(s, e);
    if s.conn.phase.state == WaitAliveCheckResponse {
      var nacked := SendDiagnosticResponse(s.conn, 0, Some(TransportProtocolError));
      assert Step(s, e) == s.(conn := nacked);
      assert forall x :: Resting(s.conn, WaitAliveCheckResponse, x) ==> Resting(nacked, WaitAliveCheckResponse, x);
    }
  }

  lemma CollectLevel(s: Sys, e: Event, level: nat, t: Terms)
    requires Enabled(s, e) && e.Collect? && !s.conn.status.closing && AtLeast(s, level, t)
    ensures AtLeast(Step(s, e), Next(level, e, t), t)
  {
    var timers := s.conn.phase.table.timers;
    var id := TimerOf(s.conn.phase);
    EnumerationOfAtMostOne(e.order, DueIds(timers, e.now), id);
    if e.order == [] {
      assert id in timers ==> id !in DueIds(timers, e.now);
      assert AfterPass(timers, e.now, _ => e.now) == timers;
    } else {
      assert id in DueIds(timers, e.now);
      assert AfterPass(timers, e.now, _ => e.now) == map[];
    }
  }

  lemma CallbackLevel(s: Sys, e: Event, level: nat, t: Terms)
    requires Enabled(s, e) && e.Callback? && ClosedOnce(s.conn) && !s.conn.status.closing && AtLeast(s, level, t)
    requires t.cfg.alive != 0 && (level <= 1 ==> e.now + t.cfg.alive <= t.bound)
    ensures AtLeast(Step(s, e), Next(level, e, t), t)
  {
    if s.due == [GeneralInactivity] {
      CheckLevel(s, e, level, t);
    } else {
      assert s.due == [AliveCheck] && Unanswered(s, t);
    }
  }

  lemma CheckCounts(c: Conn)
    ensures Checks(SendMessage(c, MakeAliveCheckRequest())) == Checks(c) + 1
  {
    OutgoingTypes(0, 0, None, []);
    OfTypesSnoc(c.log.outbox, MakeAliveCheckRequest(), {ALIVE_CHECK_REQUEST});
  }

  lemma CheckLevel(s: Sys, e: Event, level: nat, t: Terms)
    requires Enabled(s, e) && e.Callback? && AtLeast(s, level, t) && !s.conn.status.closing
    requires level <= 1 && Expired(s) && t.cfg.alive != 0 && e.now + t.cfg.alive <= t.bound
    ensures Checked(Step(s, e), t) && Step(s, e).conn.cfg == t.cfg
  {
    CheckCounts(s.conn);
    var asked := SendMessage(s.conn, MakeAliveCheckRequest());
    assert Step(s, e).conn == TransitionTo(asked, WaitAliveCheckResponse, e.now);
    assert Resting(Step(s, e).conn, WaitAliveCheckResponse, e.now + t.cfg.alive);
  }

  lemma ResponseLevel(s: Sys, e: Event, level: nat, t: Terms)
    requires Enabled(s, e) && e.Response? && ClosedOnce(s.conn) && Silent(s, e)
    requires !s.conn.status.closing && AtLeast(s, level, t)
    ensures AtLeast(Step(s, e), level, t)
  {
    ChecksGrow(s, e);
  }

  lemma OtherLevel(s: Sys, e: Event, level: nat, t: Terms)
    requires Enabled(s, e) && (e.LinkLost? || e.CloseRequest?) && ClosedOnce(s.conn) && Silent(s, e)
    requires !s.conn.status.closing && AtLeast(s, level, t)
    ensures AtLeast(Step(s, e), level, t)
  {
    var c' := Step(s, e).conn;
    assert forall x :: Resting(s.conn, WaitAliveCheckResponse, x) && !c'.status.closing ==>
      Resting(c', WaitAliveCheckResponse, x);
  }

  lemma LevelStep(s: Sys, e: Event, level: nat, t: Terms)
    requires Enabled(s, e) && ClosedOnce(s.conn) && Silent(s, e) && AtLeast(s, level, t) && level <= 4
    requires t.cfg.alive != 0 && (e.Callback? && level <= 1 ==> e.now + t.cfg.alive <= t.bound)
    ensures AtLeast(Step(s, e), Next(level, e, t), t)
  {
    if s.conn.status.closing {
      OverStays(s, e, t);
    } else {
      match e {
        case Received(_, _, _) => MessageLevel(s, e, level, t);
        case Collect(_, _) => CollectLevel(s, e, level, t);
        case Callback(_) => CallbackLevel(s, e, level, t);
        case Response(_, _, _) => ResponseLevel(s, e, level, t);
        case _ => OtherLevel(s, e, level, t);
      }
    }
  }

  lemma Lower(s: Sys, level: nat, lower: nat, t: Terms)
    requires AtLeast(s, level, t) && lower <= level
    ensures AtLeast(s, lower, t)
  {
  }

  // ---------------------------------------------------------------- along a run

  /** The positions of the two collections and the two callbacks. */
  datatype Marks = Marks(collect: nat, callback: nat, collect2: nat, callback2: nat) {
    /** What must have been reached before the k-th event. */
    function Level(k: nat): nat {
      if k <= collect then 0 else if k <= callback then 1 else if k <= collect2 then 2 else if k <= callback2 then 3
      else 4
    }
  }

  /** The events up to n that lie behind their mark are what the mark says. */
  ghost predicate Marked(events: seq<Event>, i: nat, n: nat, m: Marks, t: Terms) {
    && i <= m.collect < m.callback < m.collect2 < m.callback2
    && n <= |events|
    && (m.collect < n ==> events[m.collect].Collect? && events[m.collect].now >= t.deadline)
    && (m.callback < n ==> events[m.callback].Callback? && t.bound == events[m.callback].now + t.cfg.alive)
    && (m.collect2 < n ==> events[m.collect2].Collect? && events[m.collect2].now >= t.bound)
    && (m.callback2 < n ==> events[m.callback2].Callback?)
  }

  ghost predicate SilentStretch(states: seq<Sys>, events: seq<Event>, i: nat, n: nat) {
    && i <= n <= |events| < |states|
    && forall k :: i <= k < n ==> Silent(states[k], events[k])
  }

  lemma {:induction false} ReachedLater(events: seq<Event>, m: nat, k: nat)
    requires Clocked(events) && m < k <= |events| && Time(events[m]).Some?
    ensures Reached(Clock(events, k), Time(events[m]).value)
  {
    if m < k - 1 {
      ReachedLater(events, m, k - 1);
      assert NotBefore(Clock(events, k - 1), events[k - 1]);
    }
  }

  lemma EarlierCallback(events: seq<Event>, k: nat, i: nat, n: nat, m: Marks, t: Terms)
    requires Clocked(events) && Marked(events, i, n, m, t) && m.callback < n
    requires k <= m.callback && events[k].Callback?
    ensures events[k].now + t.cfg.alive <= t.bound
  {
    if k < m.callback {
      ReachedLater(events, k, m.callback);
      assert NotBefore(Clock(events, m.callback), events[m.callback]);
    }
  }

  ghost predicate LevelReached(states: seq<Sys>, m: Marks, t: Terms, k: nat) {
    k < |states| && AtLeast(states[k], m.Level(k), t)
  }

  lemma LevelRunStep(states: seq<Sys>, events: seq<Event>, i: nat, n: nat, m: Marks, t: Terms, k: nat)
    requires IsRun(states, events) && Clocked(events) && SilentStretch(states, events, i, n)
    requires Marked(events, i, n, m, t) && m.callback < n && t.cfg.alive != 0
    requires i <= k < n && LevelReached(states, m, t, k)
    ensures LevelReached(states, m, t, k + 1)
  {
    CloseHappensOnce(states, events, k, k);
    if events[k].Callback? && k <= m.callback {
      EarlierCallback(events, k, i, n, m, t);
    }
    MarkedLevel(events, k, i, n, m, t);
    LevelStepTo(states[k], events[k], m.Level(k), m.Level(k + 1), t);
  }

  lemma MarkedLevel(events: seq<Event>, k: nat, i: nat, n: nat, m: Marks, t: Terms)
    requires Marked(events, i, n, m, t) && k < n
    ensures m.Level(k + 1) <= Next(m.Level(k), events[k], t)
    ensures m.Level(k) <= 4 && (m.Level(k) <= 1 ==> k <= m.callback)
  {
  }

  lemma LevelStepTo(s: Sys, e: Event, level: nat, level': nat, t: Terms)
    requires Enabled(s, e) && ClosedOnce(s.conn) && Silent(s, e) && AtLeast(s, level, t) && level <= 4
    requires t.cfg.alive != 0 && (e.Callback? && level <= 1 ==> e.now + t.cfg.alive <= t.bound)
    requires level' <= Next(level, e, t)
    ensures AtLeast(Step(s, e), level', t)
  {
    LevelStep(s, e, level, t);
    Lower(Step(s, e), Next(level, e, t), level', t);
  }

  lemma {:induction false} LevelInduction(states: seq<Sys>, m: Marks, t: Terms, i: nat, n: nat)
    requires i <= n && LevelReached(states, m, t, i)
    requires forall k :: i <= k < n && LevelReached(states, m, t, k) ==> LevelReached(states, m, t, k + 1)
    ensures LevelReached(states, m, t, n)
    decreases n
  {
    if i < n {
      LevelInduction(states, m, t, i, n - 1);
    }
  }

  lemma LevelRun(states: seq<Sys>, events: seq<Event>, i: nat, n: nat, m: Marks, t: Terms)
    requires IsRun(states, events) && Clocked(events) && SilentStretch(states, events, i, n)
    requires Marked(events, i, n, m, t) && m.callback < n && t.cfg.alive != 0
    requires Idle(states[i], t) && t.cfg == states[i].conn.cfg && t.before == Checks(states[i].conn)
    ensures AtLeast(states[n], m.Level(n), t)
  {
    forall k | i <= k < n && LevelReached(states, m, t, k)
      ensures LevelReached(states, m, t, k + 1)
    {
      LevelRunStep(states, events, i, n, m, t, k);
    }
    LevelInduction(states, m, t, i, n);
  }

  /** In a silent stretch in which a collection at or after the deadline is followed by a callback, an alive check
      request has been put out by then, and the connection awaits the answer, unless it was closed otherwise. */
  lemma SilenceIsNoticed(
      states: seq<Sys>, events: seq<Event>, i: nat, n: nat, deadline: int, collect: nat, callback: nat)
    requires IsRun(states, events) && Clocked(events) && SilentStretch(states, events, i, n)
    requires Idling(states[i].conn, deadline) && states[i].due == [] && states[i].conn.cfg.alive != 0
    requires i <= collect < callback < n && events[callback].Callback?
    requires events[collect].Collect? && events[collect].now >= deadline
    ensures var c := states[n].conn;
      && (c.status.closing || c.phase.state == WaitAliveCheckResponse)
      && (!c.status.closing || c.status.reason == AliveCheckTimeout ==> Checks(c) > Checks(states[i].conn))
  {
    var c := states[i].conn;
    LevelRun(states, events, i, n, Marks(collect, callback, n + 1, n + 2),
             Terms(deadline, events[callback].now + c.cfg.alive, c.cfg, Checks(c)));
  }

  /** If then another collection, an alive-check time after that callback, is followed by a callback, the connection is
      closed, if at most one retry is configured. With more it is never closed for silence: unless something else closes
      it, it stays open without any timer. */
  lemma SilenceEndsTheConnection(
      states: seq<Sys>, events: seq<Event>, i: nat, n: nat, deadline: int, m: Marks)
    requires IsRun(states, events) && Clocked(events) && SilentStretch(states, events, i, n)
    requires Idling(states[i].conn, deadline) && states[i].due == [] && states[i].conn.cfg.alive != 0
    requires i <= m.collect < m.callback < m.collect2 < m.callback2 < n
    requires events[m.collect].Collect? && events[m.collect].now >= deadline && events[m.callback].Callback?
    requires events[m.collect2].Collect? && events[m.callback2].Callback?
    requires events[m.collect2].now >= events[m.callback].now + states[i].conn.cfg.alive
    ensures var c := states[n].conn;
      && (c.cfg.retryCount <= 1 ==> c.status.closing && !c.status.open)
      && (c.status.reason == AliveCheckTimeout ==> c.cfg.retryCount <= 1 && Checks(c) > Checks(states[i].conn))
      && (!c.status.closing ==> c.phase.state == WaitAliveCheckResponse && c.phase.table.timers == map[])
  {
    var c := states[i].conn;
    LevelRun(states, events, i, n, m, Terms(deadline, events[m.callback].now + c.cfg.alive, c.cfg, Checks(c)));
    CloseHappensOnce(states, events, n, n);
  }

  // ---------------------------------------------------------------- such a run

  lemma SilentAtTimes(states: seq<Sys>, events: seq<Event>, t: int, u: int)
    requires |events| == 5 && |states| == 6 && 0 <= t <= u
    requires Time(events[0]) == Some(0)
    requires events[1].Collect? && events[1].now == t && events[2] == Callback(t)
    requires events[3].Collect? && events[3].now == u && events[4] == Callback(u)
    ensures Clocked(events) && SilentStretch(states, events, 1, 5)
  {
    assert Clock(events, 1) == Some(0) && Clock(events, 2) == Some(t) && Clock(events, 3) == Some(t);
    assert Clock(events, 4) == Some(u);
  }

  lemma UntilChecked() returns (states: seq<Sys>, events: seq<Event>)
    ensures IsRun(states, events) && OnlyConfigures(events, DEFAULT_CONFIG)
    ensures events == [Received(ActivationRequest(), NO_MATTER, 0),
                       Collect(DEFAULT_CONFIG.general, [GeneralInactivity]), Callback(DEFAULT_CONFIG.general)]
    ensures Idling(states[1].conn, DEFAULT_CONFIG.general) && states[1].due == []
    ensures states[1].conn.cfg == DEFAULT_CONFIG
    ensures var s := states[3];
      && s.due == [] && s.conn.phase.table.timers.Keys == {AliveCheck}
      && !s.conn.phase.table.timers[AliveCheck].periodic
      && Due(s.conn.phase.table.timers[AliveCheck], DEFAULT_CONFIG.general + DEFAULT_CONFIG.alive)
  {
    var t := DEFAULT_CONFIG.general;
    states, events := UntilExpired();
    ChecksAlive(states[2], t);
    ActivatedIdles(states, events);
    states, events := Extend(states, events, DEFAULT_CONFIG, Callback(t));
  }

  lemma ActivatedIdles(states: seq<Sys>, events: seq<Event>)
    requires IsRun(states, events) && events != [] && events[0] == Received(ActivationRequest(), NO_MATTER, 0)
    ensures Idling(states[1].conn, DEFAULT_CONFIG.general) && states[1].due == []
    ensures states[1].conn.cfg == DEFAULT_CONFIG
  {
    var site, writesLeft, now :| states[0] == Start(site, writesLeft, now);
    StartIsClosedOnce(site, writesLeft, now);
    TesterFields();
    BackToRoutingActivated(states[0].conn, ActivationRequest(), [], Handled, 0);
    assert states[1] == Step(states[0], events[0]);
  }

  /** A client that activates its route and is never heard of again, with the default settings. */
  lemma NeverHeardOfAgain() returns (states: seq<Sys>, events: seq<Event>)
    ensures IsRun(states, events) && Clocked(events) && |events| == 5 && SilentStretch(states, events, 1, 5)
    ensures Idling(states[1].conn, 300000) && Time(events[4]) == Some(300500)
    ensures !states[5].conn.status.open && states[5].conn.status.closing
  {
    var t, u := DEFAULT_CONFIG.general, DEFAULT_CONFIG.general + DEFAULT_CONFIG.alive;
    states, events := UntilChecked();
    CollectsAliveCheck(states[3], u);
    states, events := Extend(states, events, DEFAULT_CONFIG, Collect(u, [AliveCheck]));
    states, events := Extend(states, events, DEFAULT_CONFIG, Callback(u));
    SilentAtTimes(states, events, t, u);
    SettingsStay(states, events, 5);
    SilenceEndsTheConnection(states, events, 1, 5, t, Marks(1, 2, 3, 4));
  }

  lemma {:induction false} SettingsStay(states: seq<Sys>, events: seq<Event>, k: nat)
    requires IsRun(states, events) && OnlyConfigures(events, DEFAULT_CONFIG) && k < |states|
    ensures states[k].conn.cfg == DEFAULT_CONFIG
  {
    if k == 0 {
      var site, writesLeft, now :| states[0] == Start(site, writesLeft, now);
      StartIsClosedOnce(site, writesLeft, now);
    } else {
      SettingsStay(states, events, k - 1);
      StepSettings(states[k - 1], events[k - 1]);
    }
  }

  lemma StepSettings(s: Sys, e: Event)
    requires Enabled(s, e)
    ensures Step(s, e).conn.cfg == if e.Configure? then e.cfg else s.conn.cfg
  {
  }
}
