/** When can a client be challenged too early? When a message comes in while a callback about silence is outstanding:
    its timer is collected, so restarting the timer does not call it back (src/DoIPDefaultConnection.cpp). */
module OutstandingExpiry {
  import opened Options
  import opened Message
  import opened ConnectionSpec
  import opened Runs
  import opened StateTimers
  import opened Silence
  import opened SilentRuns
  import opened NullHandler
  import opened Tester
  import DownstreamWait

  /** The connection has begun to check whether the client is there, or has given it up. */
  ghost predicate Challenged(c: Conn) {
    (!c.status.closing && c.phase.state == WaitAliveCheckResponse) || c.status.reason == AliveCheckTimeout
  }

  /** Some continuation in which nothing stirs challenges the client before the deadline. */
  ghost predicate CanBeEarly(states: seq<Sys>, events: seq<Event>, deadline: int, alive: int) {
    exists states': seq<Sys>, events': seq<Event> :: IsEarly(states, events, states', events', deadline, alive)
  }

  ghost predicate IsEarly(
      states: seq<Sys>, events: seq<Event>, states': seq<Sys>, events': seq<Event>, deadline: int, alive: int)
  {
    && states <= states' && events <= events'
    && IsRun(states', events') && Clocked(events') && HonestReasons(events')
    && SilentFrom(states', events', alive, |events|, |events'|)
    && Challenged(states'[|events'|].conn)
    && !Reached(Clock(events', |events'|), deadline)
  }

  /** The last event is a message of the client that leaves, or puts, the route in order. */
  ghost predicate HeardFrom(states: seq<Sys>, events: seq<Event>) {
    && IsRun(states, events) && Clocked(events) && HonestReasons(events) && GoodSettings(events)
    && events != [] && events[|events| - 1].Received?
    && Stirs(states[|events| - 1], events[|events| - 1])
    && states[|events|].conn.phase.state == RoutingActivated && !states[|events|].conn.status.closing
  }

  /** That message plus the general inactivity time its timer was armed with. */
  function Deadline(states: seq<Sys>, events: seq<Event>): int
    requires events != [] && |states| == |events| + 1 && events[|events| - 1].Received?
  {
    events[|events| - 1].now + states[|events|].conn.phase.armedBy.general
  }

  predicate AboutSilence(due: seq<TimerId>) {
    GeneralInactivity in due || AliveCheck in due
  }

  /** An expiry that was not collected is still in the table, and the message moved it. */
  lemma MovedInTime(s: Sys, msg: DoIPMessage, app: AppReply, now: int)
    requires Agreement(s) && Live(s.conn) && !s.conn.status.closing && Harmless(s.due)
    requires Stirs(s, Received(msg, app, now)) && Enabled(s, Received(msg, app, now))
    requires var c := Step(s, Received(msg, app, now)).conn; c.phase.state == RoutingActivated && !c.status.closing
    ensures var c := Step(s, Received(msg, app, now)).conn; Idling(c, now + c.phase.armedBy.general)
  {
    if s.conn.phase.state == RoutingActivated {
      assert GeneralInactivity in [GeneralInactivity] && GeneralInactivity !in s.due;
      assert TimerOf(s.conn.phase) in s.conn.phase.table.timers;
      assert Idling(s.conn, s.conn.phase.table.timers[GeneralInactivity].expiry);
      WhatMovesTheDeadline(s.conn, s.conn.phase.table.timers[GeneralInactivity].expiry, msg, app, now);
      KeepsArmedBy(s.conn, msg, app, now);
    } else {
      BackToRoutingActivated(s.conn, msg, [], Handled, now);
    }
  }

  lemma KeepsArmedBy(c: Conn, msg: DoIPMessage, app: AppReply, now: int)
    requires c.phase.state == RoutingActivated
    ensures var c' := HandleRoutingActivated(c, msg, app, now);
      c'.phase.state == RoutingActivated ==> c'.phase.armedBy == c.phase.armedBy
  {
  }

  lemma MessageKeepsDue(s: Sys, e: Event)
    requires Enabled(s, e) && e.Received?
    ensures Step(s, e).due == s.due
  {
  }

  lemma NotEarly(states: seq<Sys>, events: seq<Event>, alive: int, states': seq<Sys>, events': seq<Event>)
    requires HeardFrom(states, events) && 0 < alive <= states[|events|].conn.cfg.alive
    requires !AboutSilence(states[|events|].due)
    ensures !IsEarly(states, events, states', events', Deadline(states, events), alive)
  {
    var n := |events|;
    var s, e := states[n - 1], events[n - 1];
    AgreementRun(states, events, n - 1);
    CloseHappensOnce(states, events, n - 1, n);
    AgreementRun(states, events, n);
    HarmlessDue(states, events);
    MessageKeepsDue(s, e);
    MovedInTime(s, e.msg, e.app, e.now);
    if IsEarly(states, events, states', events', Deadline(states, events), alive) {
      assert states'[n] == states[n];
      StandsRun(states', events', n, |events'|, Deadline(states, events), alive);
      CloseHappensOnce(states', events', |events'|, |events'|);
    }
  }

  /** The DownstreamResponse timer is never collected, so what is not about silence does no harm. */
  lemma HarmlessDue(states: seq<Sys>, events: seq<Event>)
    requires IsRun(states, events) && !AboutSilence(states[|events|].due)
    ensures Harmless(states[|events|].due)
  {
    DownstreamWait.DownstreamTimerIsNeverArmed(states, events, |events|);
  }

  lemma {:induction false} ClockOfPrefix(events: seq<Event>, e: Event, k: nat)
    requires k <= |events|
    ensures Clock(events + [e], k) == Clock(events, k)
  {
    if k > 0 {
      ClockOfPrefix(events, e, k - 1);
    }
  }

  lemma ClockedSnoc(events: seq<Event>, e: Event)
    requires Clocked(events) && NotBefore(Clock(events, |events|), e)
    ensures Clocked(events + [e]) && Clock(events + [e], |events| + 1) == Advance(Clock(events, |events|), e)
  {
    var all := events + [e];
    forall k | 0 <= k < |all|
      ensures NotBefore(Clock(all, k), all[k])
    {
      NotBeforeSnoc(events, e, k);
    }
    ClockOfPrefix(events, e, |events|);
  }

  lemma NotBeforeSnoc(events: seq<Event>, e: Event, k: nat)
    requires k <= |events|
    requires NotBefore(Clock(events, k), if k < |events| then events[k] else e)
    ensures NotBefore(Clock(events + [e], k), (events + [e])[k])
  {
    ClockOfPrefix(events, e, k);
  }

  lemma CallbackChallenges(s: Sys, now: int)
    requires Agreement(s) && Live(s.conn) && AboutSilence(s.due)
    requires s.conn.phase.state == RoutingActivated && !s.conn.status.closing
    ensures Enabled(s, Callback(now)) && Challenged(Step(s, Callback(now)).conn)
  {
    assert s.due == [GeneralInactivity] || s.due == [AliveCheck];
  }

  lemma RunSnoc(states: seq<Sys>, events: seq<Event>, e: Event)
    requires IsRun(states, events) && Enabled(states[|events|], e)
    ensures IsRun(states + [Step(states[|events|], e)], events + [e])
  {
    assert (states + [Step(states[|events|], e)])[0] == states[0];
  }

  lemma Early(states: seq<Sys>, events: seq<Event>, alive: int)
    requires HeardFrom(states, events) && states[|events|].conn.phase.armedBy.general > 0
    requires AboutSilence(states[|events|].due)
    ensures CanBeEarly(states, events, Deadline(states, events), alive)
  {
    var n, t := |events|, events[|events| - 1].now;
    AgreementRun(states, events, n);
    CallbackChallenges(states[n], t);
    assert Clock(events, n) == Some(t);
    RunSnoc(states, events, Callback(t));
    ClockedSnoc(events, Callback(t));
    CallbackIsEarly(states, events, Step(states[n], Callback(t)), t, Deadline(states, events), alive);
  }

  lemma SilentOnce(states: seq<Sys>, events: seq<Event>, alive: int, n: nat)
    requires |events| == n + 1 <= |states| && events[n].Callback?
    ensures SilentFrom(states, events, alive, n, n + 1)
  {
  }

  lemma CallbackIsEarly(
      states: seq<Sys>, events: seq<Event>, s: Sys, t: int, deadline: int, alive: int)
    requires |states| == |events| + 1
    requires IsRun(states + [s], events + [Callback(t)]) && Clocked(events + [Callback(t)]) && HonestReasons(events)
    requires Clock(events + [Callback(t)], |events| + 1) == Some(t) && t < deadline && Challenged(s.conn)
    ensures CanBeEarly(states, events, deadline, alive)
  {
    var n, states', events' := |events|, states + [s], events + [Callback(t)];
    assert events'[n] == Callback(t) && states'[n + 1] == s;
    assert forall k :: 0 <= k < n ==> events'[k] == events[k];
    assert !Stirs(states'[n], events'[n]) && HonestReasons(events');
    SilentOnce(states', events', alive, n);
    assert IsEarly(states, events, states', events', deadline, alive);
  }

  /** A client that was just heard from can be challenged before its deadline exactly if a callback of the general
      inactivity timer or of the alive check is outstanding at that moment. */
  lemma EarlyExactlyIfOutstanding(states: seq<Sys>, events: seq<Event>, alive: int)
    requires HeardFrom(states, events) && states[|events|].conn.phase.armedBy.general > 0
    requires 0 < alive <= states[|events|].conn.cfg.alive
    ensures CanBeEarly(states, events, Deadline(states, events), alive) <==> AboutSilence(states[|events|].due)
  {
    if AboutSilence(states[|events|].due) {
      Early(states, events, alive);
    } else {
      forall states': seq<Sys>, events': seq<Event>
        ensures !IsEarly(states, events, states', events', Deadline(states, events), alive)
      {
        NotEarly(states, events, alive, states', events');
      }
    }
  }

  lemma UntilExpired() returns (states: seq<Sys>, events: seq<Event>)
    ensures IsRun(states, events) && OnlyConfigures(events, DEFAULT_CONFIG)
    ensures events ==
      [Received(ActivationRequest(), NO_MATTER, 0), Collect(DEFAULT_CONFIG.general, [GeneralInactivity])]
    ensures var s := states[2];
      && s.conn.phase.state == RoutingActivated && s.conn.client == CLIENT && !s.conn.site.hasDownstream
      && !s.conn.status.closing && s.conn.link.active && s.due == [GeneralInactivity]
      && s.conn.phase.armedBy == s.conn.cfg == DEFAULT_CONFIG && s.conn.phase.retry == 0
  {
    StartIsClosedOnce(Site(SERVER, false), 10, 0);
    states, events := [Opened()], [];
    ActivationEffect(states[0]);
    states, events := Extend(states, events, DEFAULT_CONFIG, Received(ActivationRequest(), NO_MATTER, 0));
    CollectsIdle(states[1], DEFAULT_CONFIG.general);
    states, events := Extend(states, events, DEFAULT_CONFIG, Collect(DEFAULT_CONFIG.general, [GeneralInactivity]));
  }

  /** Such a run: the idle client sends a request just after the timer worker has collected the idle timer, and is asked
      at once whether it is there. */
  lemma RequestAfterExpiry() returns (states: seq<Sys>, events: seq<Event>)
    ensures HeardFrom(states, events) && events[|events| - 1].msg == TesterPresent()
    ensures states[|events|].due == [GeneralInactivity]
    ensures CanBeEarly(states, events, Deadline(states, events), DEFAULT_CONFIG.alive)
  {
    var t := DEFAULT_CONFIG.general;
    states, events := UntilExpired();
    AnsweredAfterExpiry(states[2], t);
    states, events := Extend(states, events, DEFAULT_CONFIG, Received(TesterPresent(), NO_MATTER, t));
    OnTheClock(events, t);
    EarlyExactlyIfOutstanding(states, events, DEFAULT_CONFIG.alive);
  }

  lemma OnTheClock(events: seq<Event>, t: int)
    requires |events| == 3 && t >= 0
    requires Time(events[0]) == Some(0) && Time(events[1]) == Some(t) && Time(events[2]) == Some(t)
    ensures Clocked(events)
  {
    assert Clock(events, 0) == None && Clock(events, 1) == Some(0) && Clock(events, 2) == Some(t);
  }

  lemma AnsweredAfterExpiry(s: Sys, t: int)
    requires s.conn.phase.state == RoutingActivated && s.conn.client == CLIENT && !s.conn.site.hasDownstream
    requires !s.conn.status.closing && s.conn.link.active && s.due == [GeneralInactivity]
    ensures var e := Received(TesterPresent(), NO_MATTER, t);
      var s' := Step(s, e);
      && Stirs(s, e)
      && s'.conn.phase.state == RoutingActivated && !s'.conn.status.closing && s'.due == s.due
      && s'.conn.phase.armedBy == s.conn.phase.armedBy && s'.conn.cfg == s.conn.cfg
  {
    TesterFields();
    assert HandleMessage(s.conn, TesterPresent(), NO_MATTER, t) ==
      Some(AnswerDiagnostic(s.conn, TesterPresent(), NO_MATTER, t));
  }
}
