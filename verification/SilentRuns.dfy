/** A silent client over whole runs: the passes of Silence with messages, late responses, lost links, close requests and
    changes of the settings in between (src/DoIPDefaultConnection.cpp, inc/TimerManager.h). */
module SilentRuns {
  import opened Options
  import opened Bytes
  import opened Message
  import opened Timers
  import opened ConnectionSpec
  import opened Runs
  import opened RoutingGate
  import opened StateTimers
  import opened Silence

  // ---------------------------------------------------------------- the clock

  function Time(e: Event): Option<int> {
    match e
    case Received(_, _, now) => Some(now)
    case Collect(now, _) => Some(now)
    case Callback(now) => Some(now)
    case Response(_, _, now) => Some(now)
    case CloseRequest(_, now) => Some(now)
    case _ => None
  }

  /** The latest time read before the k-th event. */
  function Clock(events: seq<Event>, k: nat): Option<int>
    requires k <= |events|
  {
    if k == 0 then None
    else if Time(events[k - 1]).Some? then Time(events[k - 1])
    else Clock(events, k - 1)
  }

  predicate NotBefore(clock: Option<int>, e: Event) {
    clock.Some? && Time(e).Some? ==> clock.value <= Time(e).value
  }

  ghost predicate Clocked(events: seq<Event>) {
    forall k :: 0 <= k < |events| ==> NotBefore(Clock(events, k), events[k])
  }

  predicate Reached(clock: Option<int>, deadline: int) {
    clock.Some? && clock.value >= deadline
  }

  // ---------------------------------------------------------------- what the client does

  /** A message that moves the deadline, answers an alive check, or ends one by a late response. */
  predicate Stirs(s: Sys, e: Event) {
    match e
    case Received(msg, _, _) =>
      || (s.conn.phase.state == RoutingActivated
          && (msg.PayloadType() == ALIVE_CHECK_RESPONSE || FromClient(msg, s.conn.client)))
      || AnswersAliveCheck(s.conn, msg)
    case Response(_, _, _) => s.conn.phase.state == WaitAliveCheckResponse
    case _ => false
  }

  /** Nothing stirs from i to j, and every new setting leaves at least `alive` for the answer to an alive check. */
  ghost predicate SilentFrom(states: seq<Sys>, events: seq<Event>, alive: int, i: nat, j: nat) {
    && j <= |events| && j <= |states|
    && forall k :: i <= k < j ==>
      !Stirs(states[k], events[k]) && (events[k].Configure? ==> events[k].cfg.alive >= alive)
  }

  /** The number of alive check requests among the messages. */
  function AliveChecks(ms: seq<DoIPMessage>): nat {
    |OfTypes(ms, {ALIVE_CHECK_REQUEST})|
  }

  lemma SendCounts(c: Conn, msg: DoIPMessage)
    ensures AliveChecks(SendMessage(c, msg).link.sent) <=
      AliveChecks(c.link.sent) + (if msg.PayloadType() == ALIVE_CHECK_REQUEST then 1 else 0)
  {
    OfTypesSnoc(c.link.sent, msg, {ALIVE_CHECK_REQUEST});
  }

  lemma AckCounts(c: Conn, source: u16, ack: DiagnosticAck)
    ensures AliveChecks(SendDiagnosticResponse(c, source, ack).link.sent) <= AliveChecks(c.link.sent)
  {
    OutgoingTypes(source, c.site.server, ack, []);
    SendCounts(c, MakeDiagnosticResponse(source, c.site.server, ack));
  }

  // ---------------------------------------------------------------- where a silent client's connection stands

  /** Idle with the deadline ahead; expired, with the callback to come; checked, with the second deadline ahead; that
      one expired as well, its callback to come or past; or closing. `sent` bounds the alive check requests sent. */
  ghost predicate Stands(s: Sys, clock: Option<int>, deadline: int, alive: int, sent: nat) {
    var p := s.conn.phase;
    var checks := AliveChecks(s.conn.link.sent);
    && s.conn.cfg.alive >= alive
    && checks <= sent + 1
    && (checks > sent ==> Reached(clock, deadline))
    && if s.conn.status.closing then
         s.conn.status.reason == AliveCheckTimeout ==> Reached(clock, deadline + alive)
       else if p.state == RoutingActivated then
         && checks <= sent
         && (|| (Idling(s.conn, deadline) && Harmless(s.due))
             || (p.table.timers == map[] && s.due == [GeneralInactivity] && Reached(clock, deadline)))
       else
         && p.state == WaitAliveCheckResponse
         && Reached(clock, deadline)
         && (|| (exists x :: x >= deadline + alive && Resting(s.conn, WaitAliveCheckResponse, x) && s.due == [])
             || (p.table.timers == map[] && (s.due == [AliveCheck] || s.due == [])
                 && Reached(clock, deadline + alive)))
  }

  /** Outstanding callbacks that neither check nor punish silence. */
  ghost predicate Harmless(due: seq<TimerId>) {
    forall id :: id in due ==> id == InitialInactivity || id == UserDefined
  }

  function Advance(clock: Option<int>, e: Event): Option<int> {
    if Time(e).Some? then Time(e) else clock
  }

  lemma MessageStands(s: Sys, e: Event, clock: Option<int>, deadline: int, alive: int, sent: nat)
    requires Enabled(s, e) && e.Received? && ClosedOnce(s.conn) && NotBefore(clock, e) && !Stirs(s, e)
    requires Stands(s, clock, deadline, alive, sent)
    ensures Stands(Step(s, e), Advance(clock, e), deadline, alive, sent)
  {
    AckCounts(s.conn, 0, Some(TransportProtocolError));
    if e.msg.SourceAddress().Some? {
      AckCounts(s.conn, e.msg.SourceAddress().value, Some(InvalidSourceAddress));
    }
    if !s.conn.status.closing && s.conn.phase.state == WaitAliveCheckResponse {
      NackStands(s, e, clock, deadline, alive, sent);
    }
  }

  lemma NackStands(s: Sys, e: Event, clock: Option<int>, deadline: int, alive: int, sent: nat)
    requires Enabled(s, e) && e.Received? && NotBefore(clock, e) && !Stirs(s, e)
    requires !s.conn.status.closing && s.conn.phase.state == WaitAliveCheckResponse
    requires Stands(s, clock, deadline, alive, sent)
    ensures Stands(Step(s, e), Advance(clock, e), deadline, alive, sent)
  {
    AckCounts(s.conn, 0, Some(TransportProtocolError));
    var nacked := SendDiagnosticResponse(s.conn, 0, Some(TransportProtocolError));
    assert Step(s, e) == s.(conn := nacked);
    assert forall x :: Resting(s.conn, WaitAliveCheckResponse, x) ==> Resting(nacked, WaitAliveCheckResponse, x);
  }

  lemma CollectStands(s: Sys, e: Event, clock: Option<int>, deadline: int, alive: int, sent: nat)
    requires Enabled(s, e) && e.Collect? && NotBefore(clock, e) && !s.conn.status.closing
    requires Stands(s, clock, deadline, alive, sent)
    ensures Stands(Step(s, e), Advance(clock, e), deadline, alive, sent)
  {
    var timers := s.conn.phase.table.timers;
    var id := TimerOf(s.conn.phase);
    EnumerationOfAtMostOne(e.order, DueIds(timers, e.now), id);
    if e.order == [] {
      assert id in timers ==> id !in DueIds(timers, e.now);
      assert AfterPass(timers, e.now, _ => e.now) == timers;
    } else {
      assert id in DueIds(timers, e.now);
      assert AfterPass(timers, e.now, _ => e.now) == map[];
    }
  }

  lemma CallbackStands(s: Sys, e: Event, clock: Option<int>, deadline: int, alive: int, sent: nat)
    requires Enabled(s, e) && e.Callback? && ClosedOnce(s.conn) && NotBefore(clock, e) && !s.conn.status.closing
    requires Stands(s, clock, deadline, alive, sent) && alive > 0
    ensures Stands(Step(s, e), Advance(clock, e), deadline, alive, sent)
  {
    assert s.due[0] in s.due && forall id :: id in s.due[1..] ==> id in s.due;
    if s.due == [GeneralInactivity] {
      CheckStands(s, e, clock, deadline, alive, sent);
    }
  }

  lemma CheckStands(s: Sys, e: Event, clock: Option<int>, deadline: int, alive: int, sent: nat)
    requires Enabled(s, e) && e.Callback? && NotBefore(clock, e) && !s.conn.status.closing
    requires Stands(s, clock, deadline, alive, sent) && alive > 0 && s.due == [GeneralInactivity]
    requires s.conn.phase.state == RoutingActivated && Reached(clock, deadline)
    ensures Stands(Step(s, e), Advance(clock, e), deadline, alive, sent)
  {
    OutgoingTypes(0, 0, None, []);
    SendCounts(s.conn, MakeAliveCheckRequest());
    assert Resting(Step(s, e).conn, WaitAliveCheckResponse, e.now + s.conn.cfg.alive);
  }

  lemma ResponseStands(s: Sys, e: Event, clock: Option<int>, deadline: int, alive: int, sent: nat)
    requires Enabled(s, e) && e.Response? && NotBefore(clock, e) && !Stirs(s, e) && !s.conn.status.closing
    requires Stands(s, clock, deadline, alive, sent)
    ensures Stands(Step(s, e), Advance(clock, e), deadline, alive, sent)
  {
    var c := s.conn;
    var answer :=
      if e.result == Handled then MakeDiagnosticMessage(c.site.server, c.client, e.response)
      else MakeDiagnosticResponse(c.site.server, c.client, Some(TargetUnreachable));
    OutgoingTypes(c.site.server, c.client, Some(TargetUnreachable), e.response);
    SendCounts(c, answer);
    assert Step(s, e).conn == SendMessage(c, answer);
  }

  lemma OtherStands(s: Sys, e: Event, clock: Option<int>, deadline: int, alive: int, sent: nat)
    requires e.LinkLost? || e.Configure? || e.CloseRequest?
    requires e.CloseRequest? ==> e.reason != AliveCheckTimeout
    requires NotBefore(clock, e) && ClosedOnce(s.conn)
    requires e.Configure? ==> e.cfg.alive >= alive
    requires Stands(s, clock, deadline, alive, sent)
    ensures Stands(Step(s, e), Advance(clock, e), deadline, alive, sent)
  {
    var c' := Step(s, e).conn;
    assert forall x :: Resting(s.conn, WaitAliveCheckResponse, x) && !c'.status.closing ==>
      Resting(c', WaitAliveCheckResponse, x);
  }

  /** A closing connection sends nothing and keeps its reason. */
  lemma ClosingStands(s: Sys, e: Event, clock: Option<int>, deadline: int, alive: int, sent: nat)
    requires Enabled(s, e) && ClosedOnce(s.conn) && s.conn.status.closing && NotBefore(clock, e)
    requires e.Configure? ==> e.cfg.alive >= alive
    requires Stands(s, clock, deadline, alive, sent)
    ensures Stands(Step(s, e), Advance(clock, e), deadline, alive, sent)
  {
    StepEvolves(s, e);
    assert e.Configure? || Step(s, e).conn.cfg == s.conn.cfg;
  }

  lemma StepStands(s: Sys, e: Event, clock: Option<int>, deadline: int, alive: int, sent: nat)
    requires Enabled(s, e) && ClosedOnce(s.conn) && NotBefore(clock, e) && !Stirs(s, e) && alive > 0
    requires e.CloseRequest? ==> e.reason != AliveCheckTimeout
    requires e.Configure? ==> e.cfg.alive >= alive
    requires Stands(s, clock, deadline, alive, sent)
    ensures Stands(Step(s, e), Advance(clock, e), deadline, alive, sent)
  {
    if s.conn.status.closing {
      ClosingStands(s, e, clock, deadline, alive, sent);
    } else {
      match e {
        case Received(_, _, _) => MessageStands(s, e, clock, deadline, alive, sent);
        case Collect(_, _) => CollectStands(s, e, clock, deadline, alive, sent);
        case Callback(_) => CallbackStands(s, e, clock, deadline, alive, sent);
        case Response(_, _, _) => ResponseStands(s, e, clock, deadline, alive, sent);
        case _ => OtherStands(s, e, clock, deadline, alive, sent);
      }
    }
  }

  /** Only the timer closes with AliveCheckTimeout. */
  ghost predicate HonestReasons(events: seq<Event>) {
    forall k :: 0 <= k < |events| && events[k].CloseRequest? ==> events[k].reason != AliveCheckTimeout
  }

  lemma StandsRunStep(states: seq<Sys>, events: seq<Event>, k: nat, deadline: int, alive: int, sent: nat)
    requires IsRun(states, events) && Clocked(events) && HonestReasons(events) && k < |events|
    requires !Stirs(states[k], events[k]) && (events[k].Configure? ==> events[k].cfg.alive >= alive) && alive > 0
    requires Stands(states[k], Clock(events, k), deadline, alive, sent)
    ensures Stands(states[k + 1], Clock(events, k + 1), deadline, alive, sent)
  {
    CloseHappensOnce(states, events, k, k);
    StepStands(states[k], events[k], Clock(events, k), deadline, alive, sent);
    assert Clock(events, k + 1) == Advance(Clock(events, k), events[k]);
  }

  ghost predicate StandsAt(
      states: seq<Sys>, events: seq<Event>, k: nat, deadline: int, alive: int, sent: nat)
  {
    k <= |events| && k < |states| && Stands(states[k], Clock(events, k), deadline, alive, sent)
  }

  lemma {:induction false} StandsInduction(
      states: seq<Sys>, events: seq<Event>, i: nat, j: nat, deadline: int, alive: int, sent: nat)
    requires i <= j && StandsAt(states, events, i, deadline, alive, sent)
    requires forall k :: i <= k < j && StandsAt(states, events, k, deadline, alive, sent) ==>
      StandsAt(states, events, k + 1, deadline, alive, sent)
    ensures StandsAt(states, events, j, deadline, alive, sent)
    decreases j
  {
    if i < j {
      StandsInduction(states, events, i, j - 1, deadline, alive, sent);
    }
  }

  lemma StandsRun(states: seq<Sys>, events: seq<Event>, i: nat, j: nat, deadline: int, alive: int)
    requires IsRun(states, events) && Clocked(events) && HonestReasons(events) && i <= j < |states|
    requires Idling(states[i].conn, deadline) && Harmless(states[i].due)
    requires 0 < alive <= states[i].conn.cfg.alive && SilentFrom(states, events, alive, i, j)
    ensures StandsAt(states, events, j, deadline, alive, AliveChecks(states[i].conn.link.sent))
  {
    var sent := AliveChecks(states[i].conn.link.sent);
    forall k | i <= k < j && StandsAt(states, events, k, deadline, alive, sent)
      ensures StandsAt(states, events, k + 1, deadline, alive, sent)
    {
      StandsRunStep(states, events, k, deadline, alive, sent);
    }
    StandsInduction(states, events, i, j, deadline, alive, sent);
  }

  /** Over every run with a clock that never goes back: from a moment at which the general inactivity timer is armed for
      `deadline` and no callback about silence is outstanding, and as long as nothing stirs, whatever is refused
      meanwhile, the client gets no alive check request before the deadline, at most one after it, and is not
      disconnected for silence before another alive-check time has passed. */
  lemma NeverTooEarly(states: seq<Sys>, events: seq<Event>, i: nat, j: nat, deadline: int, alive: int)
    requires IsRun(states, events) && Clocked(events) && HonestReasons(events) && i <= j < |states|
    requires Idling(states[i].conn, deadline) && Harmless(states[i].due)
    requires 0 < alive <= states[i].conn.cfg.alive && SilentFrom(states, events, alive, i, j)
    ensures var checks := AliveChecks(states[j].conn.link.sent) - AliveChecks(states[i].conn.link.sent);
      && checks <= 1
      && (checks == 1 ==> Reached(Clock(events, j), deadline))
    ensures states[j].conn.status.reason == AliveCheckTimeout ==> Reached(Clock(events, j), deadline + alive)
  {
    StandsRun(states, events, i, j, deadline, alive);
    CloseHappensOnce(states, events, j, j);
  }

  /** The last stirring message at time t: an accepted message or an alive check response that leaves the route active
      makes the deadline t plus the general inactivity time the timer was armed with. */
  lemma NeverTooEarlyAfterMessage(states: seq<Sys>, events: seq<Event>, i: nat, j: nat, deadline: int, alive: int)
    requires IsRun(states, events) && Clocked(events) && HonestReasons(events) && i < j < |states|
    requires Idling(states[i].conn, deadline) && Harmless(states[i].due)
    requires events[i].Received? && Stirs(states[i], events[i]) && states[i + 1].conn.phase.state == RoutingActivated
    requires 0 < alive <= states[i].conn.cfg.alive && SilentFrom(states, events, alive, i + 1, j)
    ensures var t := events[i].now;
      var general := states[i].conn.phase.armedBy.general;
      && AliveChecks(states[j].conn.link.sent) <= AliveChecks(states[i + 1].conn.link.sent) + 1
      && (AliveChecks(states[j].conn.link.sent) > AliveChecks(states[i + 1].conn.link.sent) ==>
          Reached(Clock(events, j), t + general))
      && (states[j].conn.status.reason == AliveCheckTimeout ==> Reached(Clock(events, j), t + general + alive))
  {
    var c, e := states[i].conn, events[i];
    WhatMovesTheDeadline(c, deadline, e.msg, e.app, e.now);
    FromClientHasSource(e.msg, c.client);
    assert states[i + 1] == Step(states[i], e);
    assert HandleMessage(c, e.msg, e.app, e.now) == Some(HandleRoutingActivated(c, e.msg, e.app, e.now));
    MessageKeepsSettings(c, e.msg, e.app, e.now);
    NeverTooEarly(states, events, i + 1, j, e.now + c.phase.armedBy.general, alive);
  }

  lemma FromClientHasSource(msg: DoIPMessage, client: u16)
    ensures FromClient(msg, client) ==> msg.SourceAddress().Some?
  {
  }

  lemma MessageKeepsSettings(c: Conn, msg: DoIPMessage, app: AppReply, now: int)
    ensures HandleRoutingActivated(c, msg, app, now).cfg == c.cfg
  {
  }
}
