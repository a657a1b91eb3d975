/** What ends the wait for the downstream side: never a timer of its own (src/DoIPDefaultConnection.cpp). */
module DownstreamWait {
  import opened Options
  import opened Message
  import opened Timers
  import opened ConnectionSpec
  import opened Runs
  import opened StateTimers
  import opened NullHandler
  import opened Tester

  // ---------------------------------------------------------------- the timer that is never armed

  /** For any settings: the table holds at most the timer of the present state. */
  ghost predicate OnlyOwn(s: Sys) {
    OwnTimer(s.conn.phase) && DownstreamResponse !in s.due
  }

  lemma MoveIsOwn(c: Conn, target: ServerState, now: int)
    requires OwnTimer(c.phase)
    ensures OwnTimer(TransitionTo(c, target, now).phase)
  {
  }

  lemma AnswerIsOwn(c: Conn, msg: DoIPMessage, app: AppReply, now: int)
    requires OwnTimer(c.phase)
    ensures OwnTimer(AnswerDiagnostic(c, msg, app, now).phase)
  {
    var acked := RestartStateTimer(SendDiagnosticResponse(AskApplication(c, msg), c.client, app.verdict), now);
    assert OwnTimer(acked.phase);
    var handed := Forward(acked, msg);
    MoveIsOwn(acked, RoutingActivated, now);
    MoveIsOwn(handed, RoutingActivated, now);
    MoveIsOwn(handed, WaitDownstreamResponse, now);
    MoveIsOwn(SendDiagnosticResponse(handed, c.client, Some(TargetUnreachable)), RoutingActivated, now);
  }

  lemma MessageIsOwn(c: Conn, msg: DoIPMessage, app: AppReply, now: int)
    requires OwnTimer(c.phase) && HandleMessage(c, msg, app, now).Some?
    ensures OwnTimer(HandleMessage(c, msg, app, now).value.phase)
  {
    match c.phase.state {
      case RoutingActivated => AnswerIsOwn(c, msg, app, now);
      case _ =>
    }
  }

  lemma TimeoutIsOwn(c: Conn, id: TimerId, now: int)
    requires OwnTimer(c.phase)
    ensures OwnTimer(HandleTimeout(c, id, now).phase)
  {
  }

  lemma CollectIsOwn(s: Sys, now: int, order: seq<TimerId>)
    requires Enabled(s, Collect(now, order)) && OnlyOwn(s)
    ensures OnlyOwn(Step(s, Collect(now, order)))
  {
  }

  lemma StepIsOwn(s: Sys, e: Event)
    requires Enabled(s, e) && OnlyOwn(s)
    ensures OnlyOwn(Step(s, e))
  {
    match e {
      case Received(msg, app, now) =>
        if HandleMessage(s.conn, msg, app, now).Some? {
          MessageIsOwn(s.conn, msg, app, now);
        }
      case Collect(now, order) => CollectIsOwn(s, now, order);
      case Callback(now) => TimeoutIsOwn(s.conn, s.due[0], now);
      case Response(response, result, now) =>
        assert OwnTimer(ReceiveDownstreamResponse(s.conn, response, result, now).phase);
      case _ =>
    }
  }

  lemma OwnRunStep(states: seq<Sys>, events: seq<Event>, k: nat)
    requires IsRun(states, events) && k < |events| && OnlyOwn(states[k])
    ensures OnlyOwn(states[k + 1])
  {
    StepIsOwn(states[k], events[k]);
  }

  lemma StartIsOwn(states: seq<Sys>, events: seq<Event>)
    requires IsRun(states, events)
    ensures OnlyOwn(states[0])
  {
    var site, writesLeft, now :| states[0] == Start(site, writesLeft, now);
    StartIsClosedOnce(site, writesLeft, now);
  }

  ghost predicate OwnAt(states: seq<Sys>, k: nat) {
    k < |states| && OnlyOwn(states[k])
  }

  lemma {:induction false} OwnInduction(states: seq<Sys>, k: nat)
    requires OwnAt(states, 0)
    requires forall j: nat :: j < k && OwnAt(states, j) ==> OwnAt(states, j + 1)
    ensures OwnAt(states, k)
  {
    if k > 0 {
      OwnInduction(states, k - 1);
    }
  }

  lemma OwnRun(states: seq<Sys>, events: seq<Event>, k: nat)
    requires IsRun(states, events) && k < |states|
    ensures OwnAt(states, k)
  {
    StartIsOwn(states, events);
    forall j: nat | j < k && OwnAt(states, j)
      ensures OwnAt(states, j + 1)
    {
      OwnRunStep(states, events, j);
    }
    OwnInduction(states, k);
  }

  /** Over every run and whatever the settings, the DownstreamResponse timer is neither armed nor ever expires. */
  lemma DownstreamTimerIsNeverArmed(states: seq<Sys>, events: seq<Event>, k: nat)
    requires IsRun(states, events) && k < |states|
    ensures OnlyOwn(states[k])
    ensures DownstreamResponse !in states[k].conn.phase.table.timers && DownstreamResponse !in states[k].due
  {
    OwnRun(states, events, k);
  }

  // ---------------------------------------------------------------- what ends the wait

  predicate Waiting(c: Conn) {
    c.status.open && c.phase.state == WaitDownstreamResponse
  }

  /** A downstream response, a close request, or the callback of a timer collected in an earlier state. */
  predicate EndsTheWait(s: Sys, e: Event) {
    e.Response? || e.CloseRequest? || (e.Callback? && s.due != [] && s.due[0] != UserDefined)
  }

  lemma WaitStep(s: Sys, e: Event)
    requires Enabled(s, e) && ClosedOnce(s.conn) && Waiting(s.conn)
    ensures Waiting(Step(s, e).conn) <==> !EndsTheWait(s, e)
    ensures !EndsTheWait(s, e) ==> Step(s, e).conn.log == s.conn.log
  {
  }

  ghost predicate Waits(states: seq<Sys>, i: nat, j: nat) {
    j < |states| && forall k :: i <= k <= j ==> Waiting(states[k].conn)
  }

  ghost predicate Undisturbed(states: seq<Sys>, events: seq<Event>, i: nat, j: nat) {
    j <= |events| && j <= |states| && forall k :: i <= k < j ==> !EndsTheWait(states[k], events[k])
  }

  ghost predicate WaitLaw(s: Sys, e: Event, s': Sys) {
    && (Waiting(s'.conn) <==> !EndsTheWait(s, e))
    && (Waiting(s'.conn) ==> s'.conn.log == s.conn.log)
  }

  lemma WaitRunStep(states: seq<Sys>, events: seq<Event>, k: nat)
    requires IsRun(states, events) && k < |events| && Waiting(states[k].conn)
    ensures WaitLaw(states[k], events[k], states[k + 1])
  {
    CloseHappensOnce(states, events, k, k);
    WaitStep(states[k], events[k]);
  }

  lemma {:induction false} WaitInduction(states: seq<Sys>, events: seq<Event>, i: nat, j: nat)
    requires |states| == |events| + 1 && i <= j < |states| && Waiting(states[i].conn)
    requires forall k :: i <= k < j && Waiting(states[k].conn) ==> WaitLaw(states[k], events[k], states[k + 1])
    ensures Waits(states, i, j) <==> Undisturbed(states, events, i, j)
    ensures Waits(states, i, j) ==> states[j].conn.log == states[i].conn.log
    decreases j
  {
    if i < j {
      WaitInduction(states, events, i, j - 1);
      assert Waiting(states[j - 1].conn) ==> WaitLaw(states[j - 1], events[j - 1], states[j]);
    }
  }

  /** Over every run: from a waiting connection on, it waits up to j exactly if nothing ends the wait before j;
      meanwhile it tells nobody anything, whatever messages arrive and timers expire. */
  lemma WaitLasts(states: seq<Sys>, events: seq<Event>, i: nat, j: nat)
    requires IsRun(states, events) && i <= j < |states| && Waiting(states[i].conn)
    ensures Waits(states, i, j) <==> Undisturbed(states, events, i, j)
    ensures Waits(states, i, j) ==> states[j].conn.log == states[i].conn.log
  {
    forall k | i <= k < j && Waiting(states[k].conn)
      ensures WaitLaw(states[k], events[k], states[k + 1])
    {
      WaitRunStep(states, events, k);
    }
    WaitInduction(states, events, i, j);
  }

  predicate FromOutside(e: Event) {
    e.Response? || e.CloseRequest?
  }

  ghost predicate NothingFromOutside(events: seq<Event>, i: nat, j: nat) {
    j <= |events| && forall k :: i <= k < j ==> !FromOutside(events[k])
  }

  ghost predicate OnlyUserDefined(s: Sys) {
    forall id :: id in s.due ==> id == UserDefined
  }

  ghost predicate OutsideLaw(s: Sys, e: Event, s': Sys) {
    && (Waiting(s'.conn) <==> !FromOutside(e))
    && (Waiting(s'.conn) ==> OnlyUserDefined(s'))
  }

  lemma OutsideRunStep(states: seq<Sys>, events: seq<Event>, k: nat)
    requires IsRun(states, events) && k < |events| && Waiting(states[k].conn) && OnlyUserDefined(states[k])
    ensures OutsideLaw(states[k], events[k], states[k + 1])
  {
    DownstreamTimerIsNeverArmed(states, events, k);
    WaitRunStep(states, events, k);
    WaitCollectsItsOwn(states[k], events[k]);
  }

  lemma {:induction false} OutsideInduction(states: seq<Sys>, events: seq<Event>, i: nat, j: nat)
    requires |states| == |events| + 1 && i <= j < |states| && Waiting(states[i].conn) && OnlyUserDefined(states[i])
    requires forall k :: i <= k < j && Waiting(states[k].conn) && OnlyUserDefined(states[k]) ==>
      OutsideLaw(states[k], events[k], states[k + 1])
    ensures Waits(states, i, j) <==> NothingFromOutside(events, i, j)
    ensures Waits(states, i, j) ==> OnlyUserDefined(states[j])
    decreases j
  {
    if i < j {
      OutsideInduction(states, events, i, j - 1);
      if Waits(states, i, j - 1) {
        assert OutsideLaw(states[j - 1], events[j - 1], states[j]);
      }
    }
  }

  /** With no earlier expiry outstanding no timer ever ends the wait: it lasts exactly until a response or a request to
      close the connection, for ever if there is neither. */
  lemma OnlyTheOutsideEndsTheWait(states: seq<Sys>, events: seq<Event>, i: nat, j: nat)
    requires IsRun(states, events) && i <= j < |states| && Waiting(states[i].conn) && states[i].due == []
    ensures Waits(states, i, j) <==> NothingFromOutside(events, i, j)
    ensures Waits(states, i, j) ==> OnlyUserDefined(states[j])
  {
    forall k | i <= k < j && Waiting(states[k].conn) && OnlyUserDefined(states[k])
      ensures OutsideLaw(states[k], events[k], states[k + 1])
    {
      OutsideRunStep(states, events, k);
    }
    OutsideInduction(states, events, i, j);
  }

  lemma WaitCollectsItsOwn(s: Sys, e: Event)
    requires Enabled(s, e) && Waiting(s.conn) && OnlyOwn(s) && OnlyUserDefined(s)
    ensures OnlyUserDefined(Step(s, e))
    ensures e.Callback? ==> s.due[0] == UserDefined
  {
    if e.Callback? {
      assert s.due[0] in s.due && forall id :: id in s.due[1..] ==> id in s.due;
    }
  }

  // ---------------------------------------------------------------- such a run

  const PENDING := AppReply(None, Pending)

  /** The client's request is downstream, and the two seconds of the state have passed. */
  ghost predicate Abandoned(s: Sys) {
    Waiting(s.conn) && s.conn.link.active && s.conn.phase.table.timers == map[] && s.due == []
  }

  lemma RequestsDownstream(s: Sys)
    requires s.conn.phase.state == RoutingActivated && s.conn.status.open && s.conn.client == CLIENT
    requires s.conn.site.hasDownstream && s.conn.link.active && s.conn.link.writesLeft > 0 && s.due == []
    ensures var s' := Step(s, Received(TesterPresent(), PENDING, 0));
      && Waiting(s'.conn) && s'.conn.link.active && s'.due == []
      && s'.conn.phase.table.timers ==
         map[UserDefined := Timer(2000, HandleTimeoutOfConnection, 2000, false, true)]
  {
    TesterFields();
    assert HandleMessage(s.conn, TesterPresent(), PENDING, 0) ==
      Some(AnswerDiagnostic(s.conn, TesterPresent(), PENDING, 0));
  }

  lemma ExpiresUnheard(s: Sys, now: int)
    requires Waiting(s.conn) && s.conn.link.active && s.due == [] && now >= 2000
    requires s.conn.phase.table.timers == map[UserDefined := Timer(2000, HandleTimeoutOfConnection, 2000, false, true)]
    ensures Enabled(s, Collect(now, [UserDefined]))
    ensures var s' := Step(s, Collect(now, [UserDefined]));
      Enabled(s', Callback(now)) && Abandoned(Step(s', Callback(now)))
  {
    assert DueIds(s.conn.phase.table.timers, now) == {UserDefined};
  }

  lemma ActivatesClient(s: Sys)
    requires s == Start(Site(SERVER, true), 10, 0)
    ensures var s' := Step(s, Received(ActivationRequest(), NO_MATTER, 0));
      && s'.conn.phase.state == RoutingActivated && s'.conn.status.open && s'.conn.client == CLIENT
      && s'.conn.site.hasDownstream && s'.conn.link.active && s'.conn.link.writesLeft > 0 && s'.due == []
  {
    StartIsClosedOnce(Site(SERVER, true), 10, 0);
    TesterFields();
  }

  lemma UntilAbandoned(late: nat) returns (states: seq<Sys>, events: seq<Event>)
    requires late >= 2000
    ensures IsRun(states, events) && OnlyConfigures(events, DEFAULT_CONFIG) && Abandoned(states[|events|])
  {
    var cfg := DEFAULT_CONFIG;
    states, events := [Start(Site(SERVER, true), 10, 0)], [];
    ActivatesClient(states[0]);
    states, events := Extend(states, events, cfg, Received(ActivationRequest(), NO_MATTER, 0));
    RequestsDownstream(states[|events|]);
    states, events := Extend(states, events, cfg, Received(TesterPresent(), PENDING, 0));
    ExpiresUnheard(states[|events|], late);
    states, events := Extend(states, events, cfg, Collect(late, [UserDefined]));
    states, events := Extend(states, events, cfg, Callback(late));
  }

  lemma AnotherPing(before: seq<Sys>, earlier: seq<Event>, late: nat) returns (states: seq<Sys>, events: seq<Event>)
    requires IsRun(before, earlier) && OnlyConfigures(earlier, DEFAULT_CONFIG) && Abandoned(before[|earlier|])
    ensures IsRun(states, events) && OnlyConfigures(events, DEFAULT_CONFIG) && before <= states
    ensures events == earlier + [Received(TesterPresent(), PENDING, late)]
    ensures Abandoned(states[|events|]) && states[|events|].conn.log == before[|earlier|].conn.log
  {
    var ping := Received(TesterPresent(), PENDING, late);
    events := earlier + [ping];
    states := before + [Step(before[|earlier|], ping)];
    assert states[0] == before[0];
  }

  /** For every n and however late: a run with the default settings whose connection, after its own timer has expired,
      is sent n more messages by its client and still waits, open, with no timer left and nothing answered. */
  lemma {:induction false} WaitsForEver(n: nat, late: nat)
      returns (states: seq<Sys>, events: seq<Event>, since: nat)
    requires late >= 2000
    ensures IsRun(states, events) && OnlyConfigures(events, DEFAULT_CONFIG)
    ensures |events| == since + n
    ensures forall k :: since <= k < |events| ==> events[k] == Received(TesterPresent(), PENDING, late)
    ensures Abandoned(states[|events|])
    ensures states[|events|].conn.log == states[since].conn.log
  {
    if n == 0 {
      states, events := UntilAbandoned(late);
      since := |events|;
    } else {
      var before, earlier, s := WaitsForEver(n - 1, late);
      since := s;
      states, events := AnotherPing(before, earlier, late);
    }
  }
}
