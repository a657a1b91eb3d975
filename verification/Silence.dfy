/** A silent client, in time: src/DoIPDefaultConnection.cpp on the passes of inc/TimerManager.h. */
module Silence {
  import opened Options
  import opened Bytes
  import opened Message
  import opened Timers
  import opened Transport
  import opened ConnectionSpec
  import opened Runs
  import opened RoutingGate
  import opened StateTimers

  /** A pass of the timer worker: it collects at `now`, the callback reads the clock at `later`. */
  datatype Tick = Tick(now: int, later: int)

  /** A pass over the table of a resting connection, callback included. */
  function Pass(c: Conn, t: Tick): Conn {
    var id := TimerOf(c.phase);
    if id in c.phase.table.timers && Due(c.phase.table.timers[id], t.now) then
      HandleTimeout(c.(phase := c.phase.(table :=
        Monitor(AfterPass(c.phase.table.timers, t.now, _ => t.now), c.phase.table.changed))), id, t.later)
    else c
  }

  function Passes(c: Conn, ticks: seq<Tick>): Conn
    decreases |ticks|
  {
    if ticks == [] then c else Passes(Pass(c, ticks[0]), ticks[1..])
  }

  /** A pass is what the run relation does in a Collect step and the Callback step that follows it. */
  lemma PassIsCollectAndCallback(c: Conn, t: Tick, order: seq<TimerId>, crashed: bool)
    requires OwnTimer(c.phase)
    requires Enabled(Sys(c, [], crashed), Collect(t.now, order))
    ensures var s := Step(Sys(c, [], crashed), Collect(t.now, order));
      if s.due == [] then s == Sys(Pass(c, t), [], crashed)
      else Step(s, Callback(t.later)) == Sys(Pass(c, t), [], crashed)
  {
    var timers := c.phase.table.timers;
    var id := TimerOf(c.phase);
    EnumerationOfAtMostOne(order, DueIds(timers, t.now), id);
    if order == [] {
      assert id !in DueIds(timers, t.now);
      assert AfterPass(timers, t.now, _ => t.now) == timers;
    } else {
      assert id in DueIds(timers, t.now);
    }
  }

  /** The first pass at or after a deadline. */
  function FirstAt(ticks: seq<Tick>, deadline: int): (i: nat)
    ensures i <= |ticks|
    ensures forall k :: 0 <= k < i ==> ticks[k].now < deadline
    ensures i < |ticks| ==> ticks[i].now >= deadline
  {
    if ticks == [] || ticks[0].now >= deadline then 0 else 1 + FirstAt(ticks[1..], deadline)
  }

  /** An open connection resting in a state whose timer expires at `expiry`. */
  ghost predicate Resting(c: Conn, s: ServerState, expiry: int) {
    && c.phase.state == s && !c.status.closing
    && OwnTimer(c.phase)
    && TimerOf(c.phase) in c.phase.table.timers
    && c.phase.table.timers[TimerOf(c.phase)].expiry == expiry
  }

  /** Nothing happens before the deadline, whatever passes there are; the first later pass is the next to act. */
  lemma {:induction false} QuietUntil(c: Conn, s: ServerState, expiry: int, ticks: seq<Tick>)
    requires Resting(c, s, expiry)
    ensures var i := FirstAt(ticks, expiry);
      Passes(c, ticks) == if i == |ticks| then c else Passes(Pass(c, ticks[i]), ticks[i + 1..])
  {
    if ticks != [] && ticks[0].now < expiry {
      QuietUntil(c, s, expiry, ticks[1..]);
      var i := FirstAt(ticks[1..], expiry);
      if i < |ticks| - 1 {
        assert ticks[1..][i + 1..] == ticks[i + 2..];
      }
    }
  }

  /** A connection with an empty table is left alone for ever. */
  lemma {:induction false} UntimedForever(c: Conn, ticks: seq<Tick>)
    requires c.phase.table.timers == map[]
    ensures Passes(c, ticks) == c
  {
    if ticks != [] {
      UntimedForever(c, ticks[1..]);
    }
  }

  predicate IsActivation(c: Conn, msg: DoIPMessage) {
    && c.phase.state == WaitRoutingActivation
    && msg.PayloadType() == ROUTING_ACTIVATION_REQUEST && msg.SourceAddress().Some?
  }

  predicate AnswersAliveCheck(c: Conn, msg: DoIPMessage) {
    && c.phase.state == WaitAliveCheckResponse
    && (msg.PayloadType() == ALIVE_CHECK_RESPONSE || msg.PayloadType() == DIAGNOSTIC_MESSAGE)
  }

  /** Activation, an answered alive check and a delivered response start the general inactivity time afresh. */
  lemma BackToRoutingActivated(c: Conn, msg: DoIPMessage, response: seq<byte>, result: DownstreamResult, now: int)
    requires !c.status.closing && c.cfg.general != 0
    ensures IsActivation(c, msg) ==> Idling(HandleWaitRoutingActivation(c, msg, now), now + c.cfg.general)
    ensures AnswersAliveCheck(c, msg) ==> Idling(HandleWaitAliveCheckResponse(c, msg, now), now + c.cfg.general)
    ensures c.phase.state == WaitDownstreamResponse ==>
      Idling(ReceiveDownstreamResponse(c, response, result, now), now + c.cfg.general)
  {
  }

  ghost predicate Idling(c: Conn, expiry: int) {
    Resting(c, RoutingActivated, expiry) && c.phase.retry == 0
  }

  /** While the route is active, exactly an alive check response or a diagnostic message from the client moves the
      deadline, to a full general inactivity time from now; everything else that is refused leaves it alone. */
  lemma WhatMovesTheDeadline(c: Conn, expiry: int, msg: DoIPMessage, app: AppReply, now: int)
    requires Idling(c, expiry)
    ensures var c' := HandleRoutingActivated(c, msg, app, now);
      var moves := msg.PayloadType() == ALIVE_CHECK_RESPONSE || FromClient(msg, c.client);
      && (c'.status.closing <==> msg.PayloadType() == DIAGNOSTIC_MESSAGE && msg.SourceAddress().None?)
      && (c'.status.closing ==> c'.status.reason == InvalidMessage && c'.log.outbox == c.log.outbox)
      && (!c'.status.closing && c'.phase.state == RoutingActivated ==>
          Idling(c', if moves then now + c.phase.armedBy.general else expiry))
      && (!c'.status.closing && c'.phase.state != RoutingActivated ==>
          c'.phase.state == WaitDownstreamResponse && FromClient(msg, c.client))
  {
    if FromClient(msg, c.client) {
      DeadlineOfAnswer(c, expiry, msg, app, now);
    }
  }

  lemma DeadlineOfAnswer(c: Conn, expiry: int, msg: DoIPMessage, app: AppReply, now: int)
    requires Idling(c, expiry)
    ensures var c' := AnswerDiagnostic(c, msg, app, now);
      && !c'.status.closing
      && if app.verdict.None? && c.site.hasDownstream && app.downstream == Pending
         then c'.phase.state == WaitDownstreamResponse
         else Idling(c', now + c.phase.armedBy.general)
  {
    var asked := AskApplication(c, msg);
    var acked := RestartStateTimer(SendDiagnosticResponse(asked, c.client, app.verdict), now);
    assert Idling(acked, now + c.phase.armedBy.general);
    assert Idling(Forward(acked, msg), now + c.phase.armedBy.general);
    assert Idling(SendDiagnosticResponse(Forward(acked, msg), c.client, Some(TargetUnreachable)),
                  now + c.phase.armedBy.general);
  }

  /** The settings of a fresh connection: 2 s, 5 min, 500 ms, 10 s, and one retry. */
  lemma FreshSettings(site: Site, link: Link, now: int)
    ensures Construct(site, link, now).cfg == Config(2000, 5 * 60 * 1000, 500, 10 * 1000, 1)
    ensures Resting(Construct(site, link, now), WaitRoutingActivation, now + 2000)
  {
  }

  /** Never activated: closed with InitialInactivityTimeout by the first pass at or after creation plus the initial
      time, and by no earlier one; the client was never sent anything. */
  lemma SilentBeforeActivation(site: Site, writesLeft: nat, created: int, ticks: seq<Tick>)
    ensures var i := FirstAt(ticks, created + 2000);
      var c0 := Start(site, writesLeft, created).conn;
      var c := Passes(c0, ticks);
      if i == |ticks| then c == c0 && c.status.open
      else !c.status.open && c.status.reason == InitialInactivityTimeout && c.link.sent == [] && c.log.outbox == []
  {
    var c0 := Start(site, writesLeft, created).conn;
    StartIsClosedOnce(site, writesLeft, created);
    var expiry := created + DEFAULT_CONFIG.initial;
    QuietUntil(c0, WaitRoutingActivation, expiry, ticks);
    var i := FirstAt(ticks, expiry);
    if i < |ticks| {
      UntimedForever(Pass(c0, ticks[i]), ticks[i + 1..]);
    }
  }

  /** The pass that finds the general inactivity timer expired sends one alive check request and awaits the answer. */
  lemma AliveCheckSent(c: Conn, expiry: int, t: Tick)
    requires Idling(c, expiry) && c.cfg.alive != 0
    requires t.now >= expiry
    ensures var c' := Pass(c, t);
      && Resting(c', WaitAliveCheckResponse, t.later + c.cfg.alive)
      && c'.phase.retry == 1 && c'.cfg == c.cfg
      && c'.log.outbox == c.log.outbox + [MakeAliveCheckRequest()]
  {
  }

  /** The pass that finds the alive check expired closes the connection exactly if at most one retry is configured;
      otherwise it leaves the connection open with no timer at all. */
  lemma AliveCheckExpired(c: Conn, expiry: int, t: Tick)
    requires Resting(c, WaitAliveCheckResponse, expiry) && c.phase.retry == 1 && t.now >= expiry
    ensures var c' := Pass(c, t);
      && c'.phase.table.timers == map[]
      && c'.log.outbox == c.log.outbox
      && (c'.status.closing <==> c.cfg.retryCount <= 1)
      && (c'.status.closing ==> !c'.status.open && c'.status.reason == AliveCheckTimeout)
      && (!c'.status.closing ==> c'.status == c.status && c'.phase.state == WaitAliveCheckResponse)
  {
  }

  /** An alive check nobody answers. */
  lemma Unanswered(c: Conn, expiry: int, ticks: seq<Tick>)
    requires Resting(c, WaitAliveCheckResponse, expiry) && c.phase.retry == 1
    ensures var j := FirstAt(ticks, expiry);
      var end := Passes(c, ticks);
      && end.log.outbox == c.log.outbox
      && (end.status.closing <==> j < |ticks| && c.cfg.retryCount <= 1)
      && (end.status.closing ==> end.status.reason == AliveCheckTimeout && !end.status.open)
  {
    QuietUntil(c, WaitAliveCheckResponse, expiry, ticks);
    var j := FirstAt(ticks, expiry);
    if j < |ticks| {
      AliveCheckExpired(c, expiry, ticks[j]);
      UntimedForever(Pass(c, ticks[j]), ticks[j + 1..]);
    }
  }

  /** Silent after activation, last timer restart giving the deadline `expiry`: an alive check request no earlier than
      that, by the first pass reaching it; AliveCheckTimeout no earlier than another alive-check time after that pass,
      by the first pass reaching it, exactly if at most one retry is configured. With more the client stays silent
      and the connection open for ever. */
  lemma SilentAfterActivation(c: Conn, expiry: int, ticks: seq<Tick>)
    requires Idling(c, expiry) && c.cfg.alive != 0
    ensures var i := FirstAt(ticks, expiry);
      var end := Passes(c, ticks);
      if i == |ticks| then end == c
      else
        var j := FirstAt(ticks[i + 1..], ticks[i].later + c.cfg.alive);
        && end.log.outbox == c.log.outbox + [MakeAliveCheckRequest()]
        && (end.status.closing <==> i + 1 + j < |ticks| && c.cfg.retryCount <= 1)
        && (end.status.closing ==> end.status.reason == AliveCheckTimeout && !end.status.open)
  {
    QuietUntil(c, RoutingActivated, expiry, ticks);
    var i := FirstAt(ticks, expiry);
    if i < |ticks| {
      var asked := Pass(c, ticks[i]);
      var deadline := ticks[i].later + c.cfg.alive;
      AliveCheckSent(c, expiry, ticks[i]);
      Unanswered(asked, deadline, ticks[i + 1..]);
    }
  }
}
