/** What opens the route (src/DoIPDefaultConnection.cpp). */
module RouteOpening {
  import opened Options
  import opened Bytes
  import opened Message
  import opened ConnectionSpec
  import opened Runs
  import opened RoutingGate

  /** A routing activation request from this address, received while the connection waits for one. */
  predicate OpensRoute(s: Sys, e: Event, client: u16) {
    && e.Received?
    && s.conn.phase.state == WaitRoutingActivation
    && e.msg.PayloadType() == 0x0005
    && e.msg.SourceAddress() == Some(client)
  }

  /** A message to an open connection that waits for activation binds its source and is answered positively exactly if
      it is a routing activation request with a source address; any other one closes the connection with InvalidMessage,
      unanswered. */
  lemma ActivatesExactly(s: Sys, e: Event)
    requires Enabled(s, e) && e.Received? && ClosedOnce(s.conn)
    requires s.conn.status.open && s.conn.phase.state == WaitRoutingActivation
    ensures var c, c' := s.conn, Step(s, e).conn;
      if e.msg.PayloadType() == 0x0005 && e.msg.SourceAddress().Some? then
        var client := e.msg.SourceAddress().value;
        && c'.client == client && c'.log.routed == c.log.routed + [client]
        && c'.log.outbox == c.log.outbox + [MakeRoutingActivationResponse(client, c.site.server, 0x10)]
        && c'.status == c.status && c'.log.notices == c.log.notices
        && (c.cfg.general != 0 ==> c'.phase.state == RoutingActivated)
      else
        && c'.client == c.client && c'.log.routed == c.log.routed && c'.log.outbox == c.log.outbox
        && !c'.status.open && c'.status.reason == InvalidMessage && c'.log.notices == [InvalidMessage]
        && c'.phase.state == Closed && !c'.link.active
  {
  }

  /** No step but such a message binds an address. */
  lemma BindsOnlyByActivation(s: Sys, e: Event)
    requires Enabled(s, e)
    ensures var c, c' := s.conn, Step(s, e).conn;
      || (c'.log.routed == c.log.routed && c'.client == c.client)
      || (OpensRoute(s, e, c'.client) && c'.log.routed == c.log.routed + [c'.client])
  {
    match e {
      case Received(msg, app, now) =>
        if s.conn.phase.state == RoutingActivated {
          RoutedBindsNothing(s.conn, msg, app, now);
        }
      case _ =>
    }
  }

  lemma RoutedBindsNothing(c: Conn, msg: DoIPMessage, app: AppReply, now: int)
    ensures var c' := HandleRoutingActivated(c, msg, app, now);
      c'.log.routed == c.log.routed && c'.client == c.client
  {
  }

  ghost predicate WasOpened(states: seq<Sys>, events: seq<Event>, k: nat, client: u16) {
    exists j: nat :: j < k && j < |states| && j < |events| && OpensRoute(states[j], events[j], client)
  }

  /** Over every run: a bound address was bound by a routing activation request from it. */
  lemma {:induction false} RouteWasAskedFor(states: seq<Sys>, events: seq<Event>, k: nat)
    requires IsRun(states, events) && k < |states|
    ensures states[k].conn.log.routed != [] ==> WasOpened(states, events, k, states[k].conn.client)
  {
    if k == 0 {
      var site, writesLeft, now :| states[0] == Start(site, writesLeft, now);
      StartIsClosedOnce(site, writesLeft, now);
    } else {
      RouteWasAskedFor(states, events, k - 1);
      RouteRunStep(states, events, k - 1);
    }
  }

  lemma RouteRunStep(states: seq<Sys>, events: seq<Event>, k: nat)
    requires IsRun(states, events) && k < |events|
    requires states[k].conn.log.routed != [] ==> WasOpened(states, events, k, states[k].conn.client)
    ensures states[k + 1].conn.log.routed != [] ==> WasOpened(states, events, k + 1, states[k + 1].conn.client)
  {
    BindsOnlyByActivation(states[k], events[k]);
    if OpensRoute(states[k], events[k], states[k + 1].conn.client) {
      assert k < k + 1;
    } else if states[k].conn.log.routed != [] {
      var j: nat :| j < k && j < |states| && j < |events| && OpensRoute(states[j], events[j], states[k].conn.client);
    }
  }

  /** So whoever is served, sent to, or asked about has asked for it: nothing is sent before, and the client of every
      message handed on is the one that sent the request. */
  lemma ServedAfterActivation(states: seq<Sys>, events: seq<Event>, k: nat)
    requires IsRun(states, events) && k < |states|
    ensures var c := states[k].conn;
      c.link.sent != [] || c.log.asked != [] || c.log.forwarded != [] ==> WasOpened(states, events, k, c.client)
  {
    NothingBeforeActivation(states, events, k);
    RouteWasAskedFor(states, events, k);
    var c := states[k].conn;
    if c.log.asked != [] {
      assert c.log.asked[0] in c.log.asked;
    }
    if c.log.forwarded != [] {
      assert c.log.forwarded[0] in c.log.forwarded;
    }
  }
}
