/** Every diagnostic message is answered once, and the application hears of every answer
    (src/DoIPDefaultConnection.cpp). */
module AckLedger {
  import opened Options
  import opened Bytes
  import opened Message
  import opened ConnectionSpec
  import opened Runs
  import opened RoutingGate

  /** An acknowledgement owed to the client; `notified` if the application is told about it. */
  datatype Entry = Entry(sa: u16, ta: u16, ack: DiagnosticAck, notified: bool) {
    function Bytes(): DoIPMessage {
      MakeDiagnosticResponse(sa, ta, ack)
    }
  }

  const ACKS: set<u16> := {DIAGNOSTIC_MESSAGE_ACK, DIAGNOSTIC_MESSAGE_NEGATIVE_ACK}

  /** The acknowledgements among the messages. */
  function Acks(ms: seq<DoIPMessage>): seq<DoIPMessage> {
    OfTypes(ms, ACKS)
  }

  function Written(entries: seq<Entry>): seq<DoIPMessage> {
    if entries == [] then []
    else Written(entries[..|entries| - 1]) + [entries[|entries| - 1].Bytes()]
  }

  function Told(entries: seq<Entry>): seq<DiagnosticAck> {
    if entries == [] then []
    else
      var e := entries[|entries| - 1];
      Told(entries[..|entries| - 1]) + (if e.notified then [e.ack] else [])
  }

  /** The diagnostic messages the route is open for. */
  predicate Accepted(s: Sys, e: Event) {
    && e.Received?
    && s.conn.phase.state == RoutingActivated
    && FromClient(e.msg, s.conn.client)
  }

  /** What an event owes the client: the rules in one place, independently of the handlers. An accepted message gets the
      application's verdict, and a second, negative answer if handing it downstream fails at once. */
  function Owed(s: Sys, e: Event): seq<Entry> {
    var c := s.conn;
    var server := c.site.server;
    if Accepted(s, e) then
      [Entry(c.client, server, e.app.verdict, true)]
      + (if e.app.verdict.None? && c.site.hasDownstream && e.app.downstream == Error
         then [Entry(c.client, server, Some(TargetUnreachable), true)] else [])
    else if e.Response? then
      if e.result == Handled then [] else [Entry(server, c.client, Some(TargetUnreachable), false)]
    else if !e.Received? || (c.phase.state != RoutingActivated && c.phase.state != WaitAliveCheckResponse) then []
    else if e.msg.PayloadType() == ALIVE_CHECK_RESPONSE then []
    else if e.msg.PayloadType() != DIAGNOSTIC_MESSAGE then [Entry(0, server, Some(TransportProtocolError), true)]
    else if c.phase.state == RoutingActivated && e.msg.SourceAddress().Some? then
      [Entry(e.msg.SourceAddress().value, server, Some(InvalidSourceAddress), true)]
    else []
  }

  function Ledger(states: seq<Sys>, events: seq<Event>, k: nat): seq<Entry>
    requires k <= |events| && |states| == |events| + 1
  {
    if k == 0 then [] else Ledger(states, events, k - 1) + Owed(states[k - 1], events[k - 1])
  }

  function AcceptedMessages(states: seq<Sys>, events: seq<Event>, k: nat): seq<DoIPMessage>
    requires k <= |events| && |states| == |events| + 1
  {
    if k == 0 then []
    else AcceptedMessages(states, events, k - 1) +
         (if Accepted(states[k - 1], events[k - 1]) then [events[k - 1].msg] else [])
  }

  /** The ledger is settled: every entry was sent, in order, and nothing else; the application was told in order. */
  ghost predicate Settled(c: Conn, entries: seq<Entry>) {
    Acks(c.log.outbox) == Written(entries) && c.log.notified == Told(entries)
  }

  lemma EntrySnoc(entries: seq<Entry>, e: Entry)
    ensures Written(entries + [e]) == Written(entries) + [e.Bytes()]
    ensures Told(entries + [e]) == Told(entries) + (if e.notified then [e.ack] else [])
  {
    assert (entries + [e])[..|entries|] == entries;
  }

  lemma SendSettles(c: Conn, entries: seq<Entry>, source: u16, ack: DiagnosticAck)
    requires Settled(c, entries)
    ensures Settled(SendDiagnosticResponse(c, source, ack), entries + [Entry(source, c.site.server, ack, true)])
  {
    OutgoingTypes(source, c.site.server, ack, []);
    OfTypesSnoc(c.log.outbox, MakeDiagnosticResponse(source, c.site.server, ack), ACKS);
    EntrySnoc(entries, Entry(source, c.site.server, ack, true));
  }

  lemma OtherSendSettles(c: Conn, entries: seq<Entry>, m: DoIPMessage)
    requires Settled(c, entries) && m.PayloadType() !in ACKS
    ensures Settled(SendMessage(c, m), entries)
  {
    OfTypesSnoc(c.log.outbox, m, ACKS);
  }

  /** Only the outbox and the notifications matter. */
  lemma SameBooks(c: Conn, c': Conn, entries: seq<Entry>)
    requires Settled(c, entries) && c'.log.outbox == c.log.outbox && c'.log.notified == c.log.notified
    ensures Settled(c', entries)
  {
  }

  lemma FirstAnswer(c: Conn, entries: seq<Entry>, msg: DoIPMessage, app: AppReply, now: int)
    requires Settled(c, entries) && !(app.verdict.None? && c.site.hasDownstream && app.downstream == Error)
    ensures var c' := AnswerDiagnostic(c, msg, app, now);
      && Settled(c', entries + [Entry(c.client, c.site.server, app.verdict, true)])
      && c'.log.asked == c.log.asked + [msg]
  {
    var asked := AskApplication(c, msg);
    SameBooks(c, asked, entries);
    SendSettles(asked, entries, c.client, app.verdict);
    SameBooks(SendDiagnosticResponse(asked, c.client, app.verdict), AnswerDiagnostic(c, msg, app, now),
              entries + [Entry(c.client, c.site.server, app.verdict, true)]);
  }

  lemma SecondAnswer(c: Conn, entries: seq<Entry>, msg: DoIPMessage, app: AppReply, now: int)
    requires Settled(c, entries) && app.verdict.None? && c.site.hasDownstream && app.downstream == Error
    ensures var c' := AnswerDiagnostic(c, msg, app, now);
      var first := Entry(c.client, c.site.server, None, true);
      var second := Entry(c.client, c.site.server, Some(TargetUnreachable), true);
      && Settled(c', entries + [first] + [second])
      && c'.log.asked == c.log.asked + [msg]
  {
    var asked := AskApplication(c, msg);
    SameBooks(c, asked, entries);
    SendSettles(asked, entries, c.client, None);
    var acked := SendDiagnosticResponse(asked, c.client, None);
    var handed := Forward(RestartStateTimer(acked, now), msg);
    var first := entries + [Entry(c.client, c.site.server, None, true)];
    SameBooks(acked, handed, first);
    SendSettles(handed, first, c.client, Some(TargetUnreachable));
  }

  lemma AnswerSettles(s: Sys, entries: seq<Entry>, msg: DoIPMessage, app: AppReply, now: int)
    requires Settled(s.conn, entries) && Accepted(s, Received(msg, app, now))
    ensures var c' := AnswerDiagnostic(s.conn, msg, app, now);
      && Settled(c', entries + Owed(s, Received(msg, app, now)))
      && c'.log.asked == s.conn.log.asked + [msg]
  {
    var c := s.conn;
    var first := [Entry(c.client, c.site.server, app.verdict, true)];
    if app.verdict.None? && c.site.hasDownstream && app.downstream == Error {
      SecondAnswer(c, entries, msg, app, now);
      Associative(entries, first, [Entry(c.client, c.site.server, Some(TargetUnreachable), true)]);
    } else {
      FirstAnswer(c, entries, msg, app, now);
      assert Owed(s, Received(msg, app, now)) == first + [] == first;
    }
  }

  lemma ActivationSettles(c: Conn, entries: seq<Entry>, msg: DoIPMessage, now: int)
    requires Settled(c, entries)
    ensures var c' := HandleWaitRoutingActivation(c, msg, now);
      Settled(c', entries) && c'.log.asked == c.log.asked
  {
    if msg.SourceAddress().Some? {
      var source := msg.SourceAddress().value;
      var response := MakeRoutingActivationResponse(source, c.site.server, ROUTE_ACTIVATED);
      RoutingResponseType(source, c.site.server);
      OtherSendSettles(SetClientAddress(c, source), entries, response);
    }
  }

  lemma RefusalSettles(s: Sys, entries: seq<Entry>, msg: DoIPMessage, app: AppReply, now: int)
    requires Settled(s.conn, entries) && !Accepted(s, Received(msg, app, now))
    requires s.conn.phase.state == RoutingActivated
    ensures var c' := HandleRoutingActivated(s.conn, msg, app, now);
      && Settled(c', entries + Owed(s, Received(msg, app, now)))
      && c'.log.asked == s.conn.log.asked
  {
    var c' := HandleRoutingActivated(s.conn, msg, app, now);
    if msg.PayloadType() == ALIVE_CHECK_RESPONSE {
      NothingOwed(s.conn, c', entries);
    } else if msg.PayloadType() != DIAGNOSTIC_MESSAGE {
      SendSettles(s.conn, entries, 0, Some(TransportProtocolError));
    } else if msg.SourceAddress().None? {
      NothingOwed(s.conn, c', entries);
    } else {
      SendSettles(s.conn, entries, msg.SourceAddress().value, Some(InvalidSourceAddress));
    }
  }

  lemma NothingOwed(c: Conn, c': Conn, entries: seq<Entry>)
    requires Settled(c, entries) && c'.log.outbox == c.log.outbox && c'.log.notified == c.log.notified
    ensures Settled(c', entries + [])
  {
    assert entries + [] == entries;
  }

  lemma MessageSettles(s: Sys, entries: seq<Entry>, msg: DoIPMessage, app: AppReply, now: int)
    requires Settled(s.conn, entries) && !Accepted(s, Received(msg, app, now))
    requires HandleMessage(s.conn, msg, app, now).Some?
    ensures var c' := HandleMessage(s.conn, msg, app, now).value;
      && Settled(c', entries + Owed(s, Received(msg, app, now)))
      && c'.log.asked == s.conn.log.asked
  {
    assert entries + [] == entries;
    match s.conn.phase.state {
      case WaitRoutingActivation => ActivationSettles(s.conn, entries, msg, now);
      case RoutingActivated => RefusalSettles(s, entries, msg, app, now);
      case WaitAliveCheckResponse => SendSettles(s.conn, entries, 0, Some(TransportProtocolError));
      case _ =>
    }
  }

  lemma TimeoutSettles(c: Conn, entries: seq<Entry>, id: TimerId, now: int)
    requires Settled(c, entries)
    ensures Settled(HandleTimeout(c, id, now), entries) && HandleTimeout(c, id, now).log.asked == c.log.asked
  {
    OutgoingTypes(0, 0, None, []);
    OtherSendSettles(c, entries, MakeAliveCheckRequest());
  }

  lemma ResponseSettles(s: Sys, entries: seq<Entry>, e: Event)
    requires Settled(s.conn, entries) && e.Response? && Enabled(s, e)
    ensures Settled(Step(s, e).conn, entries + Owed(s, e))
  {
    var c := s.conn;
    OutgoingTypes(c.site.server, c.client, Some(TargetUnreachable), e.response);
    if e.result == Handled {
      var answer := MakeDiagnosticMessage(c.site.server, c.client, e.response);
      OtherSendSettles(c, entries, answer);
      NothingOwed(SendMessage(c, answer), Step(s, e).conn, entries);
    } else {
      UnreachableSettles(c, entries);
    }
  }

  lemma UnreachableSettles(c: Conn, entries: seq<Entry>)
    requires Settled(c, entries)
    ensures var entry := Entry(c.site.server, c.client, Some(TargetUnreachable), false);
      Settled(SendMessage(c, entry.Bytes()), entries + [entry])
  {
    var entry := Entry(c.site.server, c.client, Some(TargetUnreachable), false);
    OutgoingTypes(c.site.server, c.client, Some(TargetUnreachable), []);
    OfTypesSnoc(c.log.outbox, entry.Bytes(), ACKS);
    EntrySnoc(entries, entry);
  }

  lemma ReceivedSettles(s: Sys, entries: seq<Entry>, e: Event)
    requires Settled(s.conn, entries) && e.Received? && Enabled(s, e)
    ensures Settled(Step(s, e).conn, entries + Owed(s, e))
    ensures Step(s, e).conn.log.asked == s.conn.log.asked + (if Accepted(s, e) then [e.msg] else [])
  {
    if Accepted(s, e) {
      AnswerSettles(s, entries, e.msg, e.app, e.now);
    } else if HandleMessage(s.conn, e.msg, e.app, e.now).Some? {
      MessageSettles(s, entries, e.msg, e.app, e.now);
    } else {
      NothingOwed(s.conn, s.conn, entries);
    }
  }

  lemma StepSettles(s: Sys, entries: seq<Entry>, e: Event)
    requires Settled(s.conn, entries) && Enabled(s, e)
    ensures Settled(Step(s, e).conn, entries + Owed(s, e))
    ensures Step(s, e).conn.log.asked == s.conn.log.asked + (if Accepted(s, e) then [e.msg] else [])
  {
    match e {
      case Received(_, _, _) => ReceivedSettles(s, entries, e);
      case Callback(now) =>
        TimeoutSettles(s.conn, entries, s.due[0], now);
        assert entries + [] == entries;
      case Response(_, _, _) => ResponseSettles(s, entries, e);
      case _ => NothingOwed(s.conn, Step(s, e).conn, entries);
    }
  }

  /** Over every run: the acknowledgements put out are exactly those owed, in order; the notifications are exactly the
      codes of those entries, in order; the messages the application was asked about are exactly the accepted ones. */
  lemma {:induction false} LedgerIsSettled(states: seq<Sys>, events: seq<Event>, k: nat)
    requires IsRun(states, events) && k < |states|
    ensures var c := states[k].conn;
      && Acks(c.log.outbox) == Written(Ledger(states, events, k))
      && c.log.notified == Told(Ledger(states, events, k))
      && c.log.asked == AcceptedMessages(states, events, k)
  {
    if k == 0 {
      var site, writesLeft, now :| states[0] == Start(site, writesLeft, now);
      StartIsClosedOnce(site, writesLeft, now);
    } else {
      LedgerIsSettled(states, events, k - 1);
      StepSettles(states[k - 1], Ledger(states, events, k - 1), events[k - 1]);
    }
  }

  /** What reaches the client is a prefix of what is owed, all of it while the transport is up. */
  lemma ClientGetsAPrefix(states: seq<Sys>, events: seq<Event>, k: nat)
    requires IsRun(states, events) && k < |states|
    ensures var c := states[k].conn;
      && Acks(c.link.sent) <= Written(Ledger(states, events, k))
      && (c.link.active ==> Acks(c.link.sent) == Written(Ledger(states, events, k)))
  {
    LedgerIsSettled(states, events, k);
    CloseHappensOnce(states, events, k, k);
    OfTypesOfPrefix(states[k].conn.link.sent, states[k].conn.log.outbox, ACKS);
  }
}
