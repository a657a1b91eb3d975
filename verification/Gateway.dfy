/** End to end: client messages, timers and the downstream worker in every interleaving. */
module Gateway {
  import opened Options
  import opened Bytes
  import opened Message
  import opened ConnectionSpec
  import opened Downstream
  import opened Runs
  import opened RoutingGate
  import opened Subsequences
  import Uds
  import opened Connection

  type Provider = seq<byte> -> seq<byte>

  datatype World = World(sys: Sys, path: Path)

  /** A client message handled, another event of the connection, or a step of the worker. */
  datatype Happening =
    | Client(msg: DoIPMessage, verdict: DiagnosticAck, now: int)
    | Elsewhere(event: Event)
    | PopsRequest
    | Answers
    | PopsResponse
    | Calls(now: int)
    | Resets

  /** The worker does its steps in the order of its code; anything can happen between them. */
  ghost predicate CanHappen(w: World, h: Happening) {
    match h
    case Client(_, _, _) => w.sys.conn.link.active
    case Elsewhere(e) => !e.Received? && !e.Response? && Enabled(w.sys, e)
    case PopsRequest => w.path.worker.LooksAtTx?
    case Answers => w.path.worker.Requesting?
    case PopsResponse => w.path.worker.LooksAtRx?
    case Calls(_) => w.path.worker.Responding?
    case Resets => w.path.worker.Resetting?
  }

  function Deliver(c: Conn, p: Path, now: int): Conn
    requires p.worker.Responding?
  {
    if p.callback then ReceiveDownstreamResponse(c, p.worker.response, Handled, now) else c
  }

  ghost function Happens(w: World, h: Happening, provider: Provider): World
    requires CanHappen(w, h)
  {
    match h
    case Client(msg, verdict, now) =>
      var sys := Step(w.sys, Received(msg, AppReply(verdict, Pending), now));
      World(sys, if sys.conn.log.forwarded != w.sys.conn.log.forwarded then Accept(w.path, msg) else w.path)
    case Elsewhere(e) => w.(sys := Step(w.sys, e))
    case PopsRequest => w.(path := TakeRequest(w.path))
    case Answers => w.(path := Answer(w.path, provider))
    case PopsResponse => w.(path := TakeResponse(w.path))
    case Calls(now) => World(w.sys.(conn := Deliver(w.sys.conn, w.path, now)), Call(w.path))
    case Resets => w.(path := Reset(w.path))
  }

  ghost predicate GatewayRun(worlds: seq<World>, happenings: seq<Happening>, provider: Provider) {
    && |worlds| == |happenings| + 1
    && (exists server, writesLeft, now :: worlds[0] == World(Start(Site(server, true), writesLeft, now), Idle()))
    && (forall k :: 0 <= k < |happenings| ==>
        CanHappen(worlds[k], happenings[k]) && worlds[k + 1] == Happens(worlds[k], happenings[k], provider))
  }

  /** A client message that the connection accepts and hands to the downstream side. */
  predicate IsRequest(w: World, h: Happening) {
    && h.Client? && h.verdict.None?
    && w.sys.conn.phase.state == RoutingActivated
    && FromClient(h.msg, w.sys.conn.client)
  }

  /** The requests among the first k happenings, in order. */
  function Requests(worlds: seq<World>, happenings: seq<Happening>, k: nat): seq<DoIPMessage>
    requires k <= |happenings| < |worlds|
  {
    if k == 0 then []
    else Requests(worlds, happenings, k - 1) +
         (if IsRequest(worlds[k - 1], happenings[k - 1]) then [happenings[k - 1].msg] else [])
  }

  /** The requests whose answers are still to be handed over: queued, with the worker, or answered and queued. */
  function InPath(p: Path): nat {
    |p.tx.items| + |p.rx.items| + (if p.worker.Requesting? || p.worker.Responding? then 1 else 0)
  }

  /** A request accepted while another one is on the path. */
  predicate Crowds(w: World, h: Happening) {
    IsRequest(w, h) && InPath(w.path) >= 1
  }

  /** A response dropped because the callback slot is not set, although the transport is up. */
  predicate Drops(w: World, h: Happening) {
    h.Calls? && !w.path.callback && w.sys.conn.link.active
  }

  ghost predicate NoneSpoils(worlds: seq<World>, happenings: seq<Happening>, n: nat) {
    && n <= |happenings| < |worlds|
    && forall k :: 0 <= k < n ==> !Crowds(worlds[k], happenings[k]) && !Drops(worlds[k], happenings[k])
  }

  /** The slot reset by the worker after a call, when it has been set again for a request accepted meanwhile. */
  predicate Forgets(w: World, h: Happening) {
    h.Resets? && InPath(w.path) > 0
  }

  /** A callback that takes an open connection out of WaitDownstreamResponse: its timer was collected in an earlier
      state, and only runs now that the connection waits for the downstream side. */
  predicate Stale(w: World, h: Happening) {
    && h.Elsewhere? && h.event.Callback? && w.sys.due != []
    && w.sys.conn.phase.state == WaitDownstreamResponse && !w.sys.conn.status.closing
    && LeavesTheWait(w.sys.conn, w.sys.due[0])
  }

  predicate LeavesTheWait(c: Conn, id: TimerId) {
    || id == GeneralInactivity
    || id == DownstreamResponse
    || (id == AliveCheck && c.phase.retry < c.cfg.retryCount)
  }

  ghost predicate NoRace(worlds: seq<World>, happenings: seq<Happening>, n: nat) {
    && n <= |happenings| < |worlds|
    && forall k :: 0 <= k < n ==> !Stale(worlds[k], happenings[k]) && !Forgets(worlds[k], happenings[k])
  }

  // ---------------------------------------------------------------- what the client is owed

  const DIAGNOSTIC: set<u16> := {DIAGNOSTIC_MESSAGE}

  /** The diagnostic messages among the messages. */
  function Diagnostics(ms: seq<DoIPMessage>): seq<DoIPMessage> {
    OfTypes(ms, DIAGNOSTIC)
  }

  /** The provider's answers to the requests, addressed from server to client. */
  function Replies(server: u16, client: u16, provider: Provider, requests: seq<DoIPMessage>): seq<DoIPMessage> {
    seq(|requests|, i requires 0 <= i < |requests| =>
      MakeDiagnosticMessage(server, client, provider(requests[i].DiagnosticPayload())))
  }

  function AnswersTo(provider: Provider, requests: seq<DoIPMessage>): seq<seq<byte>> {
    seq(|requests|, i requires 0 <= i < |requests| => provider(requests[i].DiagnosticPayload()))
  }

  lemma RepliesSnoc(server: u16, client: u16, provider: Provider, requests: seq<DoIPMessage>, m: nat)
    requires m < |requests|
    ensures Replies(server, client, provider, requests[..m + 1]) ==
      Replies(server, client, provider, requests[..m])
      + [MakeDiagnosticMessage(server, client, provider(requests[m].DiagnosticPayload()))]
  {
  }

  // ---------------------------------------------------------------- what a happening does

  /** No diagnostic message sent, nothing forwarded, the client bound at most before the first request. */
  ghost predicate Aside(c: Conn, c': Conn) {
    && c'.site == c.site && c'.log.forwarded == c.log.forwarded
    && Diagnostics(c'.log.outbox) == Diagnostics(c.log.outbox)
    && (c'.client == c.client || c.log.forwarded == [])
  }

  /** The waiting state is neither entered nor left, except by closing. */
  ghost predicate StaysPut(c: Conn, c': Conn) {
    && (c'.phase.state == WaitDownstreamResponse ==> c.phase.state == WaitDownstreamResponse)
    && (c.phase.state == WaitDownstreamResponse && c'.phase.state != WaitDownstreamResponse ==> c'.status.closing)
    && (c.status.closing ==> c'.status.closing)
  }

  ghost predicate Unaffected(c: Conn, c': Conn) {
    Aside(c, c') && StaysPut(c, c')
  }

  lemma AckIsNoDiagnostic(c: Conn, source: u16, ack: DiagnosticAck)
    ensures Diagnostics(SendDiagnosticResponse(c, source, ack).log.outbox) == Diagnostics(c.log.outbox)
  {
    OutgoingTypes(source, c.site.server, ack, []);
    OfTypesSnoc(c.log.outbox, MakeDiagnosticResponse(source, c.site.server, ack), DIAGNOSTIC);
  }

  lemma ActivationUnaffected(c: Conn, msg: DoIPMessage, now: int)
    requires c.phase.state == WaitRoutingActivation && c.log.forwarded == []
    ensures Unaffected(c, HandleWaitRoutingActivation(c, msg, now))
  {
    if msg.SourceAddress().Some? && msg.PayloadType() == ROUTING_ACTIVATION_REQUEST {
      var source := msg.SourceAddress().value;
      var response := MakeRoutingActivationResponse(source, c.site.server, ROUTE_ACTIVATED);
      RoutingResponseType(source, c.site.server);
      OfTypesSnoc(c.log.outbox, response, DIAGNOSTIC);
      var answered := SendMessage(SetClientAddress(c, source), response);
      assert Unaffected(c, answered);
      assert HandleWaitRoutingActivation(c, msg, now) == TransitionTo(answered, RoutingActivated, now);
    }
  }

  lemma RefusalUnaffected(c: Conn, msg: DoIPMessage, app: AppReply, now: int)
    requires c.phase.state == RoutingActivated && !FromClient(msg, c.client)
    ensures Unaffected(c, HandleRoutingActivated(c, msg, app, now))
  {
    AckIsNoDiagnostic(c, 0, Some(TransportProtocolError));
    if msg.SourceAddress().Some? {
      AckIsNoDiagnostic(c, msg.SourceAddress().value, Some(InvalidSourceAddress));
    }
  }

  lemma TimeoutAside(c: Conn, id: TimerId, now: int)
    ensures Aside(c, HandleTimeout(c, id, now))
  {
    if id == GeneralInactivity {
      OutgoingTypes(0, 0, None, []);
      OfTypesSnoc(c.log.outbox, MakeAliveCheckRequest(), DIAGNOSTIC);
      assert Aside(c, SendMessage(c, MakeAliveCheckRequest()));
    }
  }

  /** An accepted client message is acknowledged, and forwarded exactly if the acknowledgement is positive. */
  lemma AnswerEffect(c: Conn, msg: DoIPMessage, verdict: DiagnosticAck, now: int)
    requires c.site.hasDownstream && c.phase.state == RoutingActivated
    ensures var c' := AnswerDiagnostic(c, msg, AppReply(verdict, Pending), now);
      if verdict.Some? then Unaffected(c, c')
      else
        && c'.site == c.site && c'.client == c.client && c'.status == c.status
        && c'.log.forwarded == c.log.forwarded + [msg]
        && c'.phase.state == WaitDownstreamResponse
        && Diagnostics(c'.log.outbox) == Diagnostics(c.log.outbox)
  {
    AckIsNoDiagnostic(AskApplication(c, msg), c.client, verdict);
  }

  /** Any client message that is not forwarded. */
  lemma MessageUnaffected(c: Conn, msg: DoIPMessage, app: AppReply, now: int)
    requires HandleMessage(c, msg, app, now).Some?
    requires c.phase.state == WaitRoutingActivation ==> c.log.forwarded == []
    requires c.phase.state == RoutingActivated ==> !FromClient(msg, c.client)
    ensures Unaffected(c, HandleMessage(c, msg, app, now).value)
  {
    match c.phase.state {
      case RoutingActivated => RefusalUnaffected(c, msg, app, now);
      case WaitRoutingActivation => ActivationUnaffected(c, msg, now);
      case WaitAliveCheckResponse => AckIsNoDiagnostic(c, 0, Some(TransportProtocolError));
      case _ =>
    }
  }

  /** Delivering the response sends it and ends the wait. */
  lemma DeliveryEffect(c: Conn, response: seq<byte>, now: int)
    ensures var c' := ReceiveDownstreamResponse(c, response, Handled, now);
      && c'.site == c.site && c'.client == c.client && c'.log.forwarded == c.log.forwarded
      && c'.status == c.status
      && c'.phase.state != WaitDownstreamResponse
      && Diagnostics(c'.log.outbox) ==
         Diagnostics(c.log.outbox) + [MakeDiagnosticMessage(c.site.server, c.client, response)]
  {
    var answer := MakeDiagnosticMessage(c.site.server, c.client, response);
    OutgoingTypes(c.site.server, c.client, None, response);
    SendsDiagnostic(c, answer);
    EndsWait(SendMessage(c, answer), now);
  }

  lemma SendsDiagnostic(c: Conn, answer: DoIPMessage)
    requires answer.PayloadType() == DIAGNOSTIC_MESSAGE
    ensures Diagnostics(SendMessage(c, answer).log.outbox) == Diagnostics(c.log.outbox) + [answer]
  {
    OfTypesSnoc(c.log.outbox, answer, DIAGNOSTIC);
  }

  lemma EndsWait(c: Conn, now: int)
    ensures var c' := TransitionTo(c, RoutingActivated, now);
      c' == c.(phase := c'.phase) && c'.phase.state != WaitDownstreamResponse
  {
  }

  /** A request joins the path, is forwarded, and starts the wait. */
  ghost predicate Requested(w: World, w': World, msg: DoIPMessage) {
    var c, c' := w.sys.conn, w'.sys.conn;
    && w'.path == Accept(w.path, msg)
    && c'.site == c.site && c'.client == c.client && c'.status == c.status
    && c'.log.forwarded == c.log.forwarded + [msg]
    && c'.phase.state == WaitDownstreamResponse
    && Diagnostics(c'.log.outbox) == Diagnostics(c.log.outbox)
  }

  /** The oldest answer leaves the path; it reaches the client if the callback slot is set. */
  ghost predicate HandedOver(w: World, w': World)
    requires w.path.worker.Responding?
  {
    var c, c' := w.sys.conn, w'.sys.conn;
    && w'.path == Call(w.path)
    && c'.site == c.site && c'.client == c.client && c'.status == c.status
    && c'.log.forwarded == c.log.forwarded
    && (!w.path.callback ==> c' == c)
    && (w.path.callback ==>
        && c'.phase.state != WaitDownstreamResponse
        && Diagnostics(c'.log.outbox) ==
           Diagnostics(c.log.outbox) + [MakeDiagnosticMessage(c.site.server, c.client, w.path.worker.response)])
  }

  /** A request is handed down; no other client message touches the path or the books. */
  lemma ClientEffect(w: World, h: Happening, provider: Provider)
    requires CanHappen(w, h) && h.Client? && w.sys.conn.site.hasDownstream && Gate(w.sys) && ClosedOnce(w.sys.conn)
    ensures var w' := Happens(w, h, provider);
      if IsRequest(w, h) then Requested(w, w', h.msg)
      else w'.path == w.path && Unaffected(w.sys.conn, w'.sys.conn)
  {
    var c := w.sys.conn;
    var app := AppReply(h.verdict, Pending);
    if c.phase.state == RoutingActivated && FromClient(h.msg, c.client) {
      AnswerEffect(c, h.msg, h.verdict, h.now);
      assert HandleMessage(c, h.msg, app, h.now) == Some(AnswerDiagnostic(c, h.msg, app, h.now));
    } else if HandleMessage(c, h.msg, app, h.now).Some? {
      MessageUnaffected(c, h.msg, app, h.now);
    }
  }

  /** Timers, closing and settings touch neither the path nor the books. */
  lemma ElsewhereEffect(w: World, h: Happening, provider: Provider)
    requires CanHappen(w, h) && h.Elsewhere?
    ensures var w' := Happens(w, h, provider);
      w'.path == w.path && Aside(w.sys.conn, w'.sys.conn)
  {
    if h.event.Callback? {
      TimeoutAside(w.sys.conn, w.sys.due[0], h.event.now);
    }
  }

  lemma HandOverEffect(w: World, h: Happening, provider: Provider)
    requires CanHappen(w, h) && h.Calls?
    ensures HandedOver(w, Happens(w, h, provider))
  {
    DeliveryEffect(w.sys.conn, w.path.worker.response, h.now);
  }

  // ---------------------------------------------------------------- the path is a pipe

  /** The answers on the path, present and future, oldest first. */
  function Contents(p: Path, provider: Provider): seq<seq<byte>> {
    (if p.worker.Responding? then [p.worker.response] else [])
    + p.rx.items
    + (if p.worker.Requesting? then [provider(p.worker.request)] else [])
    + seq(|p.tx.items|, i requires 0 <= i < |p.tx.items| => provider(p.tx.items[i]))
  }

  /** The path holds the answers to the latest requests; what the client was sent answers earlier ones, in order. */
  ghost predicate Flow(w: World, provider: Provider) {
    var c := w.sys.conn;
    var n := |c.log.forwarded|;
    && c.site.hasDownstream
    && !w.path.tx.stopped && !w.path.rx.stopped
    && InPath(w.path) <= n
    && Contents(w.path, provider) == AnswersTo(provider, c.log.forwarded)[n - InPath(w.path)..]
    && IsSubsequence(Diagnostics(c.log.outbox),
                     Replies(c.site.server, c.client, provider, c.log.forwarded[..n - InPath(w.path)]))
  }

  /** Every request that left the path was answered. */
  ghost predicate Exact(w: World, provider: Provider) {
    var c := w.sys.conn;
    var n := |c.log.forwarded|;
    && InPath(w.path) <= n
    && Diagnostics(c.log.outbox) ==
       Replies(c.site.server, c.client, provider, c.log.forwarded[..n - InPath(w.path)])
  }

  lemma AcceptContents(p: Path, msg: DoIPMessage, provider: Provider)
    requires !p.tx.stopped
    ensures var p' := Accept(p, msg);
      && InPath(p') == InPath(p) + 1
      && Contents(p', provider) == Contents(p, provider) + [provider(msg.DiagnosticPayload())]
  {
  }

  predicate IsQuietStep(h: Happening) {
    h.PopsRequest? || h.Answers? || h.PopsResponse? || h.Resets?
  }

  lemma WorkerContents(w: World, h: Happening, provider: Provider)
    requires CanHappen(w, h) && IsQuietStep(h) && !w.path.rx.stopped
    ensures var p, p' := w.path, Happens(w, h, provider).path;
      && InPath(p') == InPath(p) && Contents(p', provider) == Contents(p, provider)
      && p'.tx.stopped == p.tx.stopped && p'.rx.stopped == p.rx.stopped
      && p'.callback == (p.callback && !h.Resets?)
  {
    match h {
      case PopsRequest => TakeRequestContents(w.path, provider);
      case Answers => AnswerContents(w.path, provider);
      case PopsResponse => TakeResponseContents(w.path, provider);
      case Resets =>
    }
  }

  lemma TakeRequestContents(p: Path, provider: Provider)
    requires p.worker.LooksAtTx?
    ensures InPath(TakeRequest(p)) == InPath(p) && Contents(TakeRequest(p), provider) == Contents(p, provider)
  {
  }

  lemma AnswerContents(p: Path, provider: Provider)
    requires p.worker.Requesting? && !p.rx.stopped
    ensures InPath(Answer(p, provider)) == InPath(p) && Contents(Answer(p, provider), provider) == Contents(p, provider)
  {
  }

  lemma TakeResponseContents(p: Path, provider: Provider)
    requires p.worker.LooksAtRx?
    ensures InPath(TakeResponse(p)) == InPath(p) && Contents(TakeResponse(p), provider) == Contents(p, provider)
  {
  }

  lemma CallContents(p: Path, provider: Provider)
    requires p.worker.Responding?
    ensures InPath(Call(p)) == InPath(p) - 1
    ensures Contents(p, provider) == [p.worker.response] + Contents(Call(p), provider)
  {
  }

  lemma SameFlow(w: World, w': World, provider: Provider)
    requires Flow(w, provider) && Aside(w.sys.conn, w'.sys.conn) && w'.path == w.path
    ensures Flow(w', provider)
    ensures Exact(w, provider) ==> Exact(w', provider)
  {
    var c, c' := w.sys.conn, w'.sys.conn;
    if c.log.forwarded == [] {
      assert Replies(c'.site.server, c'.client, provider, []) == Replies(c.site.server, c.client, provider, []);
    }
  }

  lemma RequestFlow(w: World, w': World, msg: DoIPMessage, provider: Provider)
    requires Flow(w, provider) && Requested(w, w', msg)
    ensures Flow(w', provider)
    ensures InPath(w'.path) == InPath(w.path) + 1
    ensures Exact(w, provider) ==> Exact(w', provider)
  {
    var requests := w.sys.conn.log.forwarded;
    var m := |requests| - InPath(w.path);
    AcceptContents(w.path, msg, provider);
    assert (requests + [msg])[..m] == requests[..m];
    AnswersSnoc(provider, requests, msg, m);
  }

  lemma AnswersSnoc(provider: Provider, requests: seq<DoIPMessage>, msg: DoIPMessage, m: nat)
    requires m <= |requests|
    ensures AnswersTo(provider, requests + [msg])[m..] ==
      AnswersTo(provider, requests)[m..] + [provider(msg.DiagnosticPayload())]
  {
  }

  lemma WorkerFlow(w: World, h: Happening, provider: Provider)
    requires CanHappen(w, h) && IsQuietStep(h) && Flow(w, provider)
    ensures Flow(Happens(w, h, provider), provider)
    ensures Exact(w, provider) ==> Exact(Happens(w, h, provider), provider)
  {
    WorkerContents(w, h, provider);
  }

  lemma CallFlow(w: World, w': World, provider: Provider)
    requires w.path.worker.Responding? && Flow(w, provider) && HandedOver(w, w')
    ensures Flow(w', provider)
    ensures Exact(w, provider) && w.path.callback ==> Exact(w', provider)
  {
    var c := w.sys.conn;
    var m := |c.log.forwarded| - InPath(w.path);
    var response := w.path.worker.response;
    CallContents(w.path, provider);
    OldestAnswer(w.path, AnswersTo(provider, c.log.forwarded), m, provider);
    RepliesSnoc(c.site.server, c.client, provider, c.log.forwarded, m);
    SubsequenceSnoc(Diagnostics(c.log.outbox), Replies(c.site.server, c.client, provider, c.log.forwarded[..m]),
                    MakeDiagnosticMessage(c.site.server, c.client, response));
  }

  lemma OldestAnswer(p: Path, answers: seq<seq<byte>>, m: nat, provider: Provider)
    requires p.worker.Responding?
    requires m < |answers| && Contents(p, provider) == answers[m..]
    ensures p.worker.response == answers[m] && Contents(Call(p), provider) == answers[m + 1..]
  {
    CallContents(p, provider);
    assert answers[m..] == [answers[m]] + answers[m + 1..];
  }

  /** Every happening keeps the flow, and unless it drops a response nothing is lost. */
  lemma HappeningFlow(w: World, h: Happening, provider: Provider)
    requires CanHappen(w, h) && Flow(w, provider) && Gate(w.sys) && ClosedOnce(w.sys.conn)
    ensures var w' := Happens(w, h, provider);
      && Flow(w', provider)
      && (Exact(w, provider) && !(h.Calls? && !w.path.callback) ==> Exact(w', provider))
  {
    match h {
      case Client(_, _, _) =>
        ClientEffect(w, h, provider);
        if IsRequest(w, h) {
          RequestFlow(w, Happens(w, h, provider), h.msg, provider);
        } else {
          SameFlow(w, Happens(w, h, provider), provider);
        }
      case Elsewhere(_) =>
        ElsewhereEffect(w, h, provider);
        SameFlow(w, Happens(w, h, provider), provider);
      case Calls(_) =>
        HandOverEffect(w, h, provider);
        CallFlow(w, Happens(w, h, provider), provider);
      case _ => WorkerFlow(w, h, provider);
    }
  }

  /** What a happening does to the number of requests on the path and to the forwarded messages. */
  lemma HappeningForwards(w: World, h: Happening, provider: Provider)
    requires CanHappen(w, h) && Flow(w, provider) && Gate(w.sys) && ClosedOnce(w.sys.conn)
    ensures var c, w' := w.sys.conn, Happens(w, h, provider);
      && w'.sys.conn.log.forwarded == c.log.forwarded + (if IsRequest(w, h) then [h.msg] else [])
      && w'.sys.conn.site == c.site && (w'.sys.conn.client == c.client || c.log.forwarded == [])
      && InPath(w'.path) ==
         if IsRequest(w, h) then InPath(w.path) + 1 else if h.Calls? then InPath(w.path) - 1 else InPath(w.path)
  {
    match h {
      case Client(_, _, _) =>
        ClientEffect(w, h, provider);
        if IsRequest(w, h) {
          AcceptContents(w.path, h.msg, provider);
        }
      case Elsewhere(_) => ElsewhereEffect(w, h, provider);
      case Calls(_) => HandOverEffect(w, h, provider);
      case _ => WorkerContents(w, h, provider);
    }
  }

  /** A happening of the gateway is a step of the connection, or none. */
  lemma HappeningIsStep(w: World, h: Happening, provider: Provider)
    requires CanHappen(w, h) && Flow(w, provider)
    ensures var w' := Happens(w, h, provider);
      w'.sys == w.sys || exists e :: Enabled(w.sys, e) && w'.sys == Step(w.sys, e)
  {
    match h {
      case Client(msg, verdict, now) => assert Enabled(w.sys, Received(msg, AppReply(verdict, Pending), now));
      case Elsewhere(e) => assert Enabled(w.sys, e);
      case Calls(now) =>
        if w.path.callback {
          var e := Response(w.path.worker.response, Handled, now);
          assert Enabled(w.sys, e) && Happens(w, h, provider).sys == Step(w.sys, e);
        }
      case _ =>
    }
  }

  lemma HappeningEvolves(w: World, h: Happening, provider: Provider)
    requires CanHappen(w, h) && Flow(w, provider) && Gate(w.sys) && ClosedOnce(w.sys.conn)
    ensures var w' := Happens(w, h, provider);
      Gate(w'.sys) && ClosedOnce(w'.sys.conn) && Evolves(w.sys.conn, w'.sys.conn)
  {
    HappeningIsStep(w, h, provider);
    if e :| Enabled(w.sys, e) && Happens(w, h, provider).sys == Step(w.sys, e) {
      StepEvolves(w.sys, e);
      StepKeepsGate(w.sys, e);
    }
  }

  /** The invariant of every run of the gateway. */
  ghost predicate Sound(w: World, provider: Provider) {
    Flow(w, provider) && ClosedOnce(w.sys.conn) && Gate(w.sys)
  }

  lemma FlowStep(w: World, h: Happening, provider: Provider)
    requires CanHappen(w, h) && Sound(w, provider)
    ensures Sound(Happens(w, h, provider), provider)
  {
    HappeningFlow(w, h, provider);
    HappeningEvolves(w, h, provider);
  }

  lemma StartIsSound(w: World, server: u16, writesLeft: nat, now: int, provider: Provider)
    requires w == World(Start(Site(server, true), writesLeft, now), Idle())
    ensures Sound(w, provider) && w.sys.conn.log.forwarded == [] && w.sys.conn.link.sent == []
    ensures w.sys.conn.phase.state == WaitRoutingActivation
  {
    StartIsClosedOnce(Site(server, true), writesLeft, now);
  }

  lemma StartOfRun(worlds: seq<World>, happenings: seq<Happening>, provider: Provider)
    requires GatewayRun(worlds, happenings, provider)
    ensures var w := worlds[0];
      && Sound(w, provider) && w.path == Idle()
      && w.sys.conn.log.forwarded == [] && w.sys.conn.link.sent == []
      && w.sys.conn.phase.state == WaitRoutingActivation
  {
    var server, writesLeft, now :| worlds[0] == World(Start(Site(server, true), writesLeft, now), Idle());
    StartIsSound(worlds[0], server, writesLeft, now, provider);
  }

  lemma FlowRunStep(worlds: seq<World>, happenings: seq<Happening>, provider: Provider, k: nat)
    requires GatewayRun(worlds, happenings, provider) && k < |happenings| && Sound(worlds[k], provider)
    ensures Sound(worlds[k + 1], provider)
  {
    FlowStep(worlds[k], happenings[k], provider);
  }

  ghost predicate SoundAt(worlds: seq<World>, provider: Provider, k: nat) {
    k < |worlds| && Sound(worlds[k], provider)
  }

  lemma {:induction false} SoundInduction(worlds: seq<World>, provider: Provider, k: nat)
    requires SoundAt(worlds, provider, 0)
    requires forall j: nat :: j < k && SoundAt(worlds, provider, j) ==> SoundAt(worlds, provider, j + 1)
    ensures SoundAt(worlds, provider, k)
  {
    if k > 0 {
      SoundInduction(worlds, provider, k - 1);
    }
  }

  lemma FlowRun(worlds: seq<World>, happenings: seq<Happening>, provider: Provider, k: nat)
    requires GatewayRun(worlds, happenings, provider) && k < |worlds|
    ensures Sound(worlds[k], provider)
  {
    StartOfRun(worlds, happenings, provider);
    forall j: nat | j < k && SoundAt(worlds, provider, j)
      ensures SoundAt(worlds, provider, j + 1)
    {
      FlowRunStep(worlds, happenings, provider, j);
    }
    SoundInduction(worlds, provider, k);
  }

  /** A step of the run forwards the request it brings, if it brings one. */
  ghost predicate ForwardLaw(worlds: seq<World>, happenings: seq<Happening>, k: nat)
    requires k < |happenings| < |worlds|
  {
    worlds[k + 1].sys.conn.log.forwarded ==
      worlds[k].sys.conn.log.forwarded + (if IsRequest(worlds[k], happenings[k]) then [happenings[k].msg] else [])
  }

  lemma ForwardStep(worlds: seq<World>, happenings: seq<Happening>, provider: Provider, k: nat)
    requires GatewayRun(worlds, happenings, provider) && k < |happenings|
    ensures ForwardLaw(worlds, happenings, k)
  {
    FlowRun(worlds, happenings, provider, k);
    HappeningForwards(worlds[k], happenings[k], provider);
  }

  lemma {:induction false} RequestsInduction(worlds: seq<World>, happenings: seq<Happening>, k: nat)
    requires k <= |happenings| < |worlds| && worlds[0].sys.conn.log.forwarded == []
    requires forall j: nat :: j < k ==> ForwardLaw(worlds, happenings, j)
    ensures worlds[k].sys.conn.log.forwarded == Requests(worlds, happenings, k)
  {
    if k > 0 {
      RequestsInduction(worlds, happenings, k - 1);
      assert ForwardLaw(worlds, happenings, k - 1);
    }
  }

  /** What was forwarded is what was accepted. */
  lemma ForwardedAreRequests(worlds: seq<World>, happenings: seq<Happening>, provider: Provider, k: nat)
    requires GatewayRun(worlds, happenings, provider) && k < |worlds|
    ensures worlds[k].sys.conn.log.forwarded == Requests(worlds, happenings, k)
  {
    StartOfRun(worlds, happenings, provider);
    forall j: nat | j < k
      ensures ForwardLaw(worlds, happenings, j)
    {
      ForwardStep(worlds, happenings, provider, j);
    }
    RequestsInduction(worlds, happenings, k);
  }

  // ---------------------------------------------------------------- main results

  /** Every answer in order, at most one missing: the diagnostic messages the client got are a prefix of the replies to
      the requests, and while the transport is up only a request on the path can lack its reply. */
  ghost predicate IsServed(w: World, provider: Provider, requests: seq<DoIPMessage>) {
    var c := w.sys.conn;
    var owed := Replies(c.site.server, c.client, provider, requests);
    && Diagnostics(c.link.sent) <= owed
    && InPath(w.path) <= 1
    && (c.link.active ==> |Diagnostics(c.link.sent)| + InPath(w.path) == |owed|)
  }

  ghost predicate Served(worlds: seq<World>, happenings: seq<Happening>, provider: Provider, k: nat)
    requires k <= |happenings| < |worlds|
  {
    IsServed(worlds[k], provider, Requests(worlds, happenings, k))
  }

  /** The inductive form: nothing is lost while the transport is up, and what got through before that is in order. */
  ghost predicate Tight(w: World, provider: Provider) {
    var c := w.sys.conn;
    && InPath(w.path) <= 1
    && Diagnostics(c.link.sent) <= Replies(c.site.server, c.client, provider, c.log.forwarded)
    && (c.link.active ==> Exact(w, provider))
  }

  lemma RepliesOfPrefix(server: u16, client: u16, provider: Provider, requests: seq<DoIPMessage>, m: nat)
    requires m <= |requests|
    ensures Replies(server, client, provider, requests[..m]) == Replies(server, client, provider, requests)[..m]
  {
  }

  lemma ExactIsPrefix(w: World, provider: Provider)
    requires ClosedOnce(w.sys.conn) && Exact(w, provider)
    ensures var c := w.sys.conn;
      Diagnostics(c.link.sent) <= Replies(c.site.server, c.client, provider, c.log.forwarded)
  {
    var c := w.sys.conn;
    OfTypesOfPrefix(c.link.sent, c.log.outbox, DIAGNOSTIC);
    RepliesOfPrefix(c.site.server, c.client, provider, c.log.forwarded, |c.log.forwarded| - InPath(w.path));
  }

  lemma TightIsServed(w: World, provider: Provider)
    requires ClosedOnce(w.sys.conn) && Tight(w, provider)
    ensures IsServed(w, provider, w.sys.conn.log.forwarded)
  {
  }

  lemma RepliesGrow(c: Conn, c': Conn, provider: Provider)
    requires c'.site == c.site && (c'.client == c.client || c.log.forwarded == [])
    requires c.log.forwarded <= c'.log.forwarded
    ensures Replies(c.site.server, c.client, provider, c.log.forwarded) <=
      Replies(c'.site.server, c'.client, provider, c'.log.forwarded)
  {
  }

  lemma TightStep(w: World, h: Happening, provider: Provider)
    requires CanHappen(w, h) && Sound(w, provider) && Tight(w, provider) && !Crowds(w, h) && !Drops(w, h)
    ensures Tight(Happens(w, h, provider), provider)
  {
    var w' := Happens(w, h, provider);
    HappeningForwards(w, h, provider);
    HappeningEvolves(w, h, provider);
    HappeningFlow(w, h, provider);
    RepliesGrow(w.sys.conn, w'.sys.conn, provider);
    if w.sys.conn.link.active {
      ExactIsPrefix(w', provider);
    }
  }

  lemma TightRunStep(worlds: seq<World>, happenings: seq<Happening>, provider: Provider, k: nat)
    requires GatewayRun(worlds, happenings, provider) && k < |happenings| && Tight(worlds[k], provider)
    requires !Crowds(worlds[k], happenings[k]) && !Drops(worlds[k], happenings[k])
    ensures Tight(worlds[k + 1], provider)
  {
    FlowRun(worlds, happenings, provider, k);
    TightStep(worlds[k], happenings[k], provider);
  }

  ghost predicate TightAt(worlds: seq<World>, provider: Provider, k: nat) {
    k < |worlds| && Tight(worlds[k], provider)
  }

  lemma {:induction false} TightInduction(worlds: seq<World>, provider: Provider, k: nat)
    requires TightAt(worlds, provider, 0)
    requires forall j: nat :: j < k && TightAt(worlds, provider, j) ==> TightAt(worlds, provider, j + 1)
    ensures TightAt(worlds, provider, k)
  {
    if k > 0 {
      TightInduction(worlds, provider, k - 1);
    }
  }

  lemma TightRun(worlds: seq<World>, happenings: seq<Happening>, provider: Provider, k: nat)
    requires GatewayRun(worlds, happenings, provider) && NoneSpoils(worlds, happenings, k)
    ensures Tight(worlds[k], provider)
  {
    StartOfRun(worlds, happenings, provider);
    forall j: nat | j < k && TightAt(worlds, provider, j)
      ensures TightAt(worlds, provider, j + 1)
    {
      TightRunStep(worlds, happenings, provider, j);
    }
    TightInduction(worlds, provider, k);
  }

  lemma UnspoiledIsServed(worlds: seq<World>, happenings: seq<Happening>, provider: Provider, k: nat)
    requires GatewayRun(worlds, happenings, provider) && NoneSpoils(worlds, happenings, k)
    ensures Served(worlds, happenings, provider, k)
  {
    FlowRun(worlds, happenings, provider, k);
    TightRun(worlds, happenings, provider, k);
    ForwardedAreRequests(worlds, happenings, provider, k);
    TightIsServed(worlds[k], provider);
  }

  /** One step is enough to see the failure. */
  lemma SpoilingShows(w: World, h: Happening, provider: Provider)
    requires CanHappen(w, h) && Sound(w, provider)
    requires IsServed(w, provider, w.sys.conn.log.forwarded)
    requires var w' := Happens(w, h, provider); IsServed(w', provider, w'.sys.conn.log.forwarded)
    ensures !Crowds(w, h) && !Drops(w, h)
  {
    HappeningForwards(w, h, provider);
  }

  lemma SpoilingShowsInRun(worlds: seq<World>, happenings: seq<Happening>, provider: Provider, k: nat)
    requires GatewayRun(worlds, happenings, provider) && k < |happenings|
    requires Served(worlds, happenings, provider, k) && Served(worlds, happenings, provider, k + 1)
    ensures !Crowds(worlds[k], happenings[k]) && !Drops(worlds[k], happenings[k])
  {
    FlowRun(worlds, happenings, provider, k);
    ForwardedAreRequests(worlds, happenings, provider, k);
    ForwardedAreRequests(worlds, happenings, provider, k + 1);
    SpoilingShows(worlds[k], happenings[k], provider);
  }

  /** End to end, over every run of the gateway: the client is served, at every moment up to n, exactly if before n no
      request is accepted while another is on the path, and no response is dropped for want of a callback while the
      transport is up. */
  lemma EndToEnd(worlds: seq<World>, happenings: seq<Happening>, provider: Provider, n: nat)
    requires GatewayRun(worlds, happenings, provider) && n < |worlds|
    ensures NoneSpoils(worlds, happenings, n) <==>
      forall k :: 0 <= k <= n ==> Served(worlds, happenings, provider, k)
  {
    if NoneSpoils(worlds, happenings, n) {
      forall k | 0 <= k <= n
        ensures Served(worlds, happenings, provider, k)
      {
        UnspoiledIsServed(worlds, happenings, provider, k);
      }
    }
    if forall k :: 0 <= k <= n ==> Served(worlds, happenings, provider, k) {
      forall k | 0 <= k < n
        ensures !Crowds(worlds[k], happenings[k]) && !Drops(worlds[k], happenings[k])
      {
        assert Served(worlds, happenings, provider, k) && Served(worlds, happenings, provider, k + 1);
        SpoilingShowsInRun(worlds, happenings, provider, k);
      }
    }
  }

  /** Whatever happens: answers can be lost, but those the client gets are right and in order. */
  lemma AnswersStayInOrder(worlds: seq<World>, happenings: seq<Happening>, provider: Provider, k: nat)
    requires GatewayRun(worlds, happenings, provider) && k < |worlds|
    ensures var c := worlds[k].sys.conn;
      IsSubsequence(Diagnostics(c.link.sent),
                    Replies(c.site.server, c.client, provider, Requests(worlds, happenings, k)))
  {
    FlowRun(worlds, happenings, provider, k);
    ForwardedAreRequests(worlds, happenings, provider, k);
    FlowIsOrdered(worlds[k], provider);
  }

  lemma FlowIsOrdered(w: World, provider: Provider)
    requires Sound(w, provider)
    ensures var c := w.sys.conn;
      IsSubsequence(Diagnostics(c.link.sent), Replies(c.site.server, c.client, provider, c.log.forwarded))
  {
    var c := w.sys.conn;
    var m := |c.log.forwarded| - InPath(w.path);
    var owed := Replies(c.site.server, c.client, provider, c.log.forwarded);
    RepliesOfPrefix(c.site.server, c.client, provider, c.log.forwarded, m);
    OfTypesOfPrefix(c.link.sent, c.log.outbox, DIAGNOSTIC);
    PrefixOfSubsequence(Diagnostics(c.link.sent), Diagnostics(c.log.outbox), owed[..m]);
    SubsequenceOfPrefix(Diagnostics(c.link.sent), owed[..m], owed);
  }

  function UdsProvider(handlers: map<byte, Uds.Handler>): Provider
    requires Uds.Safe(handlers)
  {
    request => Uds.Reply(handlers, request)
  }

  /** The reply of the UDS responder to a request, as the client sees it. */
  ghost predicate CarriesReply(answer: DoIPMessage, request: seq<byte>, handlers: map<byte, Uds.Handler>)
    requires Uds.Safe(handlers)
  {
    && answer.DiagnosticPayload() == Uds.Reply(handlers, request)
    && (answer.DiagnosticPayload() == [] <==> request == [])
    && (request != [] ==>
        || Uds.IsNegative(answer.DiagnosticPayload(), request[0])
        || Uds.IsPositive(answer.DiagnosticPayload(), request[0]))
    && (request != [] && !Uds.Reaches(handlers, request) ==>
        answer.DiagnosticPayload() == [0x7F, request[0], Uds.RefusalCode(request)])
  }

  /** With the UDS responder as the provider, on every run: each diagnostic message the client gets goes from server to
      client and carries the reply, of the shape UDS prescribes, to a request of its own, later ones to later requests;
      the i-th to the i-th request as long as EndToEnd's condition holds. */
  lemma EndToEndUds(worlds: seq<World>, happenings: seq<Happening>, handlers: map<byte, Uds.Handler>, k: nat)
      returns (positions: seq<nat>)
    requires Uds.Safe(handlers) && GatewayRun(worlds, happenings, UdsProvider(handlers)) && k < |worlds|
    ensures var c := worlds[k].sys.conn;
      var requests := Requests(worlds, happenings, k);
      var answers := Diagnostics(c.link.sent);
      && |positions| == |answers| && Positions(positions, |requests|)
      && (forall i :: 0 <= i < |answers| ==>
          && answers[i].SourceAddress() == Some(c.site.server) && answers[i].TargetAddress() == Some(c.client)
          && CarriesReply(answers[i], requests[positions[i]].DiagnosticPayload(), handlers))
    ensures NoneSpoils(worlds, happenings, k) ==> forall i :: 0 <= i < |positions| ==> positions[i] == i
  {
    var provider := UdsProvider(handlers);
    var c := worlds[k].sys.conn;
    var requests := Requests(worlds, happenings, k);
    var answers := Diagnostics(c.link.sent);
    var owed := Replies(c.site.server, c.client, provider, requests);
    if NoneSpoils(worlds, happenings, k) {
      UnspoiledIsServed(worlds, happenings, provider, k);
      positions := seq(|answers|, i => i);
    } else {
      AnswersStayInOrder(worlds, happenings, provider, k);
      positions := SubsequencePositions(answers, owed);
    }
    forall i | 0 <= i < |answers|
      ensures answers[i].SourceAddress() == Some(c.site.server) && answers[i].TargetAddress() == Some(c.client)
      ensures CarriesReply(answers[i], requests[positions[i]].DiagnosticPayload(), handlers)
    {
      var request := requests[positions[i]].DiagnosticPayload();
      assert answers[i] == owed[positions[i]];
      DiagnosticRoundTrip(c.site.server, c.client, Uds.Reply(handlers, request));
      Uds.ReplyShape(handlers, request);
      if request != [] && !Uds.Reaches(handlers, request) {
        Uds.RefusalCodes(handlers, request);
      }
    }
  }

  // ---------------------------------------------------------------- one request at a time

  /** At most one request on the path, the callback slot set exactly if there is one or the slot is about to be reset,
      and an open connection waiting for the downstream side exactly if there is one. */
  ghost predicate Coupled(w: World) {
    && InPath(w.path) <= 1
    && (w.path.callback <==> InPath(w.path) == 1 || w.path.worker.Resetting?)
    && (w.sys.conn.status.open ==>
        (w.sys.conn.phase.state == WaitDownstreamResponse <==> InPath(w.path) == 1))
  }

  lemma HappeningCoupled(w: World, h: Happening, provider: Provider)
    requires CanHappen(w, h) && Sound(w, provider) && Sound(Happens(w, h, provider), provider)
    requires Coupled(w)
    ensures Coupled(Happens(w, h, provider)) <==> !Stale(w, h) && !Forgets(w, h)
  {
    match h {
      case Client(_, _, _) => ClientCoupled(w, h, provider);
      case Elsewhere(_) => ElsewhereCoupled(w, h, provider);
      case Calls(_) =>
        HandOverEffect(w, h, provider);
        CallCoupled(w, Happens(w, h, provider), provider);
      case _ => WorkerCoupled(w, h, provider);
    }
  }

  lemma ClientCoupled(w: World, h: Happening, provider: Provider)
    requires CanHappen(w, h) && h.Client? && Sound(w, provider) && Coupled(w)
    requires ClosedOnce(Happens(w, h, provider).sys.conn)
    ensures Coupled(Happens(w, h, provider))
  {
    ClientEffect(w, h, provider);
    if IsRequest(w, h) {
      RequestCoupled(w, Happens(w, h, provider), h.msg, provider);
    } else {
      StillCoupled(w, Happens(w, h, provider));
    }
  }

  lemma StillCoupled(w: World, w': World)
    requires Coupled(w) && w'.path == w.path && StaysPut(w.sys.conn, w'.sys.conn)
    requires ClosedOnce(w.sys.conn) && ClosedOnce(w'.sys.conn)
    ensures Coupled(w')
  {
  }

  lemma WorkerCoupled(w: World, h: Happening, provider: Provider)
    requires CanHappen(w, h) && IsQuietStep(h) && Coupled(w) && !w.path.rx.stopped
    ensures Coupled(Happens(w, h, provider)) <==> !Forgets(w, h)
  {
    WorkerContents(w, h, provider);
  }

  lemma RequestCoupled(w: World, w': World, msg: DoIPMessage, provider: Provider)
    requires Coupled(w) && Flow(w, provider) && Requested(w, w', msg) && ClosedOnce(w.sys.conn)
    requires w.sys.conn.phase.state == RoutingActivated && w.sys.conn.link.active
    ensures Coupled(w')
  {
    AcceptContents(w.path, msg, provider);
  }

  lemma CallCoupled(w: World, w': World, provider: Provider)
    requires w.path.worker.Responding? && Coupled(w) && HandedOver(w, w')
    ensures Coupled(w')
  {
    CallContents(w.path, provider);
  }

  lemma ElsewhereCoupled(w: World, h: Happening, provider: Provider)
    requires CanHappen(w, h) && h.Elsewhere? && Coupled(w)
    requires ClosedOnce(w.sys.conn) && ClosedOnce(Happens(w, h, provider).sys.conn)
    ensures Coupled(Happens(w, h, provider)) <==> !Stale(w, h)
  {
    if h.event.Callback? {
      if Stale(w, h) {
        StaleEffect(w.sys.conn, w.sys.due[0], h.event.now);
      } else {
        TimeoutStaysPut(w.sys.conn, w.sys.due[0], h.event.now);
      }
    }
  }

  lemma TimeoutStaysPut(c: Conn, id: TimerId, now: int)
    requires c.phase.state == WaitDownstreamResponse && !c.status.closing ==> !LeavesTheWait(c, id)
    ensures var c' := HandleTimeout(c, id, now);
      if c.status.closing then c'.status.closing else StaysPut(c, c')
  {
  }

  lemma StaleEffect(c: Conn, id: TimerId, now: int)
    requires c.phase.state == WaitDownstreamResponse && !c.status.closing && LeavesTheWait(c, id)
    ensures var c' := HandleTimeout(c, id, now);
      c'.phase.state != WaitDownstreamResponse && !c'.status.closing
  {
  }

  lemma CoupledStep(worlds: seq<World>, happenings: seq<Happening>, provider: Provider, k: nat)
    requires GatewayRun(worlds, happenings, provider) && k < |happenings| && Coupled(worlds[k])
    ensures Coupled(worlds[k + 1]) <==> !Stale(worlds[k], happenings[k]) && !Forgets(worlds[k], happenings[k])
  {
    FlowRun(worlds, happenings, provider, k);
    FlowRun(worlds, happenings, provider, k + 1);
    HappeningCoupled(worlds[k], happenings[k], provider);
  }

  ghost predicate CoupledAt(worlds: seq<World>, k: nat) {
    k < |worlds| && Coupled(worlds[k])
  }

  lemma {:induction false} CoupledInduction(worlds: seq<World>, k: nat)
    requires CoupledAt(worlds, 0)
    requires forall j: nat :: j < k && CoupledAt(worlds, j) ==> CoupledAt(worlds, j + 1)
    ensures CoupledAt(worlds, k)
  {
    if k > 0 {
      CoupledInduction(worlds, k - 1);
    }
  }

  lemma CoupledRun(worlds: seq<World>, happenings: seq<Happening>, provider: Provider, k: nat)
    requires GatewayRun(worlds, happenings, provider) && NoRace(worlds, happenings, k)
    ensures Coupled(worlds[k])
  {
    StartOfRun(worlds, happenings, provider);
    forall j: nat | j < k && CoupledAt(worlds, j)
      ensures CoupledAt(worlds, j + 1)
    {
      CoupledStep(worlds, happenings, provider, j);
    }
    CoupledInduction(worlds, k);
  }

  /** Over every run of the gateway: one request at a time, at every moment up to n, exactly if before n no callback
      takes the open connection out of the wait and the worker resets no slot that was set for a later request. */
  lemma OneOutstandingRequest(worlds: seq<World>, happenings: seq<Happening>, provider: Provider, n: nat)
    requires GatewayRun(worlds, happenings, provider) && n < |worlds|
    ensures NoRace(worlds, happenings, n) <==> forall k :: 0 <= k <= n ==> Coupled(worlds[k])
  {
    if NoRace(worlds, happenings, n) {
      forall k | 0 <= k <= n
        ensures Coupled(worlds[k])
      {
        CoupledRun(worlds, happenings, provider, k);
      }
    }
    if forall k :: 0 <= k <= n ==> Coupled(worlds[k]) {
      forall k | 0 <= k < n
        ensures !Stale(worlds[k], happenings[k]) && !Forgets(worlds[k], happenings[k])
      {
        assert Coupled(worlds[k]) && Coupled(worlds[k + 1]);
        CoupledStep(worlds, happenings, provider, k);
      }
    }
  }

  lemma CoupledIsUnspoiled(w: World, h: Happening)
    requires CanHappen(w, h) && ClosedOnce(w.sys.conn) && Coupled(w)
    ensures !Crowds(w, h) && !Drops(w, h)
  {
  }

  /** The two races are the only causes: a run without a stale callback and without a forgotten request serves its
      client. */
  lemma SpoilingNeedsARace(worlds: seq<World>, happenings: seq<Happening>, provider: Provider, n: nat)
    requires GatewayRun(worlds, happenings, provider) && NoRace(worlds, happenings, n)
    ensures NoneSpoils(worlds, happenings, n)
    ensures forall k :: 0 <= k <= n ==> Served(worlds, happenings, provider, k)
  {
    OneOutstandingRequest(worlds, happenings, provider, n);
    forall k | 0 <= k < n
      ensures !Crowds(worlds[k], happenings[k]) && !Drops(worlds[k], happenings[k])
    {
      FlowRun(worlds, happenings, provider, k);
      assert Coupled(worlds[k]);
      CoupledIsUnspoiled(worlds[k], happenings[k]);
    }
    EndToEnd(worlds, happenings, provider, n);
  }

  // ---------------------------------------------------------------- the worker's code

  /** The response callback, if the slot is set. */
  method InvokeCallback(conn: DoIPConnection, model: DoIPDownstreamServerModel, response: seq<byte>, now: int)
      returns (called: bool)
    requires model.Valid() && model.worker == Responding(response)
    modifies model`worker
    modifies conn, conn.timerManager, conn.transport`isActive
    modifies conn.transport.socket`writesLeft, conn.transport.socket`written
    ensures called == old(model.downstreamCallback) && model.View() == Call(old(model.View()))
    ensures conn.View() == Deliver(old(conn.View()), old(model.View()), now)
  {
    called := model.downstreamCallback;
    if called {
      conn.ReceiveDownstreamResponse(response, Handled, now);
    }
    model.worker := if called then Resetting else LooksAtTx;
  }

  /** A turn of the worker that nothing interrupts: the steps PopsRequest, Answers, PopsResponse, Calls, Resets in this
      order, as far as there is something to do. */
  function Turn(c: Conn, p: Path, provider: Provider, now: int): (Conn, Path)
    requires p.worker.LooksAtTx?
  {
    var fetched := TakeRequest(p);
    var answered := if fetched.worker.Requesting? then Answer(fetched, provider) else fetched;
    var taken := TakeResponse(answered);
    if !taken.worker.Responding? then (c, taken)
    else (Deliver(c, taken, now), if taken.callback then Reset(Call(taken)) else Call(taken))
  }

  method DownstreamThread(conn: DoIPConnection, model: DoIPDownstreamServerModel, provider: Provider, now: int)
    requires model.Valid() && model.worker == LooksAtTx
    modifies model, model.tx, model.rx
    modifies conn, conn.timerManager, conn.transport`isActive
    modifies conn.transport.socket`writesLeft, conn.transport.socket`written
    ensures (conn.View(), model.View()) == Turn(old(conn.View()), old(model.View()), provider, now)
  {
    var request := model.PopRequest();
    if request.Some? {
      model.HandleDownstreamResponse(provider(request.value));
    }
    var response := model.PopResponse();
    if response.Some? {
      var called := InvokeCallback(conn, model, response.value, now);
      if called {
        model.ResetCallback();
      }
    }
  }
}
