/** DoIPServer::connectionHandlerThread: receive, dispatch, close (src/DoIPServer.cpp). */
module Server {
  import opened Options
  import opened Bytes
  import opened Message
  import opened Transport
  import opened ConnectionSpec
  import opened Connection
  import opened Runs
  import opened StateTimers
  import opened NullHandler
  import opened PayloadTypes
  import opened RouteOpening

  /** What the application would answer, and the clock, during the k-th iteration. */
  type Oracle = nat -> (AppReply, int)

  /** What is done with a message in the k-th iteration. */
  type Handler = (Conn, DoIPMessage, nat) -> Option<Conn>

  function Handling(oracle: Oracle): Handler {
    (c: Conn, msg: DoIPMessage, k: nat) => HandleMessage(c, msg, oracle(k).0, oracle(k).1)
  }

  /** How the loop ends: at which iteration and for which reason, or by an exception out of the null handler. */
  datatype Ending = Stopped(reason: CloseReason, iteration: nat) | Crash

  /** What the loop does to the connection while m_tcpRunning is read as true `running` times, given the messages in the
      byte stream. */
  function Loop(c: Conn, frames: seq<DoIPMessage>, running: nat, k: nat, handler: Handler): (Conn, Ending)
    decreases running
  {
    if running == 0 then (c, Stopped(ApplicationRequest, k))
    else if !c.link.active || frames == [] then (c.(link := c.link.(active := false)), Stopped(SocketError, k))
    else match handler(c, frames[0], k)
      case None => (c, Crash)
      case Some(c') => Loop(c', frames[1..], running - 1, k + 1, handler)
  }

  /** The whole thread: the loop, then the close. The flag tells that a message met the null handler. */
  function Drive(c: Conn, frames: seq<DoIPMessage>, running: nat, oracle: Oracle): (Conn, bool) {
    match Loop(c, frames, running, 0, Handling(oracle))
    case (c', Stopped(reason, k)) => (CloseConnection(c', reason, oracle(k).1), false)
    case (c', Crash) => (c', true)
  }

  datatype Iteration = EndOfStream | Dispatched | Crashed

  /** Loop, unfolded once over the bytes instead of the messages. */
  lemma LoopStep(c: Conn, stream: seq<byte>, running: nat, k: nat, handler: Handler)
    requires running > 0
    ensures Loop(c, Frames(stream), running, k, handler) ==
      match if c.link.active then Receive(stream) else None
      case None => (c.(link := c.link.(active := false)), Stopped(SocketError, k))
      case Some((msg, rest)) =>
        match handler(c, msg, k)
        case None => (c, Crash)
        case Some(c') => Loop(c', Frames(rest), running - 1, k + 1, handler)
  {
    if Receive(stream).Some? {
      assert Frames(stream)[1..] == Frames(Receive(stream).value.1);
    }
  }

  /** The body of the loop, for the k-th iteration of at most `running`: what remains to be driven after it is what had
      to be driven before. */
  method ReceiveAndDispatch(conn: DoIPConnection, ghost running: nat, k: nat, oracle: Oracle)
      returns (outcome: Iteration)
    requires conn.transport.Valid() && conn.Fits(oracle(k).0) && k < running
    modifies conn, conn.timerManager, conn.transport, conn.transport.receiveBuffer, conn.transport.socket, conn.Queues()
    ensures var result :=
        Loop(old(conn.View()), Frames(Available(old(conn.transport.socket.incoming))), running - k, k,
             Handling(oracle));
      match outcome
      case EndOfStream => result == (conn.View(), Stopped(SocketError, k))
      case Crashed => result == (conn.View(), Crash)
      case Dispatched =>
        result ==
          Loop(conn.View(), Frames(Available(conn.transport.socket.incoming)), running - k - 1, k + 1, Handling(oracle))
  {
    LoopStep(conn.View(), Available(conn.transport.socket.incoming), running - k, k, Handling(oracle));
    var msg := conn.transport.ReceiveMessage();
    if msg.None? {
      return EndOfStream;
    }
    var (app, now) := oracle(k);
    var dispatched := conn.HandleMessage(msg.value, app, now);
    outcome := if dispatched then Dispatched else Crashed;
  }

  /** The loop; `k` counts the iterations. */
  method ReceiveLoop(conn: DoIPConnection, running: nat, oracle: Oracle) returns (ending: Ending)
    requires conn.transport.Valid() && forall k: nat :: conn.Fits(oracle(k).0)
    modifies conn, conn.timerManager, conn.transport, conn.transport.receiveBuffer, conn.transport.socket, conn.Queues()
    ensures (conn.View(), ending) ==
      Loop(old(conn.View()), Frames(Available(old(conn.transport.socket.incoming))), running, 0, Handling(oracle))
  {
    var k := 0;
    ghost var c, left := conn.View(), Frames(Available(conn.transport.socket.incoming));
    ghost var handler := Handling(oracle);
    ghost var result := Loop(c, left, running, 0, handler);
    while k < running
      invariant k <= running
      invariant c == conn.View() && left == Frames(Available(conn.transport.socket.incoming))
      invariant result == Loop(c, left, running - k, k, handler)
    {
      var outcome := ReceiveAndDispatch(conn, running, k, oracle);
      match outcome {
        case EndOfStream =>
          return Stopped(SocketError, k);
        case Crashed =>
          return Crash;
        case Dispatched =>
          k := k + 1;
      }
      c, left := conn.View(), Frames(Available(conn.transport.socket.incoming));
    }
    ending := Stopped(ApplicationRequest, k);
  }

  method ConnectionHandlerThread(conn: DoIPConnection, running: nat, oracle: Oracle) returns (crashed: bool)
    requires conn.transport.Valid() && forall k: nat :: conn.Fits(oracle(k).0)
    modifies conn, conn.timerManager, conn.transport, conn.transport.receiveBuffer, conn.transport.socket, conn.Queues()
    ensures (conn.View(), crashed) ==
      Drive(old(conn.View()), Frames(Available(old(conn.transport.socket.incoming))), running, oracle)
  {
    var ending := ReceiveLoop(conn, running, oracle);
    if ending.Crash? {
      return true;
    }
    conn.CloseConnection(ending.reason, oracle(ending.iteration).1);
    crashed := false;
  }

  /** With nonzero timeouts the loop never meets the null handler. */
  lemma {:induction false} LoopStaysLive(c: Conn, frames: seq<DoIPMessage>, running: nat, k: nat, oracle: Oracle)
    requires ClosedOnce(c) && Live(c)
    ensures var (end, ending) := Loop(c, frames, running, k, Handling(oracle));
      ending.Stopped? && ClosedOnce(end) && Evolves(c, end)
    decreases running
  {
    if running > 0 && c.link.active && frames != [] {
      var (app, now) := oracle(k);
      MessageStaysLive(c, frames[0], app, now);
      MessageEvolves(c, frames[0], app, now);
      LoopStaysLive(HandleMessage(c, frames[0], app, now).value, frames[1..], running - 1, k + 1, oracle);
    }
  }

  /** With nonzero timeouts the thread leaves a closed connection behind: closed by a handler on the way, by the end of
      the stream, or by the server. */
  lemma DriveEndsClosed(c: Conn, frames: seq<DoIPMessage>, running: nat, oracle: Oracle)
    requires ClosedOnce(c) && Live(c)
    ensures var (end, crashed) := Drive(c, frames, running, oracle);
      && !crashed
      && ClosedOnce(end) && Evolves(c, end)
      && end.status.closing && !end.status.open && !end.link.active
  {
    LoopStaysLive(c, frames, running, 0, oracle);
    var (c', ending) := Loop(c, frames, running, 0, Handling(oracle));
    CloseEvolves(c', ending.reason, oracle(ending.iteration).1);
  }

  /** From the wire to the end of the connection: whatever the fragmentation of the client's bytes, the thread behaves
      as if it had been given the frames one by one, then the messages in what follows: a further part of a frame, and
      whatever the socket has in store after it. */
  lemma FragmentationIsInvisible(
      c: Conn, frames: seq<Frame>, tail: seq<byte>, chunks: seq<seq<byte>>, script: seq<Incoming>, rest: seq<Incoming>,
      running: nat, oracle: Oracle)
    requires forall f :: f in frames ==> f.Acceptable()
    requires Delivers(script, chunks) && Flatten(chunks) == Stream(frames) + tail
    ensures Drive(c, Frames(Available(script + rest)), running, oracle) ==
      Drive(c, Messages(frames) + Frames(tail + Available(rest)), running, oracle)
  {
    AvailableIsConcatenation(chunks, script, rest);
    Associative(Stream(frames), tail, Available(rest));
    FramingRoundTrip(frames, tail + Available(rest));
  }

  /** So a truncated or invalid tail is as good as none. */
  lemma BadTailIsInvisible(
      c: Conn, frames: seq<Frame>, tail: seq<byte>, chunks: seq<seq<byte>>, script: seq<Incoming>, running: nat,
      oracle: Oracle)
    requires forall f :: f in frames ==> f.Acceptable()
    requires Delivers(script, chunks) && Flatten(chunks) == Stream(frames) + tail
    requires Receive(tail).None?
    ensures Drive(c, Frames(Available(script)), running, oracle) == Drive(c, Messages(frames), running, oracle)
  {
    FragmentationIsInvisible(c, frames, tail, chunks, script, [], running, oracle);
    assert script + [] == script && tail + Available([]) == tail;
    assert Messages(frames) + [] == Messages(frames);
  }

  // ---------------------------------------------------------------- why the connection is closed

  /** The connection after the handler has dealt with the first k messages. */
  function After(c: Conn, frames: seq<DoIPMessage>, handler: Handler, k: nat): Conn
    requires k <= |frames|
  {
    if k == 0 then c
    else
      var before := After(c, frames, handler, k - 1);
      match handler(before, frames[k - 1], k - 1)
      case None => before
      case Some(c') => c'
  }

  /** m messages were handled, and then there was none left, the transport was down, or the server had stopped. */
  ghost predicate StopsAt(c: Conn, frames: seq<DoIPMessage>, running: nat, handler: Handler, m: nat) {
    && m <= running && m <= |frames|
    && (forall k :: 0 <= k < m ==> After(c, frames, handler, k).link.active)
    && (m == running || m == |frames| || !After(c, frames, handler, m).link.active)
  }

  lemma LoopOne(c: Conn, frames: seq<DoIPMessage>, running: nat, k: nat, handler: Handler, c': Conn)
    requires running > 0 && c.link.active && frames != []
    requires handler(c, frames[0], k) == Some(c')
    ensures Loop(c, frames, running, k, handler) == Loop(c', frames[1..], running - 1, k + 1, handler)
  {
  }

  /** While the transport is up and no message fails, the loop goes on from where k messages have left the connection.
      */
  lemma {:induction false} LoopAt(c: Conn, frames: seq<DoIPMessage>, running: nat, handler: Handler, k: nat)
    requires k <= running && k <= |frames|
    requires forall i :: 0 <= i < k ==> After(c, frames, handler, i).link.active
    requires forall i :: 0 <= i < k ==> handler(After(c, frames, handler, i), frames[i], i).Some?
    ensures Loop(c, frames, running, 0, handler) ==
      Loop(After(c, frames, handler, k), frames[k..], running - k, k, handler)
    decreases k
  {
    if k == 0 {
      assert frames[0..] == frames;
    } else {
      LoopAt(c, frames, running, handler, k - 1);
      assert frames[k - 1..][1..] == frames[k..];
      LoopOne(After(c, frames, handler, k - 1), frames[k - 1..], running - (k - 1), k - 1, handler,
              After(c, frames, handler, k));
    }
  }

  /** The loop, from where it stops. */
  lemma LoopEnds(c: Conn, frames: seq<DoIPMessage>, running: nat, k: nat, handler: Handler)
    requires running == 0 || frames == [] || !c.link.active
    ensures Loop(c, frames, running, k, handler) ==
      if running == 0 then (c, Stopped(ApplicationRequest, k))
      else (c.(link := c.link.(active := false)), Stopped(SocketError, k))
  {
  }

  lemma FindStop(c: Conn, frames: seq<DoIPMessage>, running: nat, handler: Handler) returns (m: nat)
    ensures StopsAt(c, frames, running, handler, m)
  {
    m := 0;
    while m < running && m < |frames| && After(c, frames, handler, m).link.active
      invariant m <= running && m <= |frames|
      invariant forall k :: 0 <= k < m ==> After(c, frames, handler, k).link.active
    {
      m := m + 1;
    }
  }

  ghost predicate CanGoOn(c: Conn) {
    ClosedOnce(c) && Live(c)
  }

  /** A handler that never fails while the transport is up. */
  ghost predicate NeverFails(handler: Handler) {
    forall c: Conn, msg: DoIPMessage, k: nat :: CanGoOn(c) && c.link.active ==>
      handler(c, msg, k).Some? && CanGoOn(handler(c, msg, k).value)
  }

  lemma HandlingNeverFails(oracle: Oracle)
    ensures NeverFails(Handling(oracle))
  {
    forall c: Conn, msg: DoIPMessage, k: nat | CanGoOn(c) && c.link.active
      ensures Handling(oracle)(c, msg, k).Some? && CanGoOn(Handling(oracle)(c, msg, k).value)
    {
      MessageStaysLive(c, msg, oracle(k).0, oracle(k).1);
      MessageEvolves(c, msg, oracle(k).0, oracle(k).1);
    }
  }

  lemma AfterOne(c: Conn, frames: seq<DoIPMessage>, handler: Handler, k: nat)
    requires k < |frames| && NeverFails(handler)
    requires CanGoOn(After(c, frames, handler, k)) && After(c, frames, handler, k).link.active
    ensures handler(After(c, frames, handler, k), frames[k], k).Some?
    ensures CanGoOn(After(c, frames, handler, k + 1))
  {
  }

  lemma {:induction false} AfterGoesOn(c: Conn, frames: seq<DoIPMessage>, handler: Handler, k: nat)
    requires CanGoOn(c) && k <= |frames| && NeverFails(handler)
    requires forall i :: 0 <= i < k ==> After(c, frames, handler, i).link.active
    ensures CanGoOn(After(c, frames, handler, k))
    decreases k
  {
    if k > 0 {
      AfterGoesOn(c, frames, handler, k - 1);
      AfterOne(c, frames, handler, k - 1);
    }
  }

  lemma NoneFails(c: Conn, frames: seq<DoIPMessage>, handler: Handler, k: nat)
    requires CanGoOn(c) && k <= |frames| && NeverFails(handler)
    requires forall i :: 0 <= i < k ==> After(c, frames, handler, i).link.active
    ensures forall i :: 0 <= i < k ==> handler(After(c, frames, handler, i), frames[i], i).Some?
  {
    forall i | 0 <= i < k
      ensures handler(After(c, frames, handler, i), frames[i], i).Some?
    {
      AfterGoesOn(c, frames, handler, i);
      AfterOne(c, frames, handler, i);
    }
  }

  lemma LoopStops(c: Conn, frames: seq<DoIPMessage>, running: nat, handler: Handler, m: nat)
    requires StopsAt(c, frames, running, handler, m)
    requires forall i :: 0 <= i < m ==> handler(After(c, frames, handler, i), frames[i], i).Some?
    ensures var stopped := After(c, frames, handler, m);
      Loop(c, frames, running, 0, handler) ==
        if m == running then (stopped, Stopped(ApplicationRequest, m))
        else (stopped.(link := stopped.link.(active := false)), Stopped(SocketError, m))
  {
    LoopAt(c, frames, running, handler, m);
    LoopEnds(After(c, frames, handler, m), frames[m..], running - m, m, handler);
  }

  /** Why: if a handler has closed the connection its reason stays; otherwise it is ApplicationRequest if the server
      stopped first, and SocketError if the stream ended or the transport went down first. The application is told once,
      and told that. */
  lemma WhyClosed(c: Conn, frames: seq<DoIPMessage>, running: nat, oracle: Oracle) returns (m: nat)
    requires ClosedOnce(c) && Live(c)
    ensures StopsAt(c, frames, running, Handling(oracle), m)
    ensures var stopped := After(c, frames, Handling(oracle), m);
      var (end, crashed) := Drive(c, frames, running, oracle);
      && !crashed && !end.status.open
      && end.log.notices == [end.status.reason]
      && end.status.reason ==
         if stopped.status.closing then stopped.status.reason
         else if m == running then ApplicationRequest
         else SocketError
  {
    var handler := Handling(oracle);
    m := FindStop(c, frames, running, handler);
    HandlingNeverFails(oracle);
    AfterGoesOn(c, frames, handler, m);
    NoneFails(c, frames, handler, m);
    LoopStops(c, frames, running, handler, m);
    var stopped := After(c, frames, handler, m);
    var before := if m == running then stopped else stopped.(link := stopped.link.(active := false));
    CloseEvolves(before, if m == running then ApplicationRequest else SocketError, oracle(m).1);
  }

  /** There is only one such moment. */
  lemma StopsOnce(c: Conn, frames: seq<DoIPMessage>, running: nat, handler: Handler, m: nat, n: nat)
    requires StopsAt(c, frames, running, handler, m) && StopsAt(c, frames, running, handler, n)
    ensures m == n
  {
  }

  // ---------------------------------------------------------------- a tester's session

  /** From the tester's bytes, however chopped, to the end: the thread deals with the messages as they were sent. */
  lemma TesterIsHeard(
      c: Conn, ms: seq<TesterMessage>, chunks: seq<seq<byte>>, script: seq<Incoming>, running: nat, oracle: Oracle)
    requires forall m :: m in ms ==> m.Fits()
    requires Transport.Delivers(script, chunks) && Flatten(chunks) == TesterBytes(ms)
    ensures Drive(c, Frames(Available(script)), running, oracle) == Drive(c, TesterMessages(ms), running, oracle)
  {
    AvailableIsConcatenation(chunks, script, []);
    TesterIsReceived(ms, []);
    assert script + [] == script && TesterBytes(ms) + [] == TesterBytes(ms);
    assert Flatten(chunks) + Available([]) == Flatten(chunks);
    assert TesterMessages(ms) + Frames([]) == TesterMessages(ms);
  }

  /** The route is opened for the tester. */
  lemma SessionActivates(site: Site, link: Link, created: int, m: TesterMessage, app: AppReply, now: int)
    requires link.active && link.writesLeft > 0 && m.Activation? && m.Fits()
    ensures var c := Construct(site, link, created);
      && HandleMessage(c, m.Message(), app, now).Some?
      && var c' := HandleMessage(c, m.Message(), app, now).value;
         && c'.phase.state == RoutingActivated && c'.client == m.client && c'.link.active
         && c'.log.routed == [m.client] && c'.log.asked == []
         && c'.log.outbox == [MakeRoutingActivationResponse(m.client, site.server, ROUTE_ACTIVATED)]
  {
    TesterMessageIsReceived(m, []);
    StartIsClosedOnce(site, 0, created);
  }

  /** The application is asked about the tester's request. */
  lemma SessionAsks(c: Conn, m: TesterMessage, app: AppReply, now: int)
    requires m.Request? && m.Fits() && c.phase.state == RoutingActivated && c.client == m.client
    ensures HandleMessage(c, m.Message(), app, now).Some?
    ensures var c' := HandleMessage(c, m.Message(), app, now).value;
      && c'.client == c.client && c'.log.routed == c.log.routed && c.log.outbox <= c'.log.outbox
      && c'.log.asked == c.log.asked + [m.Message()]
  {
    TesterMessageIsReceived(m, []);
    assert HandleMessage(c, m.Message(), app, now) == Some(AnswerDiagnostic(c, m.Message(), app, now));
    RoutedBindsNothing(c, m.Message(), app, now);
  }

  /** A session of two messages on a fresh connection: the route is activated for the tester, and the application is
      asked about its request. */
  lemma SessionIsServed(
      site: Site, link: Link, created: int, activation: TesterMessage, request: TesterMessage, running: nat,
      oracle: Oracle)
    requires link.active && link.writesLeft > 0 && running >= 2
    requires activation.Activation? && activation.Fits()
    requires request.Request? && request.Fits() && request.client == activation.client
    ensures var (end, crashed) :=
        Drive(Construct(site, link, created), TesterMessages([activation, request]), running, oracle);
      && !crashed && end.client == request.client && end.log.routed == [request.client]
      && end.log.asked == [request.Message()] && request.Message().DiagnosticPayload() == request.data
      && [MakeRoutingActivationResponse(request.client, site.server, ROUTE_ACTIVATED)] <= end.log.outbox
  {
    var c := Construct(site, link, created);
    SessionActivates(site, link, created, activation, oracle(0).0, oracle(0).1);
    var c1 := HandleMessage(c, activation.Message(), oracle(0).0, oracle(0).1).value;
    SessionAsks(c1, request, oracle(1).0, oracle(1).1);
    TesterMessageIsReceived(request, []);
    TwoMessages(activation, request);
    SessionLoop(c, [activation.Message(), request.Message()], c1,
                HandleMessage(c1, request.Message(), oracle(1).0, oracle(1).1).value, running, oracle);
  }

  lemma TwoMessages(a: TesterMessage, b: TesterMessage)
    ensures TesterMessages([a, b]) == [a.Message(), b.Message()]
  {
    assert [a, b][1..] == [b] && [b][1..] == [];
    assert TesterMessages([b]) == [b.Message()] + TesterMessages([]);
  }

  lemma CloseKeepsLog(c: Conn, reason: CloseReason, now: int)
    ensures var c' := CloseConnection(c, reason, now);
      && c'.client == c.client && c'.log.routed == c.log.routed
      && c'.log.asked == c.log.asked && c'.log.outbox == c.log.outbox
  {
  }

  lemma LoopTwo(c: Conn, frames: seq<DoIPMessage>, c1: Conn, c2: Conn, running: nat, handler: Handler)
    requires |frames| == 2 && running >= 2 && c.link.active && c1.link.active
    requires handler(c, frames[0], 0) == Some(c1) && handler(c1, frames[1], 1) == Some(c2)
    ensures Loop(c, frames, running, 0, handler) ==
      if running == 2 then (c2, Stopped(ApplicationRequest, 2))
      else (c2.(link := c2.link.(active := false)), Stopped(SocketError, 2))
  {
    assert frames[1..][0] == frames[1] && frames[1..][1..] == [];
    LoopOne(c, frames, running, 0, handler, c1);
    LoopOne(c1, frames[1..], running - 1, 1, handler, c2);
    LoopEnds(c2, [], running - 2, 2, handler);
  }

  lemma SessionLoop(c: Conn, frames: seq<DoIPMessage>, c1: Conn, c2: Conn, running: nat, oracle: Oracle)
    requires |frames| == 2 && running >= 2 && c.link.active && c1.link.active
    requires HandleMessage(c, frames[0], oracle(0).0, oracle(0).1) == Some(c1)
    requires HandleMessage(c1, frames[1], oracle(1).0, oracle(1).1) == Some(c2)
    ensures var (end, crashed) := Drive(c, frames, running, oracle);
      && !crashed && end.client == c2.client && end.log.routed == c2.log.routed
      && end.log.asked == c2.log.asked && end.log.outbox == c2.log.outbox
  {
    LoopTwo(c, frames, c1, c2, running, Handling(oracle));
    CloseKeepsLog(c2, ApplicationRequest, oracle(2).1);
    CloseKeepsLog(c2.(link := c2.link.(active := false)), SocketError, oracle(2).1);
  }
}
