/** Two moments at which the downstream worker and the connection's handlers get in each other's way without any timer:
    between the worker's call and its reset of the slot, and between a handler's request and its change of state. */
module LateReset {
  import opened Options
  import opened Bytes
  import opened Message
  import opened ConnectionSpec
  import opened Downstream
  import opened Gateway
  import opened GatewayExamples
  import opened DownstreamWait
  import opened Tester
  import Queues

  // ---------------------------------------------------------------- between the call and the reset

  /** Only the client and the worker act: no timers, no close requests, no changes of settings. */
  predicate Untimed(happenings: seq<Happening>) {
    forall k :: 0 <= k < |happenings| ==> !happenings[k].Elsewhere?
  }

  function Queued(items: seq<seq<byte>>): Queues.Queue<seq<byte>> {
    Queues.Queue(items, false)
  }

  function StepPath(p: Path, h: Happening, provider: Provider): Path
    requires h.PopsRequest? || (h.Answers? && p.worker.Requesting?) || h.PopsResponse?
  {
    if h.PopsRequest? then TakeRequest(p) else if h.Answers? then Answer(p, provider) else TakeResponse(p)
  }

  lemma WorkerStep(worlds: seq<World>, happenings: seq<Happening>, h: Happening, provider: Provider)
      returns (worlds': seq<World>, happenings': seq<Happening>)
    requires GatewayRun(worlds, happenings, provider) && Untimed(happenings)
    requires CanHappen(worlds[|happenings|], h) && (h.PopsRequest? || h.Answers? || h.PopsResponse?)
    ensures GatewayRun(worlds', happenings', provider) && Untimed(happenings')
    ensures worlds'[|happenings'|].sys == worlds[|happenings|].sys
    ensures worlds'[|happenings'|].path == StepPath(worlds[|happenings|].path, h, provider)
    ensures NoneSpoils(worlds', happenings', |happenings'|) <==> NoneSpoils(worlds, happenings, |happenings|)
  {
    worlds', happenings' := Continue(worlds, happenings, h, provider);
  }

  lemma AnswerPath(p: Path, request: seq<byte>, slot: bool, provider: Provider)
    requires p == Path(Queued([request]), Queued([]), LooksAtTx, slot)
    ensures TakeRequest(p) == Path(Queued([]), Queued([]), Requesting(request), slot)
    ensures Answer(TakeRequest(p), provider) == Path(Queued([]), Queued([provider(request)]), LooksAtRx, slot)
    ensures TakeResponse(Answer(TakeRequest(p), provider)) ==
      Path(Queued([]), Queued([]), Responding(provider(request)), slot)
  {
  }

  /** The worker fetches the only request, has it answered, and pops the answer. */
  lemma AnswerRun(worlds: seq<World>, happenings: seq<Happening>, provider: Provider, request: seq<byte>, slot: bool)
      returns (worlds': seq<World>, happenings': seq<Happening>)
    requires GatewayRun(worlds, happenings, provider) && Untimed(happenings)
    requires worlds[|happenings|].path == Path(Queued([request]), Queued([]), LooksAtTx, slot)
    ensures GatewayRun(worlds', happenings', provider) && Untimed(happenings')
    ensures worlds'[|happenings'|].sys == worlds[|happenings|].sys
    ensures worlds'[|happenings'|].path == Path(Queued([]), Queued([]), Responding(provider(request)), slot)
    ensures NoneSpoils(worlds', happenings', |happenings'|) <==> NoneSpoils(worlds, happenings, |happenings|)
  {
    AnswerPath(worlds[|happenings|].path, request, slot, provider);
    worlds', happenings' := WorkerStep(worlds, happenings, PopsRequest, provider);
    worlds', happenings' := WorkerStep(worlds', happenings', Answers, provider);
    worlds', happenings' := WorkerStep(worlds', happenings', PopsResponse, provider);
  }

  lemma CallDelivers(w: World, path: Path, writes: nat, provider: Provider)
    requires At(w, WaitDownstreamResponse, [], path, writes) && writes > 0
    requires path.worker.Responding? && path.callback
    ensures At(Happens(w, Calls(0), provider), RoutingActivated, [], Call(path), writes - 1)
  {
  }

  /** The first answer is delivered, the next request accepted, and only then the slot reset. */
  lemma UntilReset(provider: Provider) returns (worlds: seq<World>, happenings: seq<Happening>)
    ensures GatewayRun(worlds, happenings, provider) && Untimed(happenings)
    ensures NoneSpoils(worlds, happenings, |happenings|)
    ensures At(worlds[|happenings|], WaitDownstreamResponse, [],
               Path(Queued([[0x3E, 0x00]]), Queued([]), LooksAtTx, false), 6)
  {
    TesterFields();
    worlds, happenings := UntilActivated(provider);
    worlds, happenings := ContinueRequest(worlds, happenings, [], Idle(), 9, 0, provider);
    worlds, happenings := AnswerRun(worlds, happenings, provider, [0x3E, 0x00], true);
    var path := worlds[|happenings|].path;
    CallDelivers(worlds[|happenings|], path, 8, provider);
    worlds, happenings := Continue(worlds, happenings, Calls(0), provider);
    worlds, happenings := RequestAndReset(worlds, happenings, provider);
  }

  lemma ResetForgets(w: World, provider: Provider)
    requires At(w, WaitDownstreamResponse, [],
                Accept(Path(Queued([]), Queued([]), Resetting, true), TesterPresent()), 6)
    ensures At(Happens(w, Resets, provider), WaitDownstreamResponse, [],
               Path(Queued([[0x3E, 0x00]]), Queued([]), LooksAtTx, false), 6)
  {
    TesterFields();
  }

  lemma ContinueReset(worlds: seq<World>, happenings: seq<Happening>, provider: Provider)
      returns (worlds': seq<World>, happenings': seq<Happening>)
    requires GatewayRun(worlds, happenings, provider)
    requires At(worlds[|happenings|], WaitDownstreamResponse, [],
                Accept(Path(Queued([]), Queued([]), Resetting, true), TesterPresent()), 6)
    ensures GatewayRun(worlds', happenings', provider) && happenings' == happenings + [Resets]
    ensures NoneSpoils(worlds', happenings', |happenings'|) <==> NoneSpoils(worlds, happenings, |happenings|)
    ensures At(worlds'[|happenings'|], WaitDownstreamResponse, [],
               Path(Queued([[0x3E, 0x00]]), Queued([]), LooksAtTx, false), 6)
  {
    ResetForgets(worlds[|happenings|], provider);
    worlds', happenings' := Continue(worlds, happenings, Resets, provider);
  }

  lemma RequestAndReset(worlds: seq<World>, happenings: seq<Happening>, provider: Provider)
      returns (worlds': seq<World>, happenings': seq<Happening>)
    requires GatewayRun(worlds, happenings, provider) && Untimed(happenings)
    requires NoneSpoils(worlds, happenings, |happenings|)
    requires At(worlds[|happenings|], RoutingActivated, [], Path(Queued([]), Queued([]), Resetting, true), 7)
    ensures GatewayRun(worlds', happenings', provider) && Untimed(happenings')
    ensures NoneSpoils(worlds', happenings', |happenings'|)
    ensures At(worlds'[|happenings'|], WaitDownstreamResponse, [],
               Path(Queued([[0x3E, 0x00]]), Queued([]), LooksAtTx, false), 6)
  {
    TesterFields();
    worlds', happenings' := ContinueRequest(worlds, happenings, [], worlds[|happenings|].path, 7, 0, provider);
    worlds', happenings' := ContinueReset(worlds', happenings', provider);
  }

  /** For every provider there is a run without any timer event in which a request accepted between the call and the
      reset loses its answer: the path is empty again, the transport is up, and the connection waits for a response that
      will not come. */
  lemma AnswerLost(provider: Provider) returns (worlds: seq<World>, happenings: seq<Happening>)
    ensures GatewayRun(worlds, happenings, provider) && Untimed(happenings)
    ensures !NoRace(worlds, happenings, |happenings|) && !NoneSpoils(worlds, happenings, |happenings|)
    ensures var w := worlds[|happenings|];
      Waiting(w.sys.conn) && w.sys.conn.link.active && w.sys.due == [] && w.path == Idle()
    ensures !Served(worlds, happenings, provider, |happenings|)
  {
    worlds, happenings := UntilReset(provider);
    worlds, happenings := AnswerRun(worlds, happenings, provider, [0x3E, 0x00], false);
    ghost var before := |happenings|;
    UnspoiledIsServed(worlds, happenings, provider, before);
    var last := worlds[before];
    ForwardedAreRequests(worlds, happenings, provider, before);
    FlowRun(worlds, happenings, provider, before);
    DropShows(last, provider);
    worlds, happenings := Continue(worlds, happenings, Calls(0), provider);
    ForwardedAreRequests(worlds, happenings, provider, |happenings|);
    if NoRace(worlds, happenings, |happenings|) {
      SpoilingNeedsARace(worlds, happenings, provider, |happenings|);
    }
  }

  lemma DropShows(w: World, provider: Provider)
    requires Sound(w, provider) && CanHappen(w, Calls(0)) && Drops(w, Calls(0))
    requires IsServed(w, provider, w.sys.conn.log.forwarded)
    ensures var w' := Happens(w, Calls(0), provider); !IsServed(w', provider, w'.sys.conn.log.forwarded)
  {
    var w' := Happens(w, Calls(0), provider);
    if IsServed(w', provider, w'.sys.conn.log.forwarded) {
      SpoilingShows(w, Calls(0), provider);
    }
  }

  // ---------------------------------------------------------------- between the request and the change of state

  /** A handler that has handed its request down but not changed the state yet. */
  function HandedDown(c: Conn, msg: DoIPMessage, now: int): Conn {
    Forward(RestartStateTimer(SendDiagnosticResponse(AskApplication(c, msg), c.client, None), now), msg)
  }

  /** If the response comes in at this point, it is sent, but the wait begins after it: whoever receives it, the
      connection is left waiting with nothing on its way. In the order of atomic handlers it is not. */
  lemma ResponseInsideHandler(c: Conn, msg: DoIPMessage, response: seq<byte>, result: DownstreamResult, now: int)
    requires c.phase.state == RoutingActivated && c.status.open && c.site.hasDownstream && c.cfg.general != 0
    ensures var handed := HandedDown(c, msg, now);
      var split := TransitionTo(ReceiveDownstreamResponse(handed, response, result, now), WaitDownstreamResponse, now);
      var atomic := ReceiveDownstreamResponse(TransitionTo(handed, WaitDownstreamResponse, now), response, result, now);
      && AnswerDiagnostic(c, msg, AppReply(None, Pending), now) == TransitionTo(handed, WaitDownstreamResponse, now)
      && split.log == atomic.log && split.link == atomic.link
      && Waiting(split) && atomic.phase.state == RoutingActivated
  {
  }
}
