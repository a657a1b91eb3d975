/** What a stale callback does: a timer collected in RoutingActivated whose callback runs after the connection has
    begun to wait for the downstream side lets a second request crowd the path. */
module StaleCallback {
  import opened Options
  import opened Timers
  import opened ConnectionSpec
  import opened Downstream
  import opened Runs
  import opened Gateway
  import opened GatewayExamples
  import opened NullHandler
  import opened Tester

  function OneRequest(): Path {
    Accept(Idle(), TesterPresent())
  }

  lemma CollectIdle(w: World, now: int, provider: Provider)
    requires At(w, RoutingActivated, [], Idle(), 9)
    requires w.sys.conn.phase.table.timers.Keys == {GeneralInactivity}
    requires Due(w.sys.conn.phase.table.timers[GeneralInactivity], now)
    ensures var h := Elsewhere(Collect(now, [GeneralInactivity]));
      CanHappen(w, h) && At(Happens(w, h, provider), RoutingActivated, [GeneralInactivity], Idle(), 9)
  {
    CollectsIdle(w.sys, now);
  }

  lemma LateAliveCheck(w: World, now: int, provider: Provider)
    requires At(w, WaitDownstreamResponse, [GeneralInactivity], OneRequest(), 8)
    ensures Stale(w, Elsewhere(Callback(now)))
    ensures At(Happens(w, Elsewhere(Callback(now)), provider), WaitAliveCheckResponse, [], OneRequest(), 7)
  {
  }

  lemma AnswerAliveCheck(w: World, now: int, provider: Provider)
    requires At(w, WaitAliveCheckResponse, [], OneRequest(), 7)
    ensures At(Happens(w, Client(AliveAnswer(), None, now), provider), RoutingActivated, [], OneRequest(), 7)
  {
    TesterFields();
  }

  lemma UntilWaiting(provider: Provider) returns (worlds: seq<World>, happenings: seq<Happening>)
    ensures GatewayRun(worlds, happenings, provider) && NoneSpoils(worlds, happenings, |happenings|)
    ensures At(worlds[|happenings|], WaitDownstreamResponse, [GeneralInactivity], OneRequest(), 8)
  {
    var t := DEFAULT_CONFIG.general;
    worlds, happenings := UntilActivated(provider);
    CollectIdle(worlds[|happenings|], t, provider);
    worlds, happenings := Continue(worlds, happenings, Elsewhere(Collect(t, [GeneralInactivity])), provider);
    worlds, happenings := ContinueRequest(worlds, happenings, [GeneralInactivity], Idle(), 9, t, provider);
  }

  /** For every provider there is a run with a stale callback, after which one request is on the path of an open
      connection that no longer waits for it, and whose client is nevertheless served all the time. */
  lemma StaleButServed(provider: Provider) returns (worlds: seq<World>, happenings: seq<Happening>)
    ensures GatewayRun(worlds, happenings, provider) && !NoRace(worlds, happenings, |happenings|)
    ensures At(worlds[|happenings|], RoutingActivated, [], OneRequest(), 7)
    ensures NoneSpoils(worlds, happenings, |happenings|)
    ensures forall k :: 0 <= k <= |happenings| ==> Served(worlds, happenings, provider, k)
  {
    var t := DEFAULT_CONFIG.general;
    worlds, happenings := UntilWaiting(provider);
    LateAliveCheck(worlds[|happenings|], t, provider);
    worlds, happenings := Continue(worlds, happenings, Elsewhere(Callback(t)), provider);
    AnswerAliveCheck(worlds[|happenings|], t, provider);
    worlds, happenings := Continue(worlds, happenings, Client(AliveAnswer(), None, t), provider);
    EndToEnd(worlds, happenings, provider, |happenings|);
  }

  /** One more request crowds it: two on the path of an open connection at once. */
  lemma TwoRequestsOutstanding(provider: Provider) returns (worlds: seq<World>, happenings: seq<Happening>)
    ensures GatewayRun(worlds, happenings, provider)
    ensures !NoneSpoils(worlds, happenings, |happenings|) && !NoRace(worlds, happenings, |happenings|)
    ensures InPath(worlds[|happenings|].path) == 2 && worlds[|happenings|].sys.conn.status.open
  {
    worlds, happenings := StaleButServed(provider);
    var t := DEFAULT_CONFIG.general;
    worlds, happenings := ContinueRequest(worlds, happenings, [], OneRequest(), 7, t, provider);
  }
}
