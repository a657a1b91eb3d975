/** Building single runs of the gateway. */
module GatewayExamples {
  import opened Options
  import opened Timers
  import opened ConnectionSpec
  import opened Downstream
  import opened Runs
  import opened Gateway
  import opened Tester

  /** An open gateway connection of CLIENT with default settings and room for `writes` messages. */
  ghost predicate At(w: World, state: ServerState, due: seq<TimerId>, path: Path, writes: nat) {
    var c := w.sys.conn;
    && c.phase.state == state && c.status.open && !c.status.closing
    && c.cfg == DEFAULT_CONFIG && c.client == CLIENT && c.site == Site(SERVER, true)
    && c.link.active && c.link.writesLeft == writes
    && w.sys.due == due && w.path == path
  }

  ghost function Fresh(): World {
    World(Start(Site(SERVER, true), 10, 0), Idle())
  }

  lemma Activate(provider: Provider)
    ensures CanHappen(Fresh(), Client(ActivationRequest(), None, 0))
    ensures var w := Happens(Fresh(), Client(ActivationRequest(), None, 0), provider);
      && At(w, RoutingActivated, [], Idle(), 9)
      && w.sys.conn.phase.table.timers.Keys == {GeneralInactivity}
      && Due(w.sys.conn.phase.table.timers[GeneralInactivity], DEFAULT_CONFIG.general)
  {
    StartIsClosedOnce(Site(SERVER, true), 10, 0);
    TesterFields();
  }

  lemma Request(w: World, due: seq<TimerId>, path: Path, writes: nat, now: int, provider: Provider)
    requires At(w, RoutingActivated, due, path, writes) && writes > 0
    ensures IsRequest(w, Client(TesterPresent(), None, now))
    ensures var w' := Happens(w, Client(TesterPresent(), None, now), provider);
      At(w', WaitDownstreamResponse, due, Accept(path, TesterPresent()), writes - 1)
  {
    TesterFields();
    var c := w.sys.conn;
    var c' := AnswerDiagnostic(c, TesterPresent(), AppReply(None, Pending), now);
    assert HandleMessage(c, TesterPresent(), AppReply(None, Pending), now) == Some(c');
    assert c'.log.forwarded == c.log.forwarded + [TesterPresent()];
  }

  lemma SpoilsSnoc(worlds: seq<World>, happenings: seq<Happening>, w: World, h: Happening)
    requires |worlds| == |happenings| + 1
    ensures var n := |happenings|;
      NoneSpoils(worlds + [w], happenings + [h], n + 1) <==>
        NoneSpoils(worlds, happenings, n) && !Crowds(worlds[n], h) && !Drops(worlds[n], h)
  {
    var n, worlds', happenings' := |happenings|, worlds + [w], happenings + [h];
    assert forall k :: 0 <= k < n ==> worlds'[k] == worlds[k] && happenings'[k] == happenings[k];
    assert worlds'[n] == worlds[n] && happenings'[n] == h;
  }

  lemma RaceSnoc(worlds: seq<World>, happenings: seq<Happening>, w: World, h: Happening)
    requires |worlds| == |happenings| + 1
    ensures var n := |happenings|;
      NoRace(worlds + [w], happenings + [h], n + 1) <==>
        NoRace(worlds, happenings, n) && !Stale(worlds[n], h) && !Forgets(worlds[n], h)
  {
    var n, worlds', happenings' := |happenings|, worlds + [w], happenings + [h];
    assert forall k :: 0 <= k < n ==> worlds'[k] == worlds[k] && happenings'[k] == happenings[k];
    assert worlds'[n] == worlds[n] && happenings'[n] == h;
  }

  lemma RunSnoc(worlds: seq<World>, happenings: seq<Happening>, h: Happening, provider: Provider)
    requires GatewayRun(worlds, happenings, provider) && CanHappen(worlds[|happenings|], h)
    ensures GatewayRun(worlds + [Happens(worlds[|happenings|], h, provider)], happenings + [h], provider)
  {
    assert (worlds + [Happens(worlds[|happenings|], h, provider)])[0] == worlds[0];
  }

  /** Extends a run by one happening. */
  lemma Continue(worlds: seq<World>, happenings: seq<Happening>, h: Happening, provider: Provider)
      returns (worlds': seq<World>, happenings': seq<Happening>)
    requires GatewayRun(worlds, happenings, provider) && CanHappen(worlds[|happenings|], h)
    ensures GatewayRun(worlds', happenings', provider) && happenings' == happenings + [h]
    ensures worlds'[|happenings'|] == Happens(worlds[|happenings|], h, provider)
    ensures NoneSpoils(worlds', happenings', |happenings'|) <==>
      && NoneSpoils(worlds, happenings, |happenings|)
      && !Crowds(worlds[|happenings|], h) && !Drops(worlds[|happenings|], h)
    ensures NoRace(worlds', happenings', |happenings'|) <==>
      && NoRace(worlds, happenings, |happenings|)
      && !Stale(worlds[|happenings|], h) && !Forgets(worlds[|happenings|], h)
  {
    var w := Happens(worlds[|happenings|], h, provider);
    worlds' := worlds + [w];
    happenings' := happenings + [h];
    RunSnoc(worlds, happenings, h, provider);
    SpoilsSnoc(worlds, happenings, w, h);
    RaceSnoc(worlds, happenings, w, h);
  }

  lemma UntilActivated(provider: Provider) returns (worlds: seq<World>, happenings: seq<Happening>)
    ensures GatewayRun(worlds, happenings, provider) && NoneSpoils(worlds, happenings, |happenings|)
    ensures happenings == [Client(ActivationRequest(), None, 0)]
    ensures At(worlds[|happenings|], RoutingActivated, [], Idle(), 9)
    ensures var timers := worlds[|happenings|].sys.conn.phase.table.timers;
      timers.Keys == {GeneralInactivity} && Due(timers[GeneralInactivity], DEFAULT_CONFIG.general)
  {
    worlds, happenings := [Fresh()], [];
    Activate(provider);
    StartIsClosedOnce(Site(SERVER, true), 10, 0);
    worlds, happenings := Continue(worlds, happenings, Client(ActivationRequest(), None, 0), provider);
  }

  /** Extends a run by an accepted request. */
  lemma ContinueRequest(
      worlds: seq<World>, happenings: seq<Happening>, due: seq<TimerId>, path: Path, writes: nat, now: int,
      provider: Provider)
      returns (worlds': seq<World>, happenings': seq<Happening>)
    requires GatewayRun(worlds, happenings, provider)
    requires At(worlds[|happenings|], RoutingActivated, due, path, writes) && writes > 0
    ensures GatewayRun(worlds', happenings', provider)
    ensures happenings' == happenings + [Client(TesterPresent(), None, now)]
    ensures At(worlds'[|happenings'|], WaitDownstreamResponse, due, Accept(path, TesterPresent()), writes - 1)
    ensures NoneSpoils(worlds', happenings', |happenings'|) <==>
      NoneSpoils(worlds, happenings, |happenings|) && InPath(path) == 0
    ensures NoRace(worlds', happenings', |happenings'|) <==> NoRace(worlds, happenings, |happenings|)
  {
    Request(worlds[|happenings|], due, path, writes, now, provider);
    worlds', happenings' := Continue(worlds, happenings, Client(TesterPresent(), None, now), provider);
  }
}
