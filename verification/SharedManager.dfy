/** Why every claim about timers is for one connection with its own manager: the server gives all connections the same
    one (src/DoIPServer.cpp), but stopAll and the timer ids do not tell them apart (src/DoIPDefaultConnection.cpp). */
module SharedManager {
  import opened Timers
  import opened Transport
  import opened ConnectionSpec
  import opened Silence

  /** The connection as it stands when another one has left the common table like this. */
  function Finding(c: Conn, table: Monitor<TimerId, TimeoutHandler>): Conn {
    c.(phase := c.phase.(table := table))
  }

  /** Closing one connection disarms the other one for good: no pass will ever disconnect its silent client, although
      alone it would have been checked, or closed, by the first pass after its deadline. */
  lemma ClosingDisarmsTheOther(
      a: Conn, b: Conn, s: ServerState, expiry: int, reason: CloseReason, now: int, ticks: seq<Tick>)
    requires a.phase.table == b.phase.table && Resting(a, s, expiry) && !b.status.closing
    ensures var found := Finding(a, CloseConnection(b, reason, now).phase.table);
      && found.phase.table.timers == map[] && !found.status.closing
      && Passes(found, ticks) == found
  {
    UntimedForever(Finding(a, CloseConnection(b, reason, now).phase.table), ticks);
  }

  /** The constructor on a table that is in use. */
  function ConstructOn(site: Site, link: Link, table: Monitor<TimerId, TimeoutHandler>, now: int): Conn {
    var bare := Construct(site, link, now);
    TransitionTo(bare.(phase := Phase(SocketInitialized, 0, DEFAULT_CONFIG, table)), WaitRoutingActivation, now)
  }

  /** A second connection opened while the first waits for its activation takes over the first one's timer. */
  lemma OpeningTakesTheTimer(a: Conn, site: Site, link: Link, now: int)
    requires a.phase.state == WaitRoutingActivation
    ensures var b := ConstructOn(site, link, a.phase.table, now);
      var found := Finding(a, b.phase.table);
      && found.phase.table.timers.Keys == {InitialInactivity}
      && found.phase.table.timers[InitialInactivity].expiry == now + DEFAULT_CONFIG.initial
  {
  }
}
