/** The timer table of inc/TimerManager.h: public operations and one pass of the worker. */
module Timers {
  import opened Options

  datatype Timer<C> = Timer(expiry: int, callback: C, interval: int, periodic: bool, enabled: bool)

  /** What the mutex protects: the table and the "table changed" flag. */
  datatype Monitor<I, C> = Monitor(timers: map<I, Timer<C>>, changed: bool)

  datatype Operation<I, C> =
    | Add(id: I, duration: int, callback: Option<C>, periodic: bool)
    | Remove(id: I)
    | Restart(id: I)
    | Update(id: I, duration: int)
    | Disable(id: I)
    | Enable(id: I)
    | StopAll

  /** The effect of a public operation that reads the clock as `now`. */
  function Apply<I(==), C>(m: Monitor<I, C>, op: Operation<I, C>, now: int): Monitor<I, C> {
    match op
    case Add(id, duration, callback, periodic) =>
      if callback.None? then m
      else Monitor(m.timers[id := Timer(now + duration, callback.value, duration, periodic, true)], true)
    case StopAll => Monitor(map[], true)
    case Remove(id) =>
      if id in m.timers then Monitor(m.timers - {id}, true) else m
    case Restart(id) =>
      if id !in m.timers then m
      else Monitor(m.timers[id := m.timers[id].(expiry := now + m.timers[id].interval)], true)
    case Update(id, duration) =>
      if id !in m.timers then m
      else Monitor(m.timers[id := m.timers[id].(interval := duration, expiry := now + duration)], true)
    case Disable(id) =>
      if id !in m.timers then m
      else m.(timers := m.timers[id := m.timers[id].(enabled := false)])
    case Enable(id) =>
      if id !in m.timers || m.timers[id].enabled then m
      else Monitor(m.timers[id := m.timers[id].(enabled := true, expiry := now + m.timers[id].interval)], true)
  }

  /** Whether the operation signals the worker's condition variable. */
  predicate Notifies<I(==), C>(m: Monitor<I, C>, op: Operation<I, C>) {
    match op
    case Add(_, _, callback, _) => callback.Some?
    case StopAll => true
    case Remove(id) => id in m.timers
    case Restart(id) => id in m.timers
    case Update(id, _) => id in m.timers
    case Disable(_) => false
    case Enable(id) => id in m.timers && !m.timers[id].enabled
  }

  predicate Due<C>(t: Timer<C>, now: int) {
    t.enabled && t.expiry <= now
  }

  function DueIds<I(==), C>(timers: map<I, Timer<C>>, now: int): set<I> {
    set id | id in timers && Due(timers[id], now)
  }

  /** The table after a pass; `later(id)` is the clock when periodic timer id is re-armed. */
  function AfterPass<I(==), C>(timers: map<I, Timer<C>>, now: int, later: I -> int): map<I, Timer<C>> {
    map id | id in timers && (Due(timers[id], now) ==> timers[id].periodic) ::
      if Due(timers[id], now) then timers[id].(expiry := later(id) + timers[id].interval) else timers[id]
  }

  /** The deadline a sleeping worker uses; None is "no enabled timer", time_point::max(). */
  ghost predicate IsNextExpiry<I, C>(timers: map<I, Timer<C>>, ids: set<I>, deadline: Option<int>)
    requires ids <= timers.Keys
  {
    && (deadline.Some? ==> exists id :: id in ids && timers[id].enabled && timers[id].expiry == deadline.value)
    && (forall id :: id in ids && timers[id].enabled ==> deadline.Some? && deadline.value <= timers[id].expiry)
  }

  ghost predicate Enumerates<I(!new)>(order: seq<I>, ids: set<I>) {
    && (forall id :: id in order <==> id in ids)
    && (forall i, j :: 0 <= i < j < |order| ==> order[i] != order[j])
  }

  lemma EnumerationOfAtMostOne<I(!new)>(order: seq<I>, ids: set<I>, id: I)
    requires Enumerates(order, ids) && ids <= {id}
    ensures order == if id in ids then [id] else []
  {
    assert |order| > 1 ==> order[0] != order[1];
    var first := if |order| > 0 then order[0] else id;
    forall k | 0 <= k < |order|
      ensures order[k] == id && id in ids
    {
      assert order[k] in order;
    }
    if id in ids {
      assert id in order;
    }
  }

  datatype Outcome<I, C> =
    | Empty
    | Sleep(deadline: Option<int>)
    | Fire(callbacks: seq<(I, C)>)

  function Ids<I, C>(callbacks: seq<(I, C)>): seq<I> {
    seq(|callbacks|, k requires 0 <= k < |callbacks| => callbacks[k].0)
  }

  /** What one turn of the worker loop does while it holds the mutex. */
  ghost predicate TurnEffect<I(!new), C(!new)>(
      m: Monitor<I, C>, now: int, later: I -> int, outcome: Outcome<I, C>, m': Monitor<I, C>)
  {
    match outcome
    case Empty => m.timers == map[] && m' == Monitor(map[], false)
    case Sleep(deadline) =>
      && m.timers != map[]
      && m' == Monitor(m.timers, false)
      && IsNextExpiry(m.timers, m.timers.Keys, deadline)
      && DueIds(m.timers, now) == {}
    case Fire(callbacks) =>
      && m' == Monitor(AfterPass(m.timers, now, later), m.changed)
      && DueIds(m.timers, now) != {}
      && Enumerates(Ids(callbacks), DueIds(m.timers, now))
      && (forall c :: c in callbacks ==> c.0 in m.timers && c.1 == m.timers[c.0].callback)
  }

  class TimerManager<I(==,!new), C(!new)> {
    var timers: map<I, Timer<C>>
    var changed: bool

    ghost function View(): Monitor<I, C>
      reads this
    {
      Monitor(timers, changed)
    }

    constructor ()
      ensures View() == Monitor(map[], false)
    {
      timers := map[];
      changed := false;
    }

    method AddTimer(id: I, duration: int, callback: Option<C>, periodic: bool, now: int) returns (added: Option<I>)
      modifies this
      ensures View() == Apply(old(View()), Add(id, duration, callback, periodic), now)
      ensures added == if callback.None? then None else Some(id)
    {
      if callback.None? {
        return None;
      }
      timers := timers[id := Timer(now + duration, callback.value, duration, periodic, true)];
      changed := true;
      added := Some(id);
    }

    method RemoveTimer(id: I) returns (removed: bool)
      modifies this
      ensures View() == Apply(old(View()), Remove(id), 0)
      ensures removed == (id in old(timers))
    {
      removed := id in timers;
      if removed {
        timers := timers - {id};
        changed := true;
      }
    }

    method RestartTimer(id: I, now: int) returns (found: bool)
      modifies this
      ensures View() == Apply(old(View()), Restart(id), now)
      ensures found == (id in old(timers))
    {
      if id !in timers {
        return false;
      }
      timers := timers[id := timers[id].(expiry := now + timers[id].interval)];
      changed := true;
      found := true;
    }

    method UpdateTimer(id: I, duration: int, now: int) returns (found: bool)
      modifies this
      ensures View() == Apply(old(View()), Update(id, duration), now)
      ensures found == (id in old(timers))
    {
      if id !in timers {
        return false;
      }
      timers := timers[id := timers[id].(interval := duration)];
      timers := timers[id := timers[id].(expiry := now + duration)];
      changed := true;
      found := true;
    }

    method DisableTimer(id: I) returns (found: bool)
      modifies this
      ensures View() == Apply(old(View()), Disable(id), 0)
      ensures found == (id in old(timers))
    {
      if id !in timers {
        return false;
      }
      timers := timers[id := timers[id].(enabled := false)];
      found := true;
    }

    method EnableTimer(id: I, now: int) returns (found: bool)
      modifies this
      ensures View() == Apply(old(View()), Enable(id), now)
      ensures found == (id in old(timers))
    {
      if id !in timers {
        return false;
      }
      if !timers[id].enabled {
        timers := timers[id := timers[id].(enabled := true, expiry := now + timers[id].interval)];
        changed := true;
      }
      found := true;
    }

    /** Disable, then enable: whatever the timer's status was, it ends armed for a full interval. */
    method ResetTimer(id: I, now: int) returns (found: bool)
      modifies this
      ensures found == (id in old(timers))
      ensures !found ==> View() == old(View())
      ensures found ==>
        && changed
        && timers == old(timers)[id := old(timers)[id].(enabled := true, expiry := now + old(timers)[id].interval)]
    {
      found := DisableTimer(id);
      if found {
        assert timers == old(timers)[id := old(timers)[id].(enabled := false)];
        found := EnableTimer(id, now);
      }
    }

    method StopAll()
      modifies this
      ensures View() == Apply(old(View()), Operation.StopAll, 0)
    {
      timers := map[];
      changed := true;
    }

    /** The scan for the earliest deadline; the table's iteration order is arbitrary. */
    method NextExpiry() returns (deadline: Option<int>)
      ensures IsNextExpiry(timers, timers.Keys, deadline)
    {
      deadline := None;
      var rest := timers.Keys;
      while rest != {}
        invariant rest <= timers.Keys
        invariant IsNextExpiry(timers, timers.Keys - rest, deadline)
        decreases rest
      {
        var id :| id in rest;
        ghost var seen := timers.Keys - rest;
        rest := rest - {id};
        assert timers.Keys - rest == seen + {id};
        if timers[id].enabled && (deadline.None? || timers[id].expiry < deadline.value) {
          deadline := Some(timers[id].expiry);
          assert id in timers.Keys - rest && timers[id].expiry == deadline.value;
        }
      }
      assert timers.Keys - rest == timers.Keys;
    }

    /** One turn of the worker loop up to the point where the mutex is given up. */
    method Turn(now: int, later: I -> int) returns (outcome: Outcome<I, C>)
      modifies this
      ensures TurnEffect(old(View()), now, later, outcome, View())
    {
      if timers == map[] {
        changed := false;
        return Empty;
      }
      var deadline := NextExpiry();
      if deadline.None? || deadline.value > now {
        changed := false;
        return Sleep(deadline);
      }
      assert exists id :: id in timers && Due(timers[id], now);
      var id0 :| id0 in timers && Due(timers[id0], now);
      assert id0 in DueIds(timers, now);
      var callbacks := Collect(now, later);
      outcome := Fire(callbacks);
    }

    /** The second scan: collect what is due, re-arm periodic timers, then erase the one-shots. */
    method Collect(now: int, later: I -> int) returns (callbacks: seq<(I, C)>)
      modifies this
      ensures timers == AfterPass(old(timers), now, later) && changed == old(changed)
      ensures Enumerates(Ids(callbacks), DueIds(old(timers), now))
      ensures forall c :: c in callbacks ==> c.0 in old(timers) && c.1 == old(timers)[c.0].callback
    {
      ghost var was := timers;
      callbacks := [];
      var toRemove: seq<I> := [];
      var rest := timers.Keys;
      ghost var hit: set<I> := {};
      while rest != {}
        invariant changed == old(changed)
        invariant rest <= was.Keys
        invariant timers == Rearmed(was, rest, now, later)
        invariant hit == set id | id in was && id !in rest && Due(was[id], now)
        invariant Enumerates(Ids(callbacks), hit)
        invariant forall c :: c in callbacks ==> c.0 in was && c.1 == was[c.0].callback
        invariant forall id :: id in toRemove <==> id in hit && !was[id].periodic
        decreases rest
      {
        var id :| id in rest;
        if Due(timers[id], now) {
          EnumeratesSnoc(callbacks, (id, timers[id].callback), hit);
          callbacks := callbacks + [(id, timers[id].callback)];
          hit := hit + {id};
          if timers[id].periodic {
            timers := timers[id := timers[id].(expiry := later(id) + timers[id].interval)];
          } else {
            toRemove := toRemove + [id];
          }
        }
        rest := rest - {id};
      }
      assert hit == DueIds(was, now);
      EraseAll(toRemove);
    }

    method EraseAll(toRemove: seq<I>)
      modifies this
      ensures timers == map id | id in old(timers) && id !in toRemove :: old(timers)[id]
      ensures changed == old(changed)
    {
      for k := 0 to |toRemove|
        invariant changed == old(changed)
        invariant timers == map id | id in old(timers) && id !in toRemove[..k] :: old(timers)[id]
      {
        timers := timers - {toRemove[k]};
        assert toRemove[..k + 1] == toRemove[..k] + [toRemove[k]];
      }
      assert toRemove[..|toRemove|] == toRemove;
    }
  }

  /** The table in the middle of the second scan, when the timers in `rest` are still to be visited. */
  ghost function Rearmed<I, C>(was: map<I, Timer<C>>, rest: set<I>, now: int, later: I -> int): map<I, Timer<C>> {
    map id | id in was ::
      if id !in rest && Due(was[id], now) && was[id].periodic
      then was[id].(expiry := later(id) + was[id].interval)
      else was[id]
  }

  lemma EnumeratesSnoc<I(!new), C>(callbacks: seq<(I, C)>, c: (I, C), ids: set<I>)
    requires Enumerates(Ids(callbacks), ids) && c.0 !in ids
    ensures Enumerates(Ids(callbacks + [c]), ids + {c.0})
  {
    var order := Ids(callbacks);
    assert Ids(callbacks + [c]) == order + [c.0];
    forall i | 0 <= i < |order|
      ensures order[i] != c.0
    {
      assert order[i] in order;
    }
  }

  // ------------------------------------------------------- one pass refines the simple specification

  /** Untouched timers, erased one-shots and re-armed periodics are told apart exactly by Due and periodic. */
  lemma PassEffect<I, C>(timers: map<I, Timer<C>>, now: int, later: I -> int, id: I)
    requires id in timers && later(id) >= now
    ensures var t, after := timers[id], AfterPass(timers, now, later);
      && (id !in after <==> Due(t, now) && !t.periodic)
      && (id in after && !Due(t, now) ==> after[id] == t)
      && (id in after && Due(t, now) && t.interval > 0 ==> after[id].expiry > now)
  {
  }
}
