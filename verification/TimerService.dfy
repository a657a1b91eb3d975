/** The worker thread of inc/TimerManager.h interleaved with every public operation. */
module TimerService {
  import opened Options
  import opened Timers

  datatype Worker<I, C> =
    | Deciding
    | SleepingEmpty
    | SleepingUntil(deadline: Option<int>)
    | Firing(callbacks: seq<(I, C)>)
  {
    predicate Asleep() {
      SleepingEmpty? || SleepingUntil?
    }
  }

  /** A collected expiry: when, the interval in force, when it was armed, and by which addTimer call. */
  datatype Expiry<I> = Expiry(id: I, at: int, interval: int, armedAt: int, serial: nat, oneShot: bool)

  datatype History<I> = History(adds: nat, serial: map<I, nat>, armedAt: map<I, int>, log: seq<Expiry<I>>)

  /** `notified`: a signal of the condition variable the sleeping worker has not reacted to yet. */
  datatype Service<I, C> =
    Service(monitor: Monitor<I, C>, worker: Worker<I, C>, notified: bool, clock: int, history: History<I>)

  datatype Event<!I, C> =
    | Public(op: Operation<I, C>, now: int)
    | Turn(now: int, later: I -> int, outcome: Outcome<I, C>)
    | Wake(now: int)
    | RunCallback

  function RecordOperation<I(==), C>(h: History<I>, m: Monitor<I, C>, op: Operation<I, C>, now: int): History<I> {
    if !Notifies(m, op) then h else
    match op
    case Add(id, _, _, _) => h.(adds := h.adds + 1, serial := h.serial[id := h.adds], armedAt := h.armedAt[id := now])
    case Restart(id) => h.(armedAt := h.armedAt[id := now])
    case Update(id, _) => h.(armedAt := h.armedAt[id := now])
    case Enable(id) => h.(armedAt := h.armedAt[id := now])
    case _ => h
  }

  function Record<I(==), C>(h: History<I>, timers: map<I, Timer<C>>, now: int, id: I): Expiry<I>
    requires id in timers
  {
    Expiry(id, now, timers[id].interval,
           if id in h.armedAt then h.armedAt[id] else now,
           if id in h.serial then h.serial[id] else h.adds,
           !timers[id].periodic)
  }

  /** Every table entry was armed by an addTimer call and expires one interval after it was last armed. */
  ghost predicate Armed<I, C>(m: Monitor<I, C>, h: History<I>) {
    forall id :: id in m.timers ==>
      && id in h.serial && id in h.armedAt
      && h.serial[id] < h.adds
      && m.timers[id].expiry == h.armedAt[id] + m.timers[id].interval
  }

  function RecordPass<I(==), C>(
      h: History<I>, timers: map<I, Timer<C>>, now: int, later: I -> int, order: seq<I>): History<I>
    requires forall id :: id in order ==> id in timers
  {
    h.(armedAt := map id | id in h.armedAt :: if id in order then later(id) else h.armedAt[id],
       log := h.log + seq(|order|, k requires 0 <= k < |order| =>
         assert order[k] in order; Record(h, timers, now, order[k])))
  }

  ghost predicate Initial<I, C>(s: Service<I, C>) {
    s == Service(Monitor(map[], false), Deciding, false, s.clock, History(0, map[], map[], []))
  }

  /** What the worker does when it looks at its wait predicate again. */
  function Reconsider<I(==), C>(s: Service<I, C>, now: int): Worker<I, C> {
    match s.worker
    case SleepingEmpty => if s.monitor.timers != map[] then Deciding else s.worker
    case SleepingUntil(deadline) =>
      if s.monitor.changed || (deadline.Some? && now >= deadline.value) then Deciding else s.worker
    case _ => s.worker
  }

  function AfterTurn<I, C>(outcome: Outcome<I, C>): Worker<I, C> {
    match outcome
    case Empty => SleepingEmpty
    case Sleep(deadline) => SleepingUntil(deadline)
    case Fire(callbacks) => Firing(callbacks)
  }

  /** One step of the system; a sleeping worker may wake at any time, with or without a signal. */
  ghost predicate Step<I(!new), C(!new)>(s: Service<I, C>, e: Event<I, C>, s': Service<I, C>) {
    match e
    case Public(op, now) =>
      && now >= s.clock
      && s' == Service(Apply(s.monitor, op, now), s.worker,
                       s.notified || (s.worker.Asleep() && Notifies(s.monitor, op)),
                       now, RecordOperation(s.history, s.monitor, op, now))
    case Turn(now, later, outcome) =>
      && s.worker.Deciding? && now >= s.clock && (forall id :: later(id) >= now)
      && TurnEffect(s.monitor, now, later, outcome, s'.monitor)
      && s'.worker == AfterTurn(outcome) && !s'.notified && s'.clock == now
      && (if outcome.Fire?
          then s'.history == RecordPass(s.history, s.monitor.timers, now, later, Ids(outcome.callbacks))
          else s'.history == s.history)
    case Wake(now) =>
      && s.worker.Asleep() && now >= s.clock
      && s' == s.(worker := Reconsider(s, now), notified := false, clock := now)
    case RunCallback =>
      && s.worker.Firing?
      && s' == s.(worker := if s.worker.callbacks == [] then Deciding else Firing(s.worker.callbacks[1..]))
  }

  ghost predicate IsRun<I(!new), C(!new)>(states: seq<Service<I, C>>, events: seq<Event<I, C>>) {
    && |states| == |events| + 1
    && Initial(states[0])
    && forall k :: 0 <= k < |events| ==> Step(states[k], events[k], states[k + 1])
  }

  // ---------------------------------------------------------------- no lost wake-up

  /** A worker nobody has signalled has nothing to do before its deadline. */
  ghost predicate NoLostWakeup<I, C>(s: Service<I, C>) {
    match s.worker
    case SleepingEmpty => s.notified || s.monitor.timers == map[]
    case SleepingUntil(deadline) =>
      && (s.monitor.changed ==> s.notified)
      && (!s.monitor.changed ==>
          forall id :: id in s.monitor.timers && s.monitor.timers[id].enabled ==>
            deadline.Some? && deadline.value <= s.monitor.timers[id].expiry)
    case _ => true
  }

  lemma NoLostWakeupStep<I(!new), C(!new)>(s: Service<I, C>, e: Event<I, C>, s': Service<I, C>)
    requires NoLostWakeup(s) && Step(s, e, s')
    ensures NoLostWakeup(s')
  {
  }

  /** Over every run and every interleaving of public operations, wake-ups and turns. */
  lemma {:induction false} NoLostWakeupRun<I(!new), C(!new)>(
      states: seq<Service<I, C>>, events: seq<Event<I, C>>, k: nat)
    requires IsRun(states, events) && k < |states|
    ensures NoLostWakeup(states[k])
  {
    if k > 0 {
      NoLostWakeupRun(states, events, k - 1);
      NoLostWakeupStep(states[k - 1], events[k - 1], states[k]);
    }
  }

  /** Consequence: an overdue timer is never slept through. Waking leads to a turn that collects it. */
  lemma OverdueIsCollected<I(!new), C(!new)>(
      s: Service<I, C>, now: int, woken: Service<I, C>, now': int, later: I -> int, outcome: Outcome<I, C>,
      s': Service<I, C>, id: I)
    requires NoLostWakeup(s) && s.worker.Asleep()
    requires id in s.monitor.timers && Due(s.monitor.timers[id], now)
    requires Step(s, Wake(now), woken)
    requires woken.worker.Deciding? ==> Step(woken, Turn(now', later, outcome), s')
    ensures woken.worker.Deciding?
    ensures outcome.Fire? && id in Ids(outcome.callbacks)
  {
    assert id in DueIds(s.monitor.timers, now');
  }

  // ---------------------------------------------------------------- never early, never twice

  ghost predicate Timely<I(!new), C>(s: Service<I, C>) {
    var h := s.history;
    && Armed(s.monitor, h)
    && (forall k :: 0 <= k < |h.log| ==>
        && h.log[k].at <= s.clock
        && h.log[k].armedAt + h.log[k].interval <= h.log[k].at
        && h.log[k].serial < h.adds)
    && (forall k :: 0 <= k < |h.log| && h.log[k].id in s.monitor.timers ==> Outlives(s, h.log[k]))
    && (forall i, j :: 0 <= i < j < |h.log| && h.log[i].id == h.log[j].id ==> Spaced(h.log[i], h.log[j]))
  }

  /** The table entry for the id of an earlier expiry x is a full interval, or another addTimer call, away. */
  ghost predicate Outlives<I, C>(s: Service<I, C>, x: Expiry<I>)
    requires x.id in s.monitor.timers && x.id in s.history.serial
  {
    && s.monitor.timers[x.id].expiry >= x.at + s.monitor.timers[x.id].interval
    && (x.oneShot ==> s.history.serial[x.id] > x.serial)
  }

  ghost predicate Spaced<I>(x: Expiry<I>, y: Expiry<I>) {
    y.at >= x.at + y.interval && (x.oneShot ==> y.serial > x.serial)
  }

  lemma TimelyPublic<I(!new), C(!new)>(s: Service<I, C>, op: Operation<I, C>, now: int, s': Service<I, C>)
    requires Timely(s) && Step(s, Public(op, now), s')
    ensures Timely(s')
  {
    assert s'.history.log == s.history.log;
    assert Armed(s'.monitor, s'.history);
    forall k | 0 <= k < |s.history.log| && s.history.log[k].id in s'.monitor.timers
      ensures Outlives(s', s.history.log[k])
    {
      var id := s.history.log[k].id;
      if id in s.monitor.timers {
        assert Outlives(s, s.history.log[k]);
      }
    }
  }

  lemma TimelyFire<I(!new), C(!new)>(
      s: Service<I, C>, now: int, later: I -> int, callbacks: seq<(I, C)>, s': Service<I, C>)
    requires Timely(s) && Step(s, Turn(now, later, Fire(callbacks)), s')
    ensures Timely(s')
  {
    var order := Ids(callbacks);
    var timers := s.monitor.timers;
    var h, h' := s.history, s'.history;
    var n := |h.log|;
    assert forall id :: id in order <==> id in timers && Due(timers[id], now);
    assert h' == RecordPass(h, timers, now, later, order);
    assert forall k :: 0 <= k < |order| ==> order[k] in order;
    assert forall k :: n <= k < |h'.log| ==> h'.log[k] == Record(h, timers, now, order[k - n]);
    assert forall k :: 0 <= k < n ==> h'.log[k] == h.log[k];
    assert Armed(s'.monitor, h');
    forall k | 0 <= k < |h'.log| && h'.log[k].id in s'.monitor.timers
      ensures Outlives(s', h'.log[k])
    {
      if k < n {
        assert Outlives(s, h.log[k]);
      }
    }
    forall i, j | 0 <= i < j < |h'.log| && h'.log[i].id == h'.log[j].id
      ensures Spaced(h'.log[i], h'.log[j])
    {
      if j < n {
        assert Spaced(h.log[i], h.log[j]);
      } else if i < n {
        assert Outlives(s, h.log[i]);
      } else {
        assert false;
      }
    }
  }

  lemma {:induction false} TimelyRun<I(!new), C(!new)>(states: seq<Service<I, C>>, events: seq<Event<I, C>>, k: nat)
    requires IsRun(states, events) && k < |states|
    ensures Timely(states[k])
  {
    if k > 0 {
      TimelyRun(states, events, k - 1);
      var s, e, s' := states[k - 1], events[k - 1], states[k];
      assert Step(s, e, s');
      match e {
        case Public(op, now) => TimelyPublic(s, op, now, s');
        case Turn(now, later, outcome) =>
          if outcome.Fire? {
            TimelyFire(s, now, later, outcome.callbacks, s');
          } else {
            assert forall x :: x in s.history.log && x.id in s.monitor.timers && Outlives(s, x) ==> Outlives(s', x);
          }
        case Wake(_) =>
          assert forall x :: x in s.history.log && x.id in s.monitor.timers && Outlives(s, x) ==> Outlives(s', x);
        case RunCallback =>
          assert forall x :: x in s.history.log && x.id in s.monitor.timers && Outlives(s, x) ==> Outlives(s', x);
      }
    }
  }

  /** In every run: no expiry before its interval is over, two expiries of one id at least an interval apart,
      and an addTimer call of a one-shot expires at most once. */
  lemma ExpiryDiscipline<I(!new), C(!new)>(states: seq<Service<I, C>>, events: seq<Event<I, C>>, n: nat, i: nat, j: nat)
    requires IsRun(states, events) && n < |states|
    requires i < |states[n].history.log| && j < |states[n].history.log|
    ensures var x, y := states[n].history.log[i], states[n].history.log[j];
      && x.armedAt + x.interval <= x.at
      && (i < j && x.id == y.id ==> y.at >= x.at + y.interval)
      && (i < j && x.id == y.id && x.oneShot ==> y.serial != x.serial)
  {
    TimelyRun(states, events, n);
    if i < j && states[n].history.log[i].id == states[n].history.log[j].id {
      assert Spaced(states[n].history.log[i], states[n].history.log[j]);
    }
  }
}
