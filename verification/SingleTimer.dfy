/** The timer service as seen through one timer: an automaton that knows no other timer (inc/TimerManager.h). */
module SingleTimer {
  import opened Options
  import opened Timers
  import opened TimerService

  /** What was said last about a timer. */
  datatype Entry<C> = Absent | Present(callback: C, interval: int, periodic: bool, enabled: bool, expiry: int)

  function EntryOf<I(==), C>(timers: map<I, Timer<C>>, id: I): Entry<C> {
    if id !in timers then Absent
    else
      var t := timers[id];
      Present(t.callback, t.interval, t.periodic, t.enabled, t.expiry)
  }

  /** The automaton: added, removed, given another interval, enabled and disabled by operations on it, removed by
      stopAll and by its own expiry if it is one-shot. Its expiry moves when it is added, restarted or updated, when it
      is enabled after having been disabled, and when it expires as a periodic one. */
  ghost function Next<I(!new), C(!new)>(entry: Entry<C>, e: Event<I, C>, id: I): Entry<C> {
    match e
    case Public(op, now) =>
      (match op
       case Add(i, duration, callback, periodic) =>
         if i == id && callback.Some? then Present(callback.value, duration, periodic, true, now + duration) else entry
       case Remove(i) => if i == id then Absent else entry
       case StopAll => Absent
       case Update(i, duration) =>
         if i == id && entry.Present? then entry.(interval := duration, expiry := now + duration) else entry
       case Enable(i) =>
         if i == id && entry.Present? && !entry.enabled then entry.(enabled := true, expiry := now + entry.interval)
         else entry
       case Disable(i) => if i == id && entry.Present? then entry.(enabled := false) else entry
       case Restart(i) => if i == id && entry.Present? then entry.(expiry := now + entry.interval) else entry)
    case Turn(_, later, outcome) =>
      if !outcome.Fire? || id !in Ids(outcome.callbacks) || entry.Absent? then entry
      else if entry.periodic then entry.(expiry := later(id) + entry.interval)
      else Absent
    case _ => entry
  }

  ghost function Said<I(!new), C(!new)>(events: seq<Event<I, C>>, id: I, k: nat): Entry<C>
    requires k <= |events|
  {
    if k == 0 then Absent else Next(Said(events, id, k - 1), events[k - 1], id)
  }

  lemma OperationSays<I(!new), C(!new)>(m: Monitor<I, C>, op: Operation<I, C>, now: int, id: I)
    ensures EntryOf(Apply(m, op, now).timers, id) == Next(EntryOf(m.timers, id), Public(op, now), id)
  {
  }

  lemma StepSays<I(!new), C(!new)>(s: Service<I, C>, e: Event<I, C>, s': Service<I, C>, id: I)
    requires Step(s, e, s')
    ensures EntryOf(s'.monitor.timers, id) == Next(EntryOf(s.monitor.timers, id), e, id)
  {
    if e.Public? {
      OperationSays(s.monitor, e.op, e.now, id);
    } else if e.Turn? && e.outcome.Fire? {
      assert id in Ids(e.outcome.callbacks) <==> id in DueIds(s.monitor.timers, e.now);
    }
  }

  /** Over every run: the table says of each timer what the operations on it have said, whatever was done to others. */
  lemma {:induction false} TableIsWhatWasSaid<I(!new), C(!new)>(
      states: seq<Service<I, C>>, events: seq<Event<I, C>>, id: I, k: nat)
    requires IsRun(states, events) && k < |states|
    ensures EntryOf(states[k].monitor.timers, id) == Said(events, id, k)
  {
    if k > 0 {
      TableIsWhatWasSaid(states, events, id, k - 1);
      StepSays(states[k - 1], events[k - 1], states[k], id);
    }
  }

  /** Over every run: enabling a timer does nothing to the service exactly if the timer is unknown or already enabled;
      otherwise it is due one interval from now and the worker is told. */
  lemma EnablingTwiceIsOnce<I(!new), C(!new)>(
      states: seq<Service<I, C>>, events: seq<Event<I, C>>, id: I, k: nat)
    requires IsRun(states, events) && k < |events|
    requires events[k].Public? && events[k].op == Enable(id)
    ensures var s, now, said := states[k], events[k].now, Said(events, id, k);
      var timers, after := s.monitor.timers, states[k + 1].monitor.timers;
      if said.Absent? || said.enabled then states[k + 1] == s.(clock := now)
      else
        && states[k + 1].monitor.changed && (s.worker.Asleep() ==> states[k + 1].notified)
        && id in after && Due(after[id], now + said.interval) && !Due(after[id], now + said.interval - 1)
        && after - {id} == timers - {id}
  {
    TableIsWhatWasSaid(states, events, id, k);
    assert Step(states[k], events[k], states[k + 1]);
  }

  /** The expiries recorded by a step are those of timers that are there and enabled, with what was said about them. */
  lemma RecordedByStep<I(!new), C(!new)>(s: Service<I, C>, e: Event<I, C>, s': Service<I, C>, n: nat)
    requires Step(s, e, s') && |s.history.log| <= n < |s'.history.log|
    ensures var x := s'.history.log[n];
      var entry := EntryOf(s.monitor.timers, x.id);
      && e.Turn? && e.outcome.Fire? && x.id in Ids(e.outcome.callbacks)
      && entry.Present? && entry.enabled && entry.expiry <= x.at
      && x.interval == entry.interval && x.oneShot == !entry.periodic
  {
    var order := Ids(e.outcome.callbacks);
    var i := n - |s.history.log|;
    assert order[i] in order;
    assert s'.history.log[n] == Record(s.history, s.monitor.timers, e.now, order[i]);
    assert order[i] in DueIds(s.monitor.timers, e.now);
  }

  lemma LogGrows<I(!new), C(!new)>(s: Service<I, C>, e: Event<I, C>, s': Service<I, C>)
    requires Step(s, e, s')
    ensures s.history.log <= s'.history.log
  {
  }

  /** Over every run: each expiry recorded by step k is of a timer about which Present and enabled was said last, and
      comes no earlier than said. */
  lemma RecordedIfSaid<I(!new), C(!new)>(
      states: seq<Service<I, C>>, events: seq<Event<I, C>>, k: nat, n: nat)
    requires IsRun(states, events) && k < |events|
    requires |states[k].history.log| <= n < |states[k + 1].history.log|
    ensures var x := states[k + 1].history.log[n];
      var said := Said(events, x.id, k);
      said.Present? && said.enabled && said.expiry <= x.at && x.interval == said.interval && x.oneShot == !said.periodic
  {
    RecordedByStep(states[k], events[k], states[k + 1], n);
    TableIsWhatWasSaid(states, events, states[k + 1].history.log[n].id, k);
  }

  /** An operation that ends a timer, and one that can bring it back. */
  predicate Silences<I(==), C>(e: Event<I, C>, id: I) {
    e.Public? && (e.op == Remove(id) || e.op == Operation.StopAll || e.op == Disable(id))
  }

  predicate Revives<I(==), C>(e: Event<I, C>, id: I) {
    e.Public? && (e.op == Enable(id) || (e.op.Add? && e.op.id == id && e.op.callback.Some?))
  }

  ghost predicate Silent<C>(entry: Entry<C>) {
    entry.Present? ==> !entry.enabled
  }

  lemma {:induction false} StaysSilent<I(!new), C(!new)>(events: seq<Event<I, C>>, id: I, i: nat, j: nat)
    requires i < j <= |events| && Silences(events[i], id)
    requires forall k :: i < k < j ==> !Revives(events[k], id)
    ensures Silent(Said(events, id, j))
    decreases j
  {
    if i + 1 < j {
      StaysSilent(events, id, i, j - 1);
    }
  }

  /** The longer log has no further expiry of the timer. */
  ghost predicate NoneAddedFor<I>(before: seq<Expiry<I>>, after: seq<Expiry<I>>, id: I) {
    forall n :: |before| <= n < |after| ==> after[n].id != id
  }

  lemma NoneAddedTwice<I>(first: seq<Expiry<I>>, second: seq<Expiry<I>>, third: seq<Expiry<I>>, id: I)
    requires first <= second <= third
    requires NoneAddedFor(first, second, id) && NoneAddedFor(second, third, id)
    ensures first <= third && NoneAddedFor(first, third, id)
  {
  }

  /** Over every run: a timer that was removed, disabled, or swept away by stopAll does not expire again before it is
      added or enabled again. */
  lemma {:induction false} SilencedTimersAreQuiet<I(!new), C(!new)>(
      states: seq<Service<I, C>>, events: seq<Event<I, C>>, id: I, i: nat, j: nat)
    requires IsRun(states, events) && i < j < |states| && Silences(events[i], id)
    requires forall k :: i < k < j ==> !Revives(events[k], id)
    ensures states[i + 1].history.log <= states[j].history.log
    ensures NoneAddedFor(states[i + 1].history.log, states[j].history.log, id)
    decreases j
  {
    if i + 1 < j {
      SilencedTimersAreQuiet(states, events, id, i, j - 1);
      QuietStep(states, events, id, i, j - 1);
      NoneAddedTwice(states[i + 1].history.log, states[j - 1].history.log, states[j].history.log, id);
    }
  }

  lemma QuietStep<I(!new), C(!new)>(
      states: seq<Service<I, C>>, events: seq<Event<I, C>>, id: I, i: nat, k: nat)
    requires IsRun(states, events) && i < k < |events| && Silences(events[i], id)
    requires forall m :: i < m < k ==> !Revives(events[m], id)
    ensures states[k].history.log <= states[k + 1].history.log
    ensures NoneAddedFor(states[k].history.log, states[k + 1].history.log, id)
  {
    LogGrows(states[k], events[k], states[k + 1]);
    StaysSilent(events, id, i, k);
    var before, after := states[k].history.log, states[k + 1].history.log;
    forall n | |before| <= n < |after|
      ensures after[n].id != id
    {
      RecordedIfSaid(states, events, k, n);
    }
  }
}
