/**
What a set of timers promises, apart from how timer.h stores them: the meaning of each operation, and what
follows for whole runs.
*/
module TimerRuns {

  /** A timer's expiry, and whether its callback is still set. */
  datatype Entry = Entry(expire: int, armed: bool)

  /** `fired` lists the callbacks made, with the clock of the tick that made them; `used` the timers ever added. */
  datatype Timers<T(==)> = Timers(pending: map<T, Entry>, fired: seq<(T, int)>, used: set<T>)

  /** The callbacks for a list of removed timers. */
  function Firings<T(==)>(pending: map<T, Entry>, removed: seq<T>, now: int): seq<(T, int)> {
    if removed == [] then []
    else
      var last := removed[|removed| - 1];
      var before := Firings(pending, removed[..|removed| - 1], now);
      if last in pending && pending[last].armed then before + [(last, now)] else before
  }

  ghost predicate Adds<T>(s: Timers<T>, s': Timers<T>, t: T, e: Entry) {
    t !in s.used && s' == Timers(s.pending[t := e], s.fired, s.used + {t})
  }

  /** The timer stays, but its callback is gone. */
  ghost predicate Deletes<T>(s: Timers<T>, s': Timers<T>, t: T) {
    t in s.pending && s' == s.(pending := s.pending[t := s.pending[t].(armed := false)])
  }

  /** A timer that nothing precedes is removed without a callback. */
  ghost predicate Pops<T>(s: Timers<T>, s': Timers<T>, t: T) {
    && t in s.pending && (forall u :: u in s.pending ==> s.pending[t].expire <= s.pending[u].expire)
    && s' == s.(pending := s.pending - {t})
  }

  ghost predicate Sorted<T>(pending: map<T, Entry>, removed: seq<T>) {
    && (forall i :: 0 <= i < |removed| ==> removed[i] in pending)
    && (forall i, j :: 0 <= i < j < |removed| ==>
         removed[i] != removed[j] && pending[removed[i]].expire <= pending[removed[j]].expire)
  }

  /** Exactly the timers that are due are removed, each once and in order of expiry, and the armed ones call back. */
  ghost predicate Ticks<T>(s: Timers<T>, s': Timers<T>, now: int, removed: seq<T>) {
    && Sorted(s.pending, removed)
    && (forall t :: t in s.pending ==> (t in removed <==> s.pending[t].expire <= now))
    && s'.pending == s.pending - (set t | t in removed)
    && s'.fired == s.fired + Firings(s.pending, removed, now)
    && s'.used == s.used
  }

  datatype Event<T> = Add(t: T, e: Entry) | Delete(t: T) | Pop(t: T) | Tick(now: int, removed: seq<T>)

  ghost predicate Step<T>(s: Timers<T>, ev: Event<T>, s': Timers<T>) {
    match ev
    case Add(t, e) => Adds(s, s', t, e)
    case Delete(t) => Deletes(s, s', t)
    case Pop(t) => Pops(s, s', t)
    case Tick(now, removed) => Ticks(s, s', now, removed)
  }

  /** A run from any timers of which none has called back yet; the clock of its ticks is free to jump. */
  ghost predicate Run<T>(states: seq<Timers<T>>, events: seq<Event<T>>) {
    && |states| == |events| + 1
    && states[0].fired == [] && states[0].pending.Keys <= states[0].used
    && forall i {:trigger events[i]} :: 0 <= i < |events| ==> Step(states[i], events[i], states[i + 1])
  }

  function Times<T(==)>(fired: seq<(T, int)>, t: T): nat {
    if fired == [] then 0 else Times(fired[..|fired| - 1], t) + (if fired[|fired| - 1].0 == t then 1 else 0)
  }

  lemma {:induction false} TimesConcat<T>(a: seq<(T, int)>, b: seq<(T, int)>, t: T)
    ensures Times(a + b, t) == Times(a, t) + Times(b, t)
  {
    if b == [] {
      assert a + b == a;
    } else {
      TimesConcat(a, b[..|b| - 1], t);
      assert (a + b)[..|a + b| - 1] == a + b[..|b| - 1];
    }
  }

  /** A tick calls an armed removed timer back exactly once, with its own clock, and nobody else. */
  lemma {:induction false} FiringsOnce<T>(pending: map<T, Entry>, removed: seq<T>, now: int, t: T)
    requires Sorted(pending, removed)
    ensures Times(Firings(pending, removed, now), t) == (if t in removed && pending[t].armed then 1 else 0)
    ensures (t, now) in Firings(pending, removed, now) <==> t in removed && pending[t].armed
  {
    if removed != [] {
      var front := removed[..|removed| - 1];
      FiringsOnce(pending, front, now, t);
      var before := Firings(pending, front, now);
      var last := removed[|removed| - 1];
      assert removed == front + [last];
      TimesConcat(before, [(last, now)], t);
      assert Times([(last, now)], t) == Times([(last, now)][..0], t) + (if last == t then 1 else 0);
      assert last !in front;
    }
  }

  /** A pending timer is used and has not fired; an unused one has not fired. */
  ghost predicate Consistent<T>(s: Timers<T>, t: T) {
    && (t in s.pending ==> t in s.used && Times(s.fired, t) == 0)
    && (t !in s.used ==> Times(s.fired, t) == 0)
    && Times(s.fired, t) <= 1
  }

  lemma StepConsistent<T>(s: Timers<T>, ev: Event<T>, s': Timers<T>, t: T)
    requires Step(s, ev, s') && Consistent(s, t)
    ensures Consistent(s', t)
    ensures s.used <= s'.used
    ensures t !in s.pending && t in s.used ==> t !in s'.pending && Times(s'.fired, t) == Times(s.fired, t)
  {
    if ev.Tick? {
      FiringsOnce(s.pending, ev.removed, ev.now, t);
      TimesConcat(s.fired, Firings(s.pending, ev.removed, ev.now), t);
    }
  }

  lemma {:induction false} RunConsistent<T>(states: seq<Timers<T>>, events: seq<Event<T>>, i: nat, t: T)
    requires Run(states, events) && i < |states|
    ensures Consistent(states[i], t)
  {
    if i > 0 {
      RunConsistent(states, events, i - 1, t);
      StepConsistent(states[i - 1], events[i - 1], states[i], t);
    }
  }

  /** No timer ever calls back twice. */
  lemma FiresAtMostOnce<T>(states: seq<Timers<T>>, events: seq<Event<T>>, i: nat, t: T)
    requires Run(states, events) && i < |states|
    ensures Times(states[i].fired, t) <= 1
  {
    RunConsistent(states, events, i, t);
  }

  /** After its removal a timer is never pending again and never calls back again. */
  lemma {:induction false} GoneForGood<T>(states: seq<Timers<T>>, events: seq<Event<T>>, i: nat, j: nat, t: T)
    requires Run(states, events) && i <= j < |states|
    requires t !in states[i].pending && t in states[i].used
    ensures t !in states[j].pending && t in states[j].used && Times(states[j].fired, t) == Times(states[i].fired, t)
    decreases j - i
  {
    if i < j {
      RunConsistent(states, events, i, t);
      StepConsistent(states[i], events[i], states[i + 1], t);
      GoneForGood(states, events, i + 1, j, t);
    }
  }

  /** What one event can do to a pending timer. */
  lemma PendingStep<T>(s: Timers<T>, ev: Event<T>, s': Timers<T>, t: T)
    requires Step(s, ev, s') && Consistent(s, t) && t in s.pending
    ensures Consistent(s', t) && t in s'.used
    ensures var e := s.pending[t]; var due := ev.Tick? && e.expire <= ev.now;
      && (due ==> t !in s'.pending)
      && Times(s'.fired, t) == (if due && e.armed then 1 else 0)
      && (due && e.armed ==> (t, ev.now) in s'.fired)
      && (!due && ev != Pop(t) ==> t in s'.pending)
      && (t in s'.pending && ev != Delete(t) ==> s'.pending[t] == e)
      && (t in s'.pending ==> s'.pending[t].armed ==> e.armed)
  {
    StepConsistent(s, ev, s', t);
    if ev.Tick? {
      FiringsOnce(s.pending, ev.removed, ev.now, t);
      TimesConcat(s.fired, Firings(s.pending, ev.removed, ev.now), t);
    }
  }

  /** A deleted timer never calls back, however long the run goes on. */
  lemma {:induction false} DeletedNeverFires<T>(states: seq<Timers<T>>, events: seq<Event<T>>, i: nat, j: nat, t: T)
    requires Run(states, events) && i <= j < |states|
    requires t in states[i].pending && !states[i].pending[t].armed
    ensures Times(states[j].fired, t) == 0
    decreases j - i
  {
    RunConsistent(states, events, i, t);
    if i < j {
      PendingStep(states[i], events[i], states[i + 1], t);
      if t in states[i + 1].pending {
        DeletedNeverFires(states, events, i + 1, j, t);
      } else {
        GoneForGood(states, events, i + 1, j, t);
      }
    }
  }

  /** Nobody takes the timer out of the game between two moments of a run. */
  ghost predicate LeftAlone<T>(events: seq<Event<T>>, i: nat, j: nat, t: T)
    requires i <= j <= |events|
  {
    forall k :: i <= k < j ==> events[k] != Delete(t) && events[k] != Pop(t)
  }

  /** The first tick between two moments at which something expiring at `expire` is due, or `j` if there is none. */
  ghost function FirstDueTick<T>(events: seq<Event<T>>, i: nat, j: nat, expire: int): (k: nat)
    requires i <= j <= |events|
    ensures i <= k <= j
    decreases j - i
  {
    if i == j || (events[i].Tick? && expire <= events[i].now) then i else FirstDueTick(events, i + 1, j, expire)
  }

  /**
  An armed timer that is left alone is pending up to the first tick whose clock has reached its expiry, calls
  back in that tick, and is gone after it; without such a tick it is still pending. The clock may go backwards.
  */
  lemma {:induction false} FiresAtFirstDueTick<T>(states: seq<Timers<T>>, events: seq<Event<T>>, i: nat, j: nat, t: T)
    requires Run(states, events) && i <= j <= |events|
    requires t in states[i].pending && states[i].pending[t].armed && LeftAlone(events, i, j, t)
    ensures var e := states[i].pending[t];
      var k := FirstDueTick(events, i, j, e.expire);
      && (forall m :: i <= m <= k ==> t in states[m].pending && states[m].pending[t] == e)
      && (k < j ==>
           && Times(states[k].fired, t) == 0 && Times(states[k + 1].fired, t) == 1
           && (t, events[k].now) in states[k + 1].fired
           && t !in states[j].pending && Times(states[j].fired, t) == 1)
    decreases j - i
  {
    if i < j {
      assert Step(states[i], events[i], states[i + 1]);
      RunConsistent(states, events, i, t);
      PendingStep(states[i], events[i], states[i + 1], t);
      hide Step, Consistent;
      if events[i].Tick? && states[i].pending[t].expire <= events[i].now {
        GoneForGood(states, events, i + 1, j, t);
      } else {
        FiresAtFirstDueTick(states, events, i + 1, j, t);
      }
    }
  }
}
