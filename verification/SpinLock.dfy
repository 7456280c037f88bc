/**
The reentrant lock of spinlock.c with any number of threads. Loads, stores and the compare-and-swap are steps
of their own, the increments and decrements of the plain counter included. Thread `t` has the id `t + 1`,
because 0 means that nobody owns the lock.
*/
module SpinLock {
  import opened Runs

  /** What a thread does next; `Out` is anything but locking and unlocking. */
  datatype Pc =
    | Out
    | LockCheck
    | LoadNested
    | StoreNested(seen: int)
    | SpinLoad
    | Cas
    | LoadFirst
    | StoreFirst(seen: int)
    | UnlockCheck
    | LoadDown
    | StoreDown(seen: int)
    | TestCount
    | ResetOwner

  /** `depth` is history: how often a thread has locked and not yet unlocked. */
  datatype Thread = Thread(pc: Pc, depth: nat)

  datatype Lock = Lock(owner: nat, lockCount: int, threads: seq<Thread>)

  datatype Action = CallLock(t: nat) | CallUnlock(t: nat) | Run(t: nat)

  predicate Enabled(s: Lock, a: Action) {
    a.t < |s.threads| && (s.threads[a.t].pc.Out? <==> !a.Run?)
  }

  function Do(s: Lock, a: Action): Lock
    requires Enabled(s, a)
  {
    var t, me, th := a.t, a.t + 1, s.threads[a.t];
    match a
    case CallLock(_) => Goto(s, t, LockCheck)
    case CallUnlock(_) => Goto(s, t, UnlockCheck)
    case Run(_) =>
      match th.pc
      case LockCheck => Goto(s, t, if s.owner == me then LoadNested else SpinLoad)
      case LoadNested => Goto(s, t, StoreNested(s.lockCount))
      case StoreNested(seen) => s.(lockCount := seen + 1, threads := s.threads[t := Thread(Out, th.depth + 1)])
      case SpinLoad => Goto(s, t, if s.owner == 0 then Cas else SpinLoad)
      case Cas => if s.owner == 0 then Goto(s.(owner := me), t, LoadFirst) else Goto(s, t, SpinLoad)
      case LoadFirst => Goto(s, t, StoreFirst(s.lockCount))
      case StoreFirst(seen) => s.(lockCount := seen + 1, threads := s.threads[t := Thread(Out, th.depth + 1)])
      case UnlockCheck => Goto(s, t, if s.owner == me then LoadDown else Out)
      case LoadDown => Goto(s, t, StoreDown(s.lockCount))
      case StoreDown(seen) =>
        s.(lockCount := seen - 1,
           threads := s.threads[t := Thread(TestCount, Up(th.depth))])
      case TestCount => Goto(s, t, if s.lockCount == 0 then ResetOwner else Out)
      case ResetOwner => Goto(s.(owner := 0), t, Out)
      case Out => s
  }

  function Goto(s: Lock, t: nat, pc: Pc): Lock
    requires t < |s.threads|
  {
    s.(threads := s.threads[t := s.threads[t].(pc := pc)])
  }

  ghost predicate Init(s: Lock) {
    s.owner == 0 == s.lockCount && forall t :: 0 <= t < |s.threads| ==> s.threads[t] == Thread(Out, 0)
  }

  ghost predicate Next(s: Lock, s': Lock) {
    exists a :: Enabled(s, a) && s' == Do(s, a)
  }

  // ---------- the invariant ----------

  predicate Owns(s: Lock, t: nat) {
    s.owner == t + 1
  }

  /** Which program counters go with owning the lock, and at what depth. */
  predicate ThreadOk(s: Lock, t: nat)
    requires t < |s.threads|
  {
    var th := s.threads[t];
    match th.pc
    case LoadNested => Owns(s, t) && th.depth > 0
    case StoreNested(seen) => Owns(s, t) && th.depth > 0 && seen == s.lockCount
    case SpinLoad => !Owns(s, t) && th.depth == 0
    case Cas => !Owns(s, t) && th.depth == 0
    case LoadFirst => Owns(s, t) && th.depth == 0
    case StoreFirst(seen) => Owns(s, t) && th.depth == 0 && seen == s.lockCount
    case LoadDown => Owns(s, t) && th.depth > 0
    case StoreDown(seen) => Owns(s, t) && th.depth > 0 && seen == s.lockCount
    case TestCount => Owns(s, t)
    case ResetOwner => Owns(s, t) && th.depth == 0
    case _ => Owns(s, t) <==> th.depth > 0
  }

  /** The counter is the depth of the owner. */
  predicate CounterOk(s: Lock) {
    s.owner <= |s.threads| && s.lockCount == if s.owner == 0 then 0 else s.threads[s.owner - 1].depth
  }

  ghost predicate Inv(s: Lock) {
    CounterOk(s) && forall t :: 0 <= t < |s.threads| ==> ThreadOk(s, t)
  }

  lemma StepInv(s: Lock, a: Action)
    requires Inv(s) && Enabled(s, a)
    ensures Inv(Do(s, a))
  {
    var s' := Do(s, a);
    assert ThreadOk(s, a.t);
    forall u | 0 <= u < |s'.threads| ensures ThreadOk(s', u) {
      assert ThreadOk(s, u);
    }
  }

  /**
  Over every interleaving at most one thread is inside, the counter is how deep it is nested, it is the owner,
  and without an owner the counter is 0.
  */
  lemma MutualExclusion(run: seq<Lock>, i: nat, t: nat, u: nat)
    requires IsRun(Init, Next, run) && i < |run| && t < |run[i].threads| && u < |run[i].threads|
    ensures var s := run[i];
      && (s.threads[t].depth > 0 && s.threads[u].depth > 0 ==> t == u)
      && (s.threads[t].depth > 0 ==> s.owner == t + 1 && s.lockCount == s.threads[t].depth)
      && (s.owner == 0 ==> s.lockCount == 0)
  {
    forall s, s' | Inv(s) && Next(s, s') ensures Inv(s') {
      var a :| Enabled(s, a) && s' == Do(s, a);
      StepInv(s, a);
    }
    Invariance(Init, Next, Inv, run);
    assert Inv(run[i]) && ThreadOk(run[i], t) && ThreadOk(run[i], u);
  }

  /** An unlock goes on beyond its first test if and only if the thread is inside; otherwise it changes nothing. */
  lemma UnlockByOwnerOnly(s: Lock, t: nat)
    requires Inv(s) && t < |s.threads| && s.threads[t].pc.UnlockCheck?
    ensures var s' := Do(s, Run(t));
      if s.threads[t].depth > 0 then s'.threads[t].pc == LoadDown
      else s' == s.(threads := s.threads[t := Thread(Out, 0)])
  {
    assert ThreadOk(s, t);
  }

  /** The owner is given up exactly by the unlock that ends the outermost level. */
  lemma ReleasedAtDepthZero(s: Lock, a: Action)
    requires Inv(s) && Enabled(s, a) && s.owner != 0
    ensures var s' := Do(s, a);
      && (s'.owner == s.owner || s'.owner == 0)
      && (s'.owner == 0 <==> s.owner == a.t + 1 && s.threads[a.t].pc.ResetOwner?)
      && (s'.owner == 0 ==> s.threads[a.t].depth == 0)
  {
    assert ThreadOk(s, a.t);
  }

  /** While the lock is owned, no other thread gets past its spinning or returns from its lock. */
  lemma OthersSpin(s: Lock, t: nat)
    requires Inv(s) && t < |s.threads| && s.owner != 0 && !Owns(s, t) && Enabled(s, Run(t))
    ensures Do(s, Run(t)).threads[t].pc == if s.threads[t].pc.UnlockCheck? then Out else SpinLoad
    ensures Do(s, Run(t)).lockCount == s.lockCount && Do(s, Run(t)).owner == s.owner
  {
    assert ThreadOk(s, t);
  }

  predicate Locking(pc: Pc) {
    match pc
    case LockCheck => true
    case LoadNested => true
    case StoreNested(_) => true
    case SpinLoad => true
    case Cas => true
    case LoadFirst => true
    case StoreFirst(_) => true
    case _ => false
  }

  /** In every interleaving a lock returns to a thread that is inside, one level deeper than before. */
  lemma LockReturnsInside(s: Lock, t: nat)
    requires Inv(s) && Enabled(s, Run(t)) && Locking(s.threads[t].pc)
    ensures var s' := Do(s, Run(t));
      if s'.threads[t].pc.Out? then Owns(s', t) && s'.threads[t].depth == s.threads[t].depth + 1
      else Locking(s'.threads[t].pc) && s'.threads[t].depth == s.threads[t].depth
  {
    assert ThreadOk(s, t);
  }

  // ---------- calls come to an end ----------

  /** Thread `t` takes `k` steps, and nobody else does. */
  ghost predicate Alone(s: Lock, t: nat, k: nat, s': Lock)
    decreases k
  {
    if k == 0 then s' == s else Enabled(s, Run(t)) && Alone(Do(s, Run(t)), t, k - 1, s')
  }

  /** Thread `t` is out of its call, and inside at this depth; nothing else has changed. */
  predicate Returned(s: Lock, t: nat, depth: nat, s': Lock)
    requires t < |s.threads|
  {
    s' == Lock(if depth == 0 then 0 else t + 1, depth, s.threads[t := Thread(Out, depth)])
  }

  /** A free lock is taken by whoever runs alone, in five steps from the call and in fewer when already spinning. */
  lemma FreeLockIsTaken(s: Lock, t: nat) returns (s': Lock)
    requires Inv(s) && s.owner == 0 && t < |s.threads|
    requires var pc := s.threads[t].pc; pc.LockCheck? || pc.SpinLoad? || pc.Cas?
    ensures var pc := s.threads[t].pc; Alone(s, t, if pc.LockCheck? then 5 else if pc.SpinLoad? then 4 else 3, s')
    ensures Returned(s, t, 1, s')
  {
    assert ThreadOk(s, t);
    s' := Lock(t + 1, 1, s.threads[t := Thread(Out, 1)]);
    if s.threads[t].pc.LockCheck? {
      assert Alone(s, t, 5, s');
    } else if s.threads[t].pc.SpinLoad? {
      assert Alone(s, t, 4, s');
    } else {
      assert Alone(s, t, 3, s');
    }
  }

  /** A thread inside that locks and runs alone is one level deeper in three steps. */
  lemma NestedLockReturns(s: Lock, t: nat) returns (s': Lock)
    requires Inv(s) && Enabled(s, CallLock(t)) && s.threads[t].depth > 0
    ensures Alone(Do(s, CallLock(t)), t, 3, s') && Returned(s, t, s.threads[t].depth + 1, s')
  {
    assert ThreadOk(s, t);
    var depth := s.threads[t].depth + 1;
    s' := Lock(t + 1, depth, s.threads[t := Thread(Out, depth)]);
  }

  /** An unlock takes it one level up, and the last one gives up the lock; outside, nothing happens. */
  lemma UnlockReturns(s: Lock, t: nat) returns (s': Lock)
    requires Inv(s) && Enabled(s, CallUnlock(t))
    ensures var depth, s1 := s.threads[t].depth, Do(s, CallUnlock(t));
      if depth == 0 then Alone(s1, t, 1, s') && s' == s
      else Alone(s1, t, if depth == 1 then 5 else 4, s') && Returned(s, t, depth - 1, s')
  {
    assert ThreadOk(s, t);
    var depth := s.threads[t].depth;
    s' := if depth == 0 then s
          else Lock(if depth == 1 then 0 else t + 1, depth - 1, s.threads[t := Thread(Out, depth - 1)]);
    var s1 := Do(s, CallUnlock(t));
    if depth == 1 {
      assert Alone(s1, t, 5, s');
    } else if depth > 1 {
      assert Alone(s1, t, 4, s');
    }
  }

  // ---------- with others in between ----------

  ghost predicate Trace(s: Lock, actions: seq<Action>, s': Lock)
    decreases |actions|
  {
    if actions == [] then s' == s else Enabled(s, actions[0]) && Trace(Do(s, actions[0]), actions[1..], s')
  }

  function OwnSteps(actions: seq<Action>, t: nat): nat {
    if actions == [] then 0 else (if actions[0].t == t then 1 else 0) + OwnSteps(actions[1..], t)
  }

  /** How many own steps the owner has left in its call, and how deep it is then. */
  function Left(th: Thread): nat {
    match th.pc
    case Out => 0
    case LockCheck => 3
    case LoadNested => 2
    case StoreNested(_) => 1
    case LoadFirst => 2
    case StoreFirst(_) => 1
    case UnlockCheck => if th.depth == 1 then 5 else 4
    case LoadDown => if th.depth == 1 then 4 else 3
    case StoreDown(_) => if th.depth == 1 then 3 else 2
    case TestCount => if th.depth == 0 then 2 else 1
    case _ => 1
  }

  function Up(depth: nat): nat {
    if depth == 0 then 0 else depth - 1
  }

  function Target(th: Thread): nat {
    match th.pc
    case UnlockCheck => Up(th.depth)
    case LoadDown => Up(th.depth)
    case StoreDown(_) => Up(th.depth)
    case TestCount => th.depth
    case ResetOwner => th.depth
    case Out => th.depth
    case _ => th.depth + 1
  }

  /** No step of another thread changes anything for the owner, and each of its own brings it nearer to its end. */
  lemma OwnerAdvances(s: Lock, t: nat, a: Action)
    requires Inv(s) && t < |s.threads| && Owns(s, t) && !s.threads[t].pc.Out? && Enabled(s, a)
    ensures var s' := Do(s, a);
      && |s'.threads| == |s.threads|
      && if a.t != t then s'.owner == s.owner && s'.lockCount == s.lockCount && s'.threads[t] == s.threads[t]
         else Left(s'.threads[t]) == Left(s.threads[t]) - 1 && Target(s'.threads[t]) == Target(s.threads[t]) &&
              (s'.owner == s.owner || s'.threads[t].pc.Out?)
  {
    assert ThreadOk(s, t) && ThreadOk(s, a.t);
  }

  lemma {:induction false} OutStaysOut(s: Lock, actions: seq<Action>, s': Lock, t: nat)
    requires t < |s.threads| && Trace(s, actions, s') && OwnSteps(actions, t) == 0
    ensures t < |s'.threads| && s'.threads[t] == s.threads[t]
    decreases |actions|
  {
    if actions != [] {
      OutStaysOut(Do(s, actions[0]), actions[1..], s', t);
    }
  }

  /** In every interleaving a call of the owner returns after so many own steps and not before, at the right depth. */
  lemma {:induction false} OwnerReturns(s: Lock, actions: seq<Action>, s': Lock, t: nat)
    requires Inv(s) && t < |s.threads| && Owns(s, t) && !s.threads[t].pc.Out?
    requires Trace(s, actions, s') && OwnSteps(actions, t) <= Left(s.threads[t])
    ensures t < |s'.threads|
    ensures if OwnSteps(actions, t) == Left(s.threads[t]) then s'.threads[t] == Thread(Out, Target(s.threads[t]))
            else !s'.threads[t].pc.Out? && Owns(s', t)
    decreases |actions|
  {
    assert ThreadOk(s, t);
    if actions != [] {
      var s1 := Do(s, actions[0]);
      OwnerAdvances(s, t, actions[0]);
      StepInv(s, actions[0]);
      hide Do, Enabled, Inv;
      if s1.threads[t].pc.Out? {
        OutStaysOut(s1, actions[1..], s', t);
      } else {
        OwnerReturns(s1, actions[1..], s', t);
      }
    }
  }
}
