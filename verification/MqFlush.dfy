/**
Several message queues and the list of queues that each thread is associated with (`thread_associate_mqs`),
which `mq_flush` walks. While one thread flushes, all others go on.
*/
module MqFlush {
  import opened Runs
  import opened Sequences
  import opened MessageQueue

  /** `assoc[t]` is the list of thread `t`; `flushing[t]` is how far its walk is, or -1. */
  datatype System = System(queues: seq<Queue>, assoc: seq<seq<nat>>, flushing: seq<int>)
  {
    predicate Fits() {
      |flushing| == |assoc| && forall c :: 0 <= c < |queues| ==> |queues[c].locals| == |assoc|
    }
  }

  datatype Move = OnQueue(c: nat, a: Action) | StartFlush(t: nat) | FlushNext(t: nat) | EndFlush(t: nat)

  /** Threads use queues one operation at a time, and while they flush they only give the signals that they owe. */
  predicate CanMove(s: System, m: Move) {
    && s.Fits()
    && match m
       case OnQueue(c, a) =>
         c < |s.queues| && Enabled(s.queues[c], a) && a.t < |s.assoc| && (s.flushing[a.t] < 0 || a.Signal?)
       case StartFlush(t) =>
         t < |s.assoc| && s.flushing[t] < 0 && forall c :: 0 <= c < |s.queues| ==> s.queues[c].locals[t].pc.Idle?
       case FlushNext(t) =>
         && t < |s.assoc| && 0 <= s.flushing[t] < |s.assoc[t]|
         && s.assoc[t][s.flushing[t]] < |s.queues| && Enabled(s.queues[s.assoc[t][s.flushing[t]]], ForceSync(t))
       case EndFlush(t) => t < |s.assoc| && s.flushing[t] == |s.assoc[t]|
  }

  function Moved(s: System, m: Move): System
    requires CanMove(s, m)
  {
    match m
    case OnQueue(c, a) =>
      var q := s.queues[c];
      s.(queues := s.queues[c := Do(q, a)],
         assoc := if a.Push? && !q.locals[a.t].associated then s.assoc[a.t := s.assoc[a.t] + [c]] else s.assoc)
    case StartFlush(t) => s.(flushing := s.flushing[t := 0])
    case FlushNext(t) =>
      var c := s.assoc[t][s.flushing[t]];
      s.(queues := s.queues[c := Do(s.queues[c], ForceSync(t))], flushing := s.flushing[t := s.flushing[t] + 1])
    case EndFlush(t) => s.(flushing := s.flushing[t := -1])
  }

  ghost predicate Init(s: System) {
    && s.Fits()
    && (forall c :: 0 <= c < |s.queues| ==> MessageQueue.Init(s.queues[c]))
    && (forall t :: 0 <= t < |s.assoc| ==> s.assoc[t] == [] && s.flushing[t] == -1)
  }

  ghost predicate Next(s: System, s': System) {
    exists m :: CanMove(s, m) && s' == Moved(s, m)
  }

  // ---------- the invariant ----------

  /** The thread is not in the middle of an operation, or has only a signal left to give. */
  predicate Between(pc: Pc) {
    pc.Idle? || pc.Signalling?
  }

  /** The list of a thread names exactly the queues it has pushed to, each once; what is flushed stays empty. */
  ghost predicate ThreadOk(s: System, t: nat)
    requires s.Fits() && t < |s.assoc|
  {
    && NoRepeats(s.assoc[t])
    && (forall i :: 0 <= i < |s.assoc[t]| ==> s.assoc[t][i] < |s.queues|)
    && (forall c :: 0 <= c < |s.queues| ==> (c in s.assoc[t] <==> s.queues[c].locals[t].associated))
    && -1 <= s.flushing[t] <= |s.assoc[t]|
    && (s.flushing[t] >= 0 ==> forall c :: 0 <= c < |s.queues| ==> Between(s.queues[c].locals[t].pc))
    && (forall i :: 0 <= i < s.flushing[t] ==> s.queues[s.assoc[t][i]].locals[t].pushQ == [])
  }

  ghost predicate Inv(s: System) {
    && s.Fits()
    && (forall c :: 0 <= c < |s.queues| ==> MessageQueue.Inv(s.queues[c]))
    && (forall t :: 0 <= t < |s.assoc| ==> ThreadOk(s, t))
  }

  /** A step of one thread does not touch what the lists of another say about it. */
  lemma OthersUntouched(q: Queue, a: Action, u: nat)
    requires Enabled(q, a) && u < |q.locals|
    ensures |Do(q, a).locals| == |q.locals|
    ensures u != a.t ==> Do(q, a).locals[u] == q.locals[u]
    ensures Do(q, a).locals[a.t].associated == (q.locals[a.t].associated || a.Push?)
    ensures a.ForceSync? ==> Do(q, a).locals[a.t].pushQ == [] && Between(Do(q, a).locals[a.t].pc)
    ensures a.Signal? ==> Do(q, a).locals[a.t] == q.locals[a.t].(pc := Idle)
  {
  }

  lemma QueueMoveKeepsThread(s: System, c: nat, a: Action, u: nat)
    requires Inv(s) && CanMove(s, OnQueue(c, a)) && u < |s.assoc|
    ensures Moved(s, OnQueue(c, a)).Fits() && ThreadOk(Moved(s, OnQueue(c, a)), u)
  {
    var s' := Moved(s, OnQueue(c, a));
    assert ThreadOk(s, u);
    OthersUntouched(s.queues[c], a, u);
    hide MessageQueue.Inv, Do;
    assert s'.Fits();
    assert s'.assoc[u] == s.assoc[u] || (u == a.t && s'.assoc[u] == s.assoc[u] + [c] && c !in s.assoc[u]);
  }

  lemma FlushMoveKeepsThread(s: System, t: nat, u: nat)
    requires Inv(s) && CanMove(s, FlushNext(t)) && u < |s.assoc|
    ensures Moved(s, FlushNext(t)).Fits() && ThreadOk(Moved(s, FlushNext(t)), u)
  {
    assert ThreadOk(s, u) && ThreadOk(s, t);
    OthersUntouched(s.queues[s.assoc[t][s.flushing[t]]], ForceSync(t), u);
    hide MessageQueue.Inv, Do;
    assert Moved(s, FlushNext(t)).Fits();
  }

  lemma MoveKeepsThread(s: System, m: Move, u: nat)
    requires Inv(s) && CanMove(s, m) && u < |s.assoc|
    ensures Moved(s, m).Fits() && ThreadOk(Moved(s, m), u)
  {
    assert ThreadOk(s, u);
    hide MessageQueue.Inv, Do;
    match m {
      case OnQueue(c, a) => QueueMoveKeepsThread(s, c, a, u);
      case FlushNext(t) => FlushMoveKeepsThread(s, t, u);
      case _ =>
    }
  }

  lemma MoveInv(s: System, m: Move)
    requires Inv(s) && CanMove(s, m)
    ensures Inv(Moved(s, m))
  {
    var s' := Moved(s, m);
    forall c | 0 <= c < |s'.queues| ensures MessageQueue.Inv(s'.queues[c]) {
      assert MessageQueue.Inv(s.queues[c]);
      if m.OnQueue? && c == m.c {
        StepInv(s.queues[c], m.a);
      } else if m.FlushNext? && c == s.assoc[m.t][s.flushing[m.t]] {
        StepInv(s.queues[c], ForceSync(m.t));
      }
    }
    forall u | 0 <= u < |s'.assoc| ensures s'.Fits() && ThreadOk(s', u) {
      MoveKeepsThread(s, m, u);
    }
    if |s.assoc| == 0 {
      assert s'.Fits();
    }
    hide MessageQueue.Inv, ThreadOk, Do;
  }

  /** A thread that finishes a flush holds back nothing on any queue, whatever the others did meanwhile. */
  lemma FlushLeavesNothing(run: seq<System>, i: nat, t: nat)
    requires IsRun(Init, Next, run) && i < |run| && t < |run[i].assoc| && CanMove(run[i], EndFlush(t))
    ensures forall c :: 0 <= c < |run[i].queues| ==> run[i].queues[c].locals[t].pushQ == []
  {
    RunInv(run);
    FlushedAll(run[i], t);
  }

  /** Every queue that a thread has pushed to is in its list exactly once, and no other queue is. */
  lemma AssociatedOnce(run: seq<System>, i: nat, t: nat, c: nat)
    requires IsRun(Init, Next, run) && i < |run| && t < |run[i].assoc| && c < |run[i].queues|
    ensures run[i].Fits() && NoRepeats(run[i].assoc[t])
    ensures c in run[i].assoc[t] <==> run[i].queues[c].locals[t].associated
    ensures run[i].queues[c].locals[t].pushed != [] ==> c in run[i].assoc[t]
  {
    RunInv(run);
    assert ThreadOk(run[i], t);
    assert MessageQueue.Inv(run[i].queues[c]) && MessageQueue.ThreadOk(run[i].queues[c], t);
  }

  lemma RunInv(run: seq<System>)
    requires IsRun(Init, Next, run)
    ensures forall i :: 0 <= i < |run| ==> Inv(run[i])
  {
    forall s | Init(s) ensures Inv(s) {
      forall c | 0 <= c < |s.queues| ensures MessageQueue.Inv(s.queues[c]) {
        InitInv(s.queues[c]);
      }
    }
    forall s, s' | Inv(s) && Next(s, s') ensures Inv(s') {
      var m :| CanMove(s, m) && s' == Moved(s, m);
      MoveInv(s, m);
    }
    Invariance(Init, Next, Inv, run);
  }

  // ---------- a flush comes to its end ----------

  function Mover(m: Move): nat {
    if m.OnQueue? then m.a.t else m.t
  }

  /** These moves of thread `t` lead from one state to the other. */
  ghost predicate Alone(s: System, t: nat, moves: seq<Move>, s': System) {
    if moves == [] then s' == s
    else
      var front, last := moves[..|moves| - 1], moves[|moves| - 1];
      Mover(last) == t && exists s1 :: Alone(s, t, front, s1) && CanMove(s1, last) && s' == Moved(s1, last)
  }

  lemma Goes(s: System, t: nat, moves: seq<Move>, s1: System, m: Move)
    requires Alone(s, t, moves, s1) && CanMove(s1, m) && Mover(m) == t
    ensures Alone(s, t, moves + [m], Moved(s1, m))
  {
    hide CanMove, Moved;
    assert (moves + [m])[..|moves|] == moves;
  }

  /** Thread `t` has flushed `k` of its queues, and owes no signal but maybe for one of them. */
  ghost predicate HasFlushed(s: System, t: nat, k: nat, owing: int) {
    && Inv(s) && t < |s.assoc| && s.flushing[t] == k
    && forall c :: 0 <= c < |s.queues| ==>
         s.queues[c].locals[t].pc.Idle? || (c == owing && s.queues[c].locals[t].pc.Signalling?)
  }

  lemma FlushOne(s: System, t: nat, k: nat)
    requires HasFlushed(s, t, k, -1) && k < |s.assoc[t]|
    ensures CanMove(s, FlushNext(t))
    ensures HasFlushed(Moved(s, FlushNext(t)), t, k + 1, s.assoc[t][k]) && Moved(s, FlushNext(t)).assoc == s.assoc
  {
    assert ThreadOk(s, t);
    MoveInv(s, FlushNext(t));
    OthersUntouched(s.queues[s.assoc[t][k]], ForceSync(t), t);
    hide MessageQueue.Inv, Do, ThreadOk;
  }

  lemma SignalOne(s: System, t: nat, k: nat, c: nat)
    requires HasFlushed(s, t, k, c) && c < |s.queues| && s.queues[c].locals[t].pc.Signalling?
    ensures var m := OnQueue(c, Signal(t));
      CanMove(s, m) && HasFlushed(Moved(s, m), t, k, -1) && Moved(s, m).assoc == s.assoc
  {
    MoveInv(s, OnQueue(c, Signal(t)));
    OthersUntouched(s.queues[c], Signal(t), t);
    hide MessageQueue.Inv, Do, ThreadOk;
  }

  /** A thread that flushes by itself gets to the end of its list, in two moves a queue, and holds back nothing. */
  lemma FlushEnds(s: System, t: nat) returns (moves: seq<Move>, s': System)
    requires Inv(s) && CanMove(s, StartFlush(t))
    ensures Alone(s, t, moves, s') && |moves| <= 2 * |s.assoc[t]| + 2
    ensures s'.Fits() && |s'.queues| == |s.queues| && t < |s'.assoc| && s'.flushing[t] == -1
    ensures forall c :: 0 <= c < |s'.queues| ==> s'.queues[c].locals[t].pushQ == [] && s'.queues[c].locals[t].pc.Idle?
  {
    moves, s' := [], s;
    Goes(s, t, moves, s', StartFlush(t));
    MoveInv(s, StartFlush(t));
    moves, s' := [StartFlush(t)], Moved(s, StartFlush(t));
    for k := 0 to |s.assoc[t]|
      invariant Alone(s, t, moves, s') && HasFlushed(s', t, k, -1) && s'.assoc == s.assoc && |moves| <= 2 * k + 1
      invariant |s'.queues| == |s.queues|
    {
      var c := s'.assoc[t][k];
      FlushOne(s', t, k);
      Goes(s, t, moves, s', FlushNext(t));
      moves, s' := moves + [FlushNext(t)], Moved(s', FlushNext(t));
      if c < |s'.queues| && s'.queues[c].locals[t].pc.Signalling? {
        SignalOne(s', t, k + 1, c);
        Goes(s, t, moves, s', OnQueue(c, Signal(t)));
        moves, s' := moves + [OnQueue(c, Signal(t))], Moved(s', OnQueue(c, Signal(t)));
      }
    }
    FlushedAll(s', t);
    Goes(s, t, moves, s', EndFlush(t));
    moves, s' := moves + [EndFlush(t)], Moved(s', EndFlush(t));
  }

  lemma FlushedAll(s: System, t: nat)
    requires Inv(s) && t < |s.assoc| && s.flushing[t] == |s.assoc[t]|
    ensures forall c :: 0 <= c < |s.queues| ==> s.queues[c].locals[t].pushQ == []
  {
    assert ThreadOk(s, t);
    forall c | 0 <= c < |s.queues| ensures s.queues[c].locals[t].pushQ == [] {
      assert MessageQueue.Inv(s.queues[c]) && MessageQueue.ThreadOk(s.queues[c], t);
      if c in s.assoc[t] {
        var j :| 0 <= j < |s.assoc[t]| && s.assoc[t][j] == c;
      }
    }
  }
}
