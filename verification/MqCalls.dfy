/** What one call of mq.c does when nobody comes in between: every call ends, or waits because it must. */
module MqCalls {
  import opened MessageQueue

  /** These steps of thread `t` lead from one state to the other. */
  ghost predicate Alone(q: Queue, t: nat, steps: seq<Action>, q': Queue)
    decreases |steps|
  {
    if steps == [] then q' == q
    else steps[0].t == t && Enabled(q, steps[0]) && Alone(Do(q, steps[0]), t, steps[1..], q')
  }

  lemma Prepend(q: Queue, t: nat, a: Action, steps: seq<Action>, q': Queue)
    requires a.t == t && Enabled(q, a) && Alone(Do(q, a), t, steps, q')
    ensures Alone(q, t, [a] + steps, q')
  {
    assert ([a] + steps)[1..] == steps;
  }

  lemma Done(q: Queue, t: nat)
    ensures Alone(q, t, [], q)
  {
  }

  /** How much of what it finds a call returns. */
  function Portion(all: bool, found: seq<Msg>): nat {
    if all || |found| <= 1 then |found| else 1
  }

  /** The call of thread `t` has returned its portion of `found` and left the rest; `share` is what is still shared. */
  predicate Returns(q: Queue, t: nat, all: bool, found: seq<Msg>, share: seq<Msg>, q': Queue)
    requires t < |q.locals|
  {
    && |q'.locals| == |q.locals| && q'.share == share && q'.blocks == q.blocks && q'.signalled == q.signalled
    && q'.locals[t].pc.Idle? && q'.locals[t].popQ == found[Portion(all, found)..]
    && q'.locals[t].history != []
    && q'.locals[t].history[|q'.locals[t].history| - 1] == Returned(all, found[..Portion(all, found)])
    && forall u :: 0 <= u < |q.locals| && u != t ==> q'.locals[u] == q.locals[u]
  }

  /** The thread is at the end of the blocked ones, unless it was among them already. */
  predicate LinkedLast(blocks: seq<nat>, t: nat, blocks': seq<nat>) {
    blocks <= blocks' && if t in blocks then blocks' == blocks else blocks'[|blocks|..] == [t]
  }

  lemma TakeReturns(q: Queue, t: nat)
    requires t < |q.locals| && q.locals[t].pc.Taking?
    ensures Enabled(q, Take(t))
    ensures Returns(q, t, q.locals[t].pc.all, q.locals[t].popQ, q.share, Do(q, Take(t)))
  {
    FirstPortion(q.locals[t].pc.all, q.locals[t].popQ);
    hide Portion, From, Flat, Unlink, Link;
  }

  lemma FirstPortion(all: bool, found: seq<Msg>)
    ensures found[..Portion(all, found)] == if all || found == [] then found else [found[0]]
    ensures Portion(all, found) == |if all || found == [] then found else [found[0]]|
  {
  }

  lemma TakeAlone(q: Queue, t: nat) returns (q': Queue)
    requires t < |q.locals| && q.locals[t].pc.Taking?
    ensures Alone(q, t, [Take(t)], q')
    ensures Returns(q, t, q.locals[t].pc.all, q.locals[t].popQ, q.share, q')
  {
    TakeReturns(q, t);
    q' := Do(q, Take(t));
    hide Do;
    Done(q', t);
    Prepend(q, t, Take(t), [], q');
  }

  /**
  A pop returns from its own list or, when that is empty, from all that is shared, mq_pop one message and mq_push_list
  everything; only if there is nothing at all and it has time, it links itself as blocked and waits.
  */
  lemma PopAlone(q: Queue, t: nat, timeout: nat, all: bool) returns (steps: seq<Action>, q': Queue)
    requires Enabled(q, Pop(t, timeout, all))
    ensures Alone(q, t, steps, q') && |steps| <= 3 && |q'.locals| == |q.locals|
    ensures var popQ := q.locals[t].popQ;
      if popQ != [] then Returns(q, t, all, popQ, q.share, q')
      else if q.share != [] || timeout == 0 then Returns(q, t, all, q.share, [], q')
      else q'.locals[t].pc == Waiting(all) && q'.share == [] && LinkedLast(q.blocks, t, q'.blocks)
  {
    var q1 := Do(q, Pop(t, timeout, all));
    if q.locals[t].popQ != [] {
      q' := TakeAlone(q1, t);
      steps := [Take(t)];
    } else {
      q', steps := SyncPopAlone(q1, t);
    }
    Prepend(q, t, Pop(t, timeout, all), steps, q');
    steps := [Pop(t, timeout, all)] + steps;
    hide Alone, Portion;
  }

  lemma SyncPopAlone(q: Queue, t: nat) returns (q': Queue, steps: seq<Action>)
    requires Enabled(q, SyncPop(t)) && q.locals[t].popQ == []
    ensures Alone(q, t, steps, q') && |steps| <= 2 && |q'.locals| == |q.locals|
    ensures if q.share != [] || q.locals[t].pc.timeout == 0 then Returns(q, t, q.locals[t].pc.all, q.share, [], q')
      else q'.locals[t].pc == Waiting(q.locals[t].pc.all) && q'.share == [] && LinkedLast(q.blocks, t, q'.blocks)
  {
    var q1 := Do(q, SyncPop(t));
    if q1.locals[t].pc.Taking? {
      assert q1.locals[t].popQ == q.share;
      q' := TakeAlone(q1, t);
      steps := [Take(t)];
    } else {
      q', steps := q1, [];
      Done(q', t);
    }
    Prepend(q, t, SyncPop(t), steps, q');
    steps := [SyncPop(t)] + steps;
    hide Alone, Portion;
  }

  /** A thread that wakes up takes all there is, and waits on, linked, if there is nothing. */
  lemma WakeAlone(q: Queue, t: nat) returns (steps: seq<Action>, q': Queue)
    requires Enabled(q, Wake(t)) && q.locals[t].popQ == []
    ensures Alone(q, t, steps, q') && |steps| <= 2 && |q'.locals| == |q.locals|
    ensures if q.share == [] then IsWaiting(q', t) && LinkedLast(q.blocks, t, q'.blocks)
      else Returns(q.(signalled := q.signalled - {t}), t, q.locals[t].pc.all, q.share, [], q')
  {
    var q1 := Do(q, Wake(t));
    assert [] + q.share == q.share;
    if q.share != [] {
      q' := TakeAlone(q1, t);
      steps := [Take(t)];
    } else {
      q', steps := q1, [];
      Done(q', t);
    }
    Prepend(q, t, Wake(t), steps, q');
    steps := [Wake(t)] + steps;
    hide Alone, Portion;
  }

  /** One that times out is not linked any more and returns from all there is, if only nothing. */
  lemma TimeOutAlone(q: Queue, t: nat) returns (q': Queue)
    requires Enabled(q, TimeOut(t)) && q.locals[t].popQ == []
    ensures Alone(q, t, [TimeOut(t), Take(t)], q')
    ensures Returns(q.(signalled := q.signalled - {t}, blocks := Unlink(q.blocks, t)), t, q.locals[t].pc.all, q.share,
                    [], q')
  {
    var q1 := Do(q, TimeOut(t));
    assert [] + q.share == q.share;
    q' := TakeAlone(q1, t);
    Prepend(q, t, TimeOut(t), [Take(t)], q');
    hide Alone, Portion, Unlink;
  }

  // ---------- pushing ----------

  /** Messages of thread `t` are shared; if nothing was before, the first blocked thread is unlinked and signalled. */
  predicate Shares(q: Queue, t: nat, msgs: seq<Msg>, q': Queue)
    requires t < |q.locals|
  {
    && q'.share == q.share + msgs
    && |q'.locals| == |q.locals| && q'.locals[t].pc.Idle? && q'.locals[t].pushQ == []
    && if q.share == [] && q.blocks != [] then
         var first := q.blocks[0];
         q'.blocks == q.blocks[1..] && q'.signalled == q.signalled + if IsWaiting(q, first) then {first} else {}
       else q'.blocks == q.blocks && q'.signalled == q.signalled
  }

  lemma ShareAlone(q: Queue, t: nat, a: Action) returns (steps: seq<Action>, q': Queue)
    requires Enabled(q, a) && a.t == t && (a.SyncPush? || (a.ForceSync? && q.locals[t].pushQ != []))
    ensures Alone(q, t, steps, q') && |steps| <= 2 && Shares(q, t, q.locals[t].pushQ, q')
  {
    var q1 := Do(q, a);
    if q1.locals[t].pc.Signalling? {
      q' := Do(q1, Signal(t));
      assert IsWaiting(q1, q.blocks[0]) == IsWaiting(q, q.blocks[0]);
      steps := [Signal(t)];
      Done(q', t);
      Prepend(q1, t, Signal(t), [], q');
    } else {
      q', steps := q1, [];
      Done(q', t);
    }
    Prepend(q, t, a, steps, q');
    steps := [a] + steps;
    hide Alone;
  }

  /**
  A push takes the message unless it is linked, and shares what the thread has if and only if it is mq_push_now or the
  list has reached `push_size`.
  */
  lemma PushAlone(q: Queue, t: nat, body: int, linked: bool, now: bool) returns (steps: seq<Action>, q': Queue)
    requires Enabled(q, Push(t, body, linked, now))
    ensures Alone(q, t, steps, q') && |steps| <= 3
    ensures var msgs := q.locals[t].pushQ + if linked then [] else [Msg(t, body)];
      if now || |msgs| >= q.pushSize then Shares(q, t, msgs, q')
      else |q'.locals| == |q.locals| && q'.locals == q.locals[t := q'.locals[t]] &&
           q'.locals[t].pc.Idle? && q'.locals[t].pushQ == msgs &&
           q'.share == q.share && q'.blocks == q.blocks && q'.signalled == q.signalled
  {
    var a := Push(t, body, linked, now);
    var q1 := Do(q, a);
    assert q.locals[t].pushQ + [] == q.locals[t].pushQ;
    if q1.locals[t].pc.Syncing? {
      steps, q' := ShareAlone(q1, t, SyncPush(t));
      assert q.blocks != [] ==> IsWaiting(q1, q.blocks[0]) == IsWaiting(q, q.blocks[0]);
    } else {
      q', steps := q1, [];
      Done(q', t);
    }
    Prepend(q, t, a, steps, q');
    steps := [a] + steps;
    hide Alone;
  }

  /** One queue of a flush: what the thread has is shared, and if it has nothing, nothing happens. */
  lemma FlushAlone(q: Queue, t: nat) returns (steps: seq<Action>, q': Queue)
    requires Enabled(q, ForceSync(t))
    ensures Alone(q, t, steps, q') && |steps| <= 2
    ensures if q.locals[t].pushQ == [] then q' == q else Shares(q, t, q.locals[t].pushQ, q')
  {
    if q.locals[t].pushQ == [] {
      q', steps := q, [ForceSync(t)];
      Done(q', t);
      Prepend(q, t, ForceSync(t), [], q');
    } else {
      steps, q' := ShareAlone(q, t, ForceSync(t));
    }
  }
}
