/**
What follows from a step of the message queue of mq.c that disturbs the list of blocked threads: with three threads a
message can always end up stranded, by ordinary steps alone, and with two threads it never is.
*/
module MqDamage {
  import opened Runs
  import opened Sequences
  import opened MessageQueue
  import opened MqStranding

  /** These undisturbed steps lead from one state to the other. */
  ghost predicate Leads(q: Queue, steps: seq<Action>, q': Queue)
    decreases |steps|
  {
    if steps == [] then q == q'
    else Enabled(q, steps[0]) && Undisturbed(q, steps[0]) && Leads(Do(q, steps[0]), steps[1..], q')
  }

  ghost predicate Reaches(q: Queue, q': Queue) {
    exists steps :: Leads(q, steps, q')
  }

  /** A message is stranded and a waiting thread is linked as blocked. */
  ghost predicate Deserted(q: Queue) {
    Stranded(q) && exists w :: w in q.blocks && IsWaiting(q, w)
  }

  ghost predicate CanDesert(q: Queue) {
    exists q' :: Reaches(q, q') && Deserted(q')
  }

  lemma {:induction false} LeadsOn(q: Queue, steps: seq<Action>, q': Queue, a: Action)
    requires Leads(q, steps, q') && Enabled(q', a) && Undisturbed(q', a)
    ensures Leads(q, steps + [a], Do(q', a))
    decreases |steps|
  {
    hide Do, Enabled, Undisturbed;
    if steps == [] {
      assert [a][1..] == [];
      assert Leads(Do(q, a), [], Do(q, a));
    } else {
      LeadsOn(Do(q, steps[0]), steps[1..], q', a);
      assert (steps + [a])[1..] == steps[1..] + [a];
    }
  }

  lemma Still(q: Queue)
    ensures Reaches(q, q)
  {
    assert Leads(q, [], q);
  }

  lemma Goes(q: Queue, q': Queue, a: Action)
    requires Reaches(q, q') && Enabled(q', a) && Undisturbed(q', a)
    ensures Reaches(q, Do(q', a))
  {
    hide Do, Enabled, Undisturbed;
    var steps :| Leads(q, steps, q');
    LeadsOn(q, steps, q', a);
  }

  lemma {:induction false} LeadsThen(q: Queue, steps: seq<Action>, q': Queue, q'': Queue)
    requires Leads(q, steps, q') && Reaches(q', q'')
    ensures Reaches(q, q'')
    decreases |steps|
  {
    hide Do, Enabled, Undisturbed;
    if steps != [] {
      LeadsThen(Do(q, steps[0]), steps[1..], q', q'');
      var rest :| Leads(Do(q, steps[0]), rest, q'');
      assert ([steps[0]] + rest)[1..] == rest;
      assert Leads(q, [steps[0]] + rest, q'');
    }
  }

  lemma Then(q: Queue, q': Queue)
    requires Reaches(q, q') && CanDesert(q')
    ensures CanDesert(q)
  {
    hide Leads, Deserted;
    var steps :| Leads(q, steps, q');
    var q'' :| Reaches(q', q'') && Deserted(q'');
    LeadsThen(q, steps, q', q'');
  }

  // ---------- from a stale link to a stranded message ----------

  ghost predicate Before(blocks: seq<nat>, t: nat, w: nat) {
    exists i, j :: 0 <= i < j < |blocks| && blocks[i] == t && blocks[j] == w
  }

  /** Thread `t` is linked but does not wait, while `w` waits, linked behind it or about to be. */
  ghost predicate Stale(q: Queue, t: nat, w: nat) {
    && t < |q.locals| && (q.locals[t].pc.Taking? || q.locals[t].pc.Idle?) && t in q.blocks && q.share == []
    && NoRepeats(q.blocks)
    && IsWaiting(q, w) && (if w in q.blocks then Before(q.blocks, t, w) else w in q.signalled || w in q.promised)
    && (forall x :: x in q.blocks && x != t ==> IsWaiting(q, x))
    && (forall x :: x in q.signalled ==> IsWaiting(q, x))
    && (forall x :: x in q.promised ==> q.promised[x] < |q.locals| && q.locals[q.promised[x]].pc == Signalling(x))
  }

  ghost predicate NoSignallers(q: Queue, n: nat) {
    forall p :: 0 <= p < n && p < |q.locals| ==> !q.locals[p].pc.Signalling?
  }

  lemma SignalStale(q: Queue, t: nat, w: nat, p: nat)
    requires Stale(q, t, w) && Enabled(q, Signal(p))
    ensures Stale(Do(q, Signal(p)), t, w)
    ensures NoSignallers(q, p) ==> NoSignallers(Do(q, Signal(p)), p + 1)
  {
    hide NoRepeats, Before;
  }

  lemma GiveSignals(q: Queue, t: nat, w: nat) returns (q': Queue)
    requires Stale(q, t, w)
    ensures Reaches(q, q') && Stale(q', t, w) && NoSignallers(q', |q'.locals|)
  {
    q' := q;
    Still(q);
    for p := 0 to |q.locals|
      invariant Reaches(q, q') && Stale(q', t, w) && NoSignallers(q', p) && |q'.locals| == |q.locals|
    {
      if q'.locals[p].pc.Signalling? {
        SignalStale(q', t, w, p);
        Goes(q, q', Signal(p));
        q' := Do(q', Signal(p));
      }
    }
  }

  lemma WakeStale(q: Queue, t: nat, w: nat, x: nat)
    requires Stale(q, t, w) && x in q.signalled
    ensures Enabled(q, Wake(x))
    ensures var q' := Do(q, Wake(x));
      Stale(q', t, w) && q'.signalled == q.signalled - {x} && q'.locals == q.locals
  {
    LinkBefore(q.blocks, t, x);
    LinkBefore(q.blocks, t, w);
  }

  lemma LinkBefore(blocks: seq<nat>, t: nat, w: nat)
    requires t in blocks
    ensures w !in blocks ==> Before(Link(blocks, w), t, w)
    ensures forall u, x :: Before(blocks, u, x) ==> Before(Link(blocks, w), u, x)
  {
    var i :| 0 <= i < |blocks| && blocks[i] == t;
    assert w !in blocks ==> Link(blocks, w)[i] == t && Link(blocks, w)[|blocks|] == w;
    forall u, x | Before(blocks, u, x) ensures Before(Link(blocks, w), u, x) {
      var i, j :| 0 <= i < j < |blocks| && blocks[i] == u && blocks[j] == x;
      assert Link(blocks, w)[i] == u && Link(blocks, w)[j] == x;
    }
  }

  lemma WakeAll(q: Queue, t: nat, w: nat) returns (q': Queue)
    requires Stale(q, t, w) && NoSignallers(q, |q.locals|)
    ensures Reaches(q, q') && Stale(q', t, w) && NoSignallers(q', |q'.locals|) && q'.signalled == {}
  {
    q' := q;
    Still(q);
    while q'.signalled != {}
      invariant Reaches(q, q') && Stale(q', t, w) && q'.locals == q.locals
      decreases |q'.signalled|
    {
      var x :| x in q'.signalled;
      WakeStale(q', t, w, x);
      Goes(q, q', Wake(x));
      q' := Do(q', Wake(x));
    }
  }

  lemma UnlinkFirst(blocks: seq<nat>)
    requires blocks != [] && NoRepeats(blocks)
    ensures Unlink(blocks, blocks[0]) == blocks[1..]
  {
    UnlinkOther(blocks[1..], blocks[0]);
  }

  lemma {:induction false} UnlinkOther(blocks: seq<nat>, t: nat)
    requires t !in blocks
    ensures Unlink(blocks, t) == blocks
  {
    if blocks != [] {
      UnlinkOther(blocks[1..], t);
    }
  }

  ghost predicate Quiet(q: Queue) {
    NoSignallers(q, |q.locals|) && q.signalled == {}
  }

  /** With nobody signalled or about to be, every waiting thread is linked, and those in front can time out. */
  lemma QuietStale(q: Queue, t: nat, w: nat)
    requires Stale(q, t, w) && Quiet(q)
    ensures Before(q.blocks, t, w) && forall x :: x !in q.promised
    ensures q.blocks[0] != t ==> IsWaiting(q, q.blocks[0]) && Before(q.blocks[1..], t, w) && q.blocks[0] != w
  {
    assert forall x :: x !in q.promised;
    var i, j :| 0 <= i < j < |q.blocks| && q.blocks[i] == t && q.blocks[j] == w;
    if i > 0 {
      assert q.blocks[1..][i - 1] == t && q.blocks[1..][j - 1] == w;
    }
  }

  /** The first linked thread has timed out, with nothing shared. */
  ghost predicate FrontLeft(q: Queue, q': Queue) {
    && q.blocks != [] && q'.blocks == q.blocks[1..] && q'.share == [] && q'.promised == q.promised
    && q'.signalled == q.signalled == {} && |q'.locals| == |q.locals|
    && q.blocks[0] < |q.locals| && q'.locals[q.blocks[0]].pc.Taking?
    && forall i :: 0 <= i < |q.locals| && i != q.blocks[0] ==> q'.locals[i] == q.locals[i]
  }

  lemma TimeOutFront(q: Queue)
    requires q.blocks != [] && NoRepeats(q.blocks) && IsWaiting(q, q.blocks[0]) && q.share == [] && q.signalled == {}
    ensures FrontLeft(q, Do(q, TimeOut(q.blocks[0])))
  {
    UnlinkFirst(q.blocks);
    hide Unlink, NoRepeats;
  }

  lemma FrontLeftStale(q: Queue, t: nat, w: nat, q': Queue)
    requires Stale(q, t, w) && Quiet(q) && q.blocks[0] != t && FrontLeft(q, q')
    ensures Stale(q', t, w) && Quiet(q')
  {
    QuietStale(q, t, w);
    FirstOfBlocks(q.blocks);
    assert w in q.blocks[1..] && t in q.blocks[1..];
    hide Before, NoRepeats;
  }

  lemma Advance(q: Queue, t: nat, w: nat) returns (q': Queue)
    requires Stale(q, t, w) && Quiet(q)
    ensures Reaches(q, q') && Stale(q', t, w) && Quiet(q') && q'.blocks[0] == t
  {
    q' := q;
    Still(q);
    while q'.blocks[0] != t
      invariant Reaches(q, q') && Stale(q', t, w) && Quiet(q')
      decreases |q'.blocks|
    {
      QuietStale(q', t, w);
      TimeOutFront(q');
      FrontLeftStale(q', t, w, Do(q', TimeOut(q'.blocks[0])));
      Goes(q, q', TimeOut(q'.blocks[0]));
      q' := Do(q', TimeOut(q'.blocks[0]));
    }
  }

  /** The thread with the stale link pushes, and is the one that its own push wakes. */
  lemma StaleDeserts(q: Queue, t: nat, w: nat)
    requires Stale(q, t, w)
    ensures CanDesert(q)
  {
    var q1 := GiveSignals(q, t, w);
    var q2 := WakeAll(q1, t, w);
    var q3 := Advance(q2, t, w);
    FrontDeserts(q3, t, w);
    hide Stale, Quiet, Reaches, NoSignallers, CanDesert;
    Then(q2, q3);
    Then(q1, q2);
    Then(q, q1);
  }

  lemma FrontDeserts(q: Queue, t: nat, w: nat)
    requires Stale(q, t, w) && Quiet(q) && q.blocks[0] == t
    ensures CanDesert(q)
  {
    Still(q);
    if q.locals[t].pc.Taking? {
      Goes(q, q, Take(t));
      TakeStale(q, t, w);
      IdleDeserts(q, Do(q, Take(t)), t, w);
    } else {
      IdleDeserts(q, q, t, w);
    }
  }

  lemma TakeStale(q: Queue, t: nat, w: nat)
    requires Stale(q, t, w) && Quiet(q) && Enabled(q, Take(t))
    ensures var q' := Do(q, Take(t)); Stale(q', t, w) && Quiet(q') && q'.locals[t].pc.Idle? && q'.blocks == q.blocks
  {
    hide NoRepeats, Before;
  }

  lemma IdleDeserts(q0: Queue, q: Queue, t: nat, w: nat)
    requires Reaches(q0, q) && Stale(q, t, w) && Quiet(q) && q.blocks[0] == t && q.locals[t].pc.Idle?
    ensures CanDesert(q0)
  {
    QuietStale(q, t, w);
    StaleLinkStrands(q, t, 0);
    var push := Push(t, 0, false, true);
    var q1 := Do(q, push);
    var q2 := Do(q1, SyncPush(t));
    var q3 := Do(q2, Signal(t));
    assert IsWaiting(q3, w) && w in q.blocks[1..];
    hide Stale, Quiet, Do, Leads;
    Goes(q0, q, push);
    Goes(q0, q1, SyncPush(t));
    Goes(q0, q2, Signal(t));
    assert Deserted(q3);
  }

  // ---------- from an overtaken signal to a stale link ----------

  /** The queue as it would be if thread `t` were still waiting for its signal. */
  function Mended(q: Queue, t: nat): Queue
    requires t < |q.locals|
  {
    q.With(t, q.locals[t].(pc := Waiting(false)))
  }

  /** Thread `t` no longer waits for the signal that `p` is about to give it; all else is in order. */
  ghost predicate Overtaken(q: Queue, t: nat, p: nat) {
    && t < |q.locals| && !q.locals[t].pc.Waiting? && !q.locals[t].pc.Signalling?
    && p < |q.locals| && p != t && q.locals[p].pc == Signalling(t)
    && BlocksOk(Mended(q, t))
  }

  lemma OnlyPromise(q: Queue, t: nat, p: nat)
    requires Overtaken(q, t, p)
    ensures t in q.promised && q.promised[t] == p && t !in q.blocks && NoRepeats(q.blocks)
    ensures forall v :: 0 <= v < |q.locals| && v != p ==> q.locals[v].pc != Signalling(t)
    ensures forall x :: x in q.blocks || x in q.signalled ==> IsWaiting(q, x) && x !in q.promised
  {
    var m := Mended(q, t);
    assert m.locals[p].pc.u in m.promised;
    forall v | 0 <= v < |q.locals| && v != p ensures q.locals[v].pc != Signalling(t) {
      assert m.locals[v].pc.Signalling? ==> m.promised[m.locals[v].pc.u] == v;
    }
    forall x | x in q.blocks || x in q.signalled ensures IsWaiting(q, x) && x !in q.promised {
      assert IsWaiting(m, x) && x != t;
    }
    hide NoRepeats;
  }

  /** A step of another thread does the same in both. */
  lemma SameStep(q: Queue, t: nat, p: nat, a: Action)
    requires Overtaken(q, t, p) && Enabled(q, a) && Undisturbed(q, a) && a.t != t && a.t != p
    ensures var m := Mended(q, t);
      && Enabled(m, a) && Undisturbed(m, a)
      && Do(m, a) == Do(q, a).(locals := m.locals[a.t := Do(q, a).locals[a.t]])
      && Do(q, a).locals == q.locals[a.t := Do(q, a).locals[a.t]]
  {
    OnlyPromise(q, t, p);
    assert Mended(q, t).locals[a.t] == q.locals[a.t] && t < |q.locals|;
    hide NoRepeats, Unlink, Link, Overtaken;
    if a.Signal? {
      assert IsWaiting(Mended(q, t), q.locals[a.t].pc.u) == IsWaiting(q, q.locals[a.t].pc.u);
    }
    hide IsWaiting;
  }

  lemma OthersMended(q: Queue, t: nat, p: nat, a: Action)
    requires Overtaken(q, t, p) && Enabled(q, a) && Undisturbed(q, a) && a.t != t && a.t != p
    ensures Enabled(Mended(q, t), a) && Undisturbed(Mended(q, t), a)
    ensures Do(q, a).locals[t] == q.locals[t] && Do(q, a).locals[p] == q.locals[p]
    ensures |Do(q, a).locals| == |q.locals| && Mended(Do(q, a), t) == Do(Mended(q, t), a)
  {
    SameStep(q, t, p, a);
    hide Do, BlocksOk, Undisturbed;
    var l := q.locals[t].(pc := Waiting(false));
    assert q.locals[t := l][a.t := Do(q, a).locals[a.t]] == q.locals[a.t := Do(q, a).locals[a.t]][t := l];
  }

  lemma OthersKeep(q: Queue, t: nat, p: nat, a: Action)
    requires Overtaken(q, t, p) && Enabled(q, a) && Undisturbed(q, a) && a.t != t && a.t != p
    ensures Overtaken(Do(q, a), t, p) && Do(q, a).locals[t] == q.locals[t] && |Do(q, a).locals| == |q.locals|
  {
    OthersMended(q, t, p, a);
    hide BlocksOk, Do, Mended, Enabled, Undisturbed;
    StepBlocks(Mended(q, t), a);
  }

  lemma OthersGo(q0: Queue, q: Queue, t: nat, p: nat, a: Action) returns (q': Queue)
    requires Reaches(q0, q) && Overtaken(q, t, p)
    requires Enabled(q, a) && Undisturbed(q, a) && a.t != t && a.t != p
    ensures q' == Do(q, a) && Reaches(q0, q')
    ensures Overtaken(q', t, p) && q'.locals[t] == q.locals[t] && |q'.locals| == |q.locals|
  {
    OthersKeep(q, t, p, a);
    Goes(q0, q, a);
    q' := Do(q, a);
  }

  /** A third thread `u` stops waiting, if it does. */
  lemma StopWaiting(q: Queue, t: nat, p: nat, u: nat) returns (q': Queue)
    requires Overtaken(q, t, p) && u < |q.locals| && u != t && u != p
    ensures Reaches(q, q') && Overtaken(q', t, p) && |q'.locals| == |q.locals|
    ensures q'.locals[t] == q.locals[t] && !q'.locals[u].pc.Waiting? && !q'.locals[u].pc.Popping?
  {
    q' := q;
    Still(q);
    hide Overtaken, BlocksOk, Reaches, Unlink, Link, Leads;
    if q'.locals[u].pc.Popping? {
      q' := OthersGo(q, q', t, p, SyncPop(u));
    }
    if q'.locals[u].pc.Waiting? {
      if u in q'.promised {
        var v := Promiser(q', t, p, u);
        q' := OthersGo(q, q', t, p, Signal(v));
      }
      q' := OthersGo(q, q', t, p, TimeOut(u));
    }
  }

  /** Whoever is about to signal `u` can do that. */
  lemma Promiser(q: Queue, t: nat, p: nat, u: nat) returns (v: nat)
    requires Overtaken(q, t, p) && u in q.promised && u != t
    ensures v != t && v != p && v != u && Enabled(q, Signal(v)) && q.locals[v].pc.u == u && IsWaiting(q, u)
  {
    var m := Mended(q, t);
    v := q.promised[u];
    assert u in m.promised && IsWaiting(m, u) && m.locals[v].pc == Signalling(u);
    hide NoRepeats;
  }

  /** It finishes what it is in the middle of. */
  lemma FinishOperation(q: Queue, t: nat, p: nat, u: nat) returns (q': Queue)
    requires Overtaken(q, t, p) && u < |q.locals| && u != t && u != p
    ensures Reaches(q, q') && Overtaken(q', t, p) && |q'.locals| == |q.locals|
    ensures q'.locals[t] == q.locals[t] && q'.locals[u].pc.Idle?
  {
    q' := StopWaiting(q, t, p, u);
    hide Overtaken, BlocksOk, Reaches, Unlink, Link, Leads;
    if q'.locals[u].pc.Taking? {
      q' := OthersGo(q, q', t, p, Take(u));
    }
    if q'.locals[u].pc.Syncing? {
      q' := OthersGo(q, q', t, p, SyncPush(u));
    }
    if q'.locals[u].pc.Signalling? {
      q' := OthersGo(q, q', t, p, Signal(u));
    }
  }

  /** It takes everything from its pop list, and starts to pop. */
  lemma PopAll(q0: Queue, q: Queue, t: nat, p: nat, u: nat) returns (q': Queue)
    requires Reaches(q0, q) && Overtaken(q, t, p) && u < |q.locals| && u != t && u != p && q.locals[u].pc.Idle?
    ensures Reaches(q0, q') && Overtaken(q', t, p) && |q'.locals| == |q.locals| && q'.share == q.share
    ensures q'.locals[t] == q.locals[t] && q'.locals[u].pc == Popping(1, true)
  {
    hide Overtaken, BlocksOk, Reaches, Leads;
    q' := OthersGo(q0, q, t, p, Pop(u, 1, true));
    if q'.locals[u].pc.Taking? {
      q' := OthersGo(q0, q', t, p, Take(u));
      q' := OthersGo(q0, q', t, p, Pop(u, 1, true));
    }
  }

  /** Popping all there is, it comes to wait, and leaves nothing shared. */
  lemma StartWaiting(q: Queue, t: nat, p: nat, u: nat) returns (q': Queue)
    requires Overtaken(q, t, p) && u < |q.locals| && u != t && u != p
    ensures Reaches(q, q') && Overtaken(q', t, p) && q'.locals[t] == q.locals[t] && |q'.locals| == |q.locals|
    ensures q'.share == [] && u in q'.blocks
  {
    q' := FinishOperation(q, t, p, u);
    q' := PopAll(q, q', t, p, u);
    hide Overtaken, BlocksOk, Reaches, Leads, Undisturbed;
    if q'.share != [] {
      q' := OthersGo(q, q', t, p, SyncPop(u));
      q' := OthersGo(q, q', t, p, Take(u));
      q' := PopAll(q, q', t, p, u);
    }
    q' := OthersGo(q, q', t, p, SyncPop(u));
  }

  // ---------- the overtaken thread blocks again ----------

  /** Thread `t` waits again, linked last, while `p` is still about to signal it; all else is in order. */
  ghost predicate Relinked(q: Queue, t: nat, p: nat) {
    && q.share == [] && q.blocks != [] && q.blocks[|q.blocks| - 1] == t
    && t in q.promised && q.promised[t] == p
    && BlocksOk(q.(blocks := q.blocks[..|q.blocks| - 1]))
  }

  /** What the list of blocked threads has to do with threads is only who waits, and who is about to signal whom. */
  lemma SamePcs(q: Queue, q': Queue)
    requires BlocksOk(q) && q'.blocks == q.blocks && q'.signalled == q.signalled && q'.promised == q.promised
    requires |q'.locals| == |q.locals|
    requires forall i :: 0 <= i < |q.locals| ==>
      q'.locals[i].pc == q.locals[i].pc || (q'.locals[i].pc.Waiting? && q.locals[i].pc.Waiting?)
    ensures BlocksOk(q')
  {
    assert forall x: nat :: IsWaiting(q, x) == IsWaiting(q', x);
    hide NoRepeats;
  }

  /** A step of thread `t` that takes or starts to pop. */
  lemma OwnGo(q0: Queue, q: Queue, t: nat, p: nat, a: Action) returns (q': Queue)
    requires Reaches(q0, q) && Overtaken(q, t, p) && Enabled(q, a) && a.t == t && (a.Take? || a.Pop?)
    ensures q' == Do(q, a) && Reaches(q0, q') && Overtaken(q', t, p)
    ensures q'.share == q.share && q'.blocks == q.blocks && |q'.locals| == |q.locals|
  {
    Goes(q0, q, a);
    q' := Do(q, a);
    hide BlocksOk;
    SamePcs(Mended(q, t), Mended(q', t));
  }

  lemma OwnRelink(q: Queue, t: nat, p: nat)
    requires Overtaken(q, t, p) && q.share == [] && q.locals[t].pc.Popping? && q.locals[t].pc.timeout > 0
    ensures Relinked(Do(q, SyncPop(t)), t, p) && Do(q, SyncPop(t)).blocks == q.blocks + [t]
  {
    OnlyPromise(q, t, p);
    var q' := Do(q, SyncPop(t));
    assert (q.blocks + [t])[..|q.blocks|] == q.blocks;
    hide BlocksOk;
    SamePcs(Mended(q, t), q'.(blocks := q.blocks));
  }

  /** It takes what it has, and starts to pop. */
  lemma OwnPop(q: Queue, t: nat, p: nat) returns (q': Queue)
    requires Overtaken(q, t, p) && (q.locals[t].pc.Taking? || q.locals[t].pc.Idle?)
    ensures Reaches(q, q') && Overtaken(q', t, p) && q'.share == q.share && q'.blocks == q.blocks
    ensures q'.locals[t].pc == Popping(1, true)
  {
    q' := q;
    Still(q);
    assert t < |q.locals|;
    hide Overtaken, BlocksOk, Reaches, Leads;
    if q'.locals[t].pc.Taking? {
      q' := OwnGo(q, q', t, p, Take(t));
    }
    q' := OwnGo(q, q', t, p, Pop(t, 1, true));
    if q'.locals[t].pc.Taking? {
      q' := OwnGo(q, q', t, p, Take(t));
      q' := OwnGo(q, q', t, p, Pop(t, 1, true));
    }
  }

  lemma BlockAgain(q: Queue, t: nat, p: nat) returns (q': Queue)
    requires Overtaken(q, t, p) && q.share == [] && (q.locals[t].pc.Taking? || q.locals[t].pc.Idle?)
    ensures Reaches(q, q') && Relinked(q', t, p) && q'.blocks == q.blocks + [t]
  {
    var popping := OwnPop(q, t, p);
    assert Enabled(popping, SyncPop(t));
    hide Overtaken, Reaches, Relinked, Do;
    OwnRelink(popping, t, p);
    Goes(q, popping, SyncPop(t));
    q' := Do(popping, SyncPop(t));
  }

  /** What is in order besides thread `t`. */
  lemma RelinkedOrder(q: Queue, t: nat, p: nat)
    requires Relinked(q, t, p)
    ensures NoRepeats(q.blocks) && IsWaiting(q, t) && p != t && Enabled(q, Signal(p)) && q.locals[p].pc.u == t
    ensures forall x :: x in q.blocks ==> IsWaiting(q, x)
    ensures forall x :: x in q.blocks && x != t ==> x !in q.promised && x !in q.signalled
    ensures forall x :: x in q.signalled ==> IsWaiting(q, x)
    ensures forall x :: x in q.promised ==>
      q.promised[x] < |q.locals| && q.locals[q.promised[x]].pc == Signalling(x) && IsWaiting(q, x)
  {
    var front := q.blocks[..|q.blocks| - 1];
    var m := q.(blocks := front);
    assert q.blocks == front + [t];
    assert t !in front;
    assert forall x: nat :: IsWaiting(m, x) == IsWaiting(q, x);
  }

  /** Thread `p` gives its signal and pushes, and thread `t` takes the message. */
  ghost predicate PushedAndTaken(q: Queue, t: nat, p: nat, q': Queue) {
    && q.blocks != [] && q'.blocks == q.blocks[1..] && q'.share == [] && q'.signalled == q.signalled - {t}
    && q'.promised == (q.promised - {t})[q.blocks[0] := p]
    && |q'.locals| == |q.locals| && t < |q.locals| && p < |q.locals| && t != p
    && q'.locals[t].pc.Taking? && q'.locals[p].pc == Signalling(q.blocks[0])
    && forall i :: 0 <= i < |q.locals| && i != t && i != p ==> q'.locals[i] == q.locals[i]
  }

  lemma SignalAndPush(q: Queue, t: nat, p: nat) returns (q': Queue)
    requires Relinked(q, t, p)
    ensures Reaches(q, q') && Enabled(q', SyncPush(p)) && q'.locals[p].pushQ != []
    ensures q' == q.(signalled := q.signalled + {t}, promised := q.promised - {t}).With(p, q'.locals[p])
  {
    RelinkedOrder(q, t, p);
    hide BlocksOk, NoRepeats, Leads, Reaches;
    var q1 := Do(q, Signal(p));
    q' := Do(q1, Push(p, 0, false, true));
    Still(q);
    Goes(q, q, Signal(p));
    Goes(q, q1, Push(p, 0, false, true));
  }

  lemma PushAndTake(q: Queue, t: nat, p: nat) returns (q': Queue)
    requires Relinked(q, t, p)
    ensures Reaches(q, q') && PushedAndTaken(q, t, p, q')
  {
    RelinkedOrder(q, t, p);
    hide BlocksOk, NoRepeats, Leads, Reaches;
    var q2 := SignalAndPush(q, t, p);
    var q3 := Do(q2, SyncPush(p));
    assert IsWaiting(q3, t);
    q' := Do(q3, Wake(t));
    Goes(q, q2, SyncPush(p));
    Goes(q, q3, Wake(t));
  }

  lemma AlmostHealed(q: Queue, t: nat, p: nat, q': Queue)
    requires Relinked(q, t, p) && PushedAndTaken(q, t, p, q') && |q.blocks| == 1
    ensures Overtaken(q', t, p)
  {
    RelinkedOrder(q, t, p);
    var m := q.(blocks := []);
    assert q.blocks == [t] && q.blocks[..0] == [];
    assert (q.promised - {t})[t := p] == q.promised;
    assert t !in q.signalled by { assert t in m.promised; }
    assert q.signalled - {t} == q.signalled;
    hide BlocksOk, NoRepeats;
    SamePcs(m, Mended(q', t));
  }

  lemma PromisesLeft(q: Queue, t: nat, p: nat, q': Queue)
    requires Relinked(q, t, p) && PushedAndTaken(q, t, p, q')
    ensures forall x :: x in q'.promised ==>
      q'.promised[x] < |q'.locals| && q'.locals[q'.promised[x]].pc == Signalling(x)
    ensures forall x :: x in q'.signalled ==> IsWaiting(q', x)
    ensures forall x :: x in q.blocks && x != t ==> IsWaiting(q', x)
  {
    RelinkedOrder(q, t, p);
    hide Relinked, NoRepeats, BlocksOk;
  }

  lemma LeftStale(q: Queue, t: nat, p: nat, q': Queue)
    requires Relinked(q, t, p) && PushedAndTaken(q, t, p, q') && |q.blocks| >= 2
    ensures Stale(q', t, q.blocks[0])
  {
    RelinkedOrder(q, t, p);
    PromisesLeft(q, t, p, q');
    FirstOfBlocks(q.blocks);
    assert q.blocks[1..][|q.blocks| - 2] == t && q.blocks[0] != t;
    hide Relinked, NoRepeats, BlocksOk;
  }

  /** With a third thread that blocks first, the overtaken thread ends up linked without waiting. */
  lemma OvertakenDeserts(q: Queue, t: nat, p: nat)
    requires Overtaken(q, t, p) && (q.locals[t].pc.Taking? || q.locals[t].pc.Idle?) && |q.locals| >= 3
    ensures CanDesert(q)
  {
    var u := if t != 0 && p != 0 then 0 else if t != 1 && p != 1 then 1 else 2;
    var q1 := StartWaiting(q, t, p, u);
    var q2 := BlockAgain(q1, t, p);
    var q3 := PushAndTake(q2, t, p);
    LeftStale(q2, t, p, q3);
    hide Overtaken, Stale, PushedAndTaken, Relinked, CanDesert, Reaches;
    StaleDeserts(q3, t, q2.blocks[0]);
    Then(q2, q3);
    Then(q1, q2);
    Then(q, q1);
  }

  lemma RelinkedDeserts(q: Queue, t: nat, p: nat)
    requires Relinked(q, t, p) && |q.locals| >= 3
    ensures CanDesert(q)
  {
    var q' := PushAndTake(q, t, p);
    if |q.blocks| == 1 {
      AlmostHealed(q, t, p, q');
      OvertakenDeserts(q', t, p);
    } else {
      LeftStale(q, t, p, q');
      StaleDeserts(q', t, q.blocks[0]);
    }
    hide Overtaken, Stale, Relinked, CanDesert, Reaches;
    Then(q, q');
  }

  // ---------- what a disturbed step leads to ----------

  /** A thread that is about to be signalled leaves. */
  lemma PromisedLeaves(q: Queue, a: Action)
    requires BlocksOk(q) && Enabled(q, a) && a.t in q.promised && (a.TimeOut? || (a.Wake? && q.share != []))
    ensures Overtaken(Do(q, a), a.t, q.promised[a.t]) && Do(q, a).locals[a.t].pc.Taking?
  {
    var t, q' := a.t, Do(q, a);
    assert t !in q.blocks && t !in q.signalled && IsWaiting(q, t);
    UnlinkOther(q.blocks, t);
    assert q.signalled - {t} == q.signalled;
    SamePcs(q, Mended(q', t));
    hide NoRepeats;
  }

  /** Or it wakes up for no reason, and links itself. */
  lemma PromisedStays(q: Queue, t: nat)
    requires BlocksOk(q) && Enabled(q, Wake(t)) && t in q.promised && q.share == []
    ensures Relinked(Do(q, Wake(t)), t, q.promised[t])
  {
    var q' := Do(q, Wake(t));
    assert t !in q.blocks && t !in q.signalled;
    assert (q.blocks + [t])[..|q.blocks|] == q.blocks && q.signalled - {t} == q.signalled;
    assert q'.(blocks := q.blocks) == q;
    hide NoRepeats;
  }

  /** A linked thread wakes up by itself and takes the messages that another was woken for. */
  lemma LinkedTakes(q: Queue, t: nat) returns (w: nat)
    requires QuietInv(q) && Enabled(q, Wake(t)) && t in q.blocks && q.share != []
    ensures Stale(Do(q, Wake(t)), t, w)
  {
    if q.signalled != {} {
      w :| w in q.signalled;
    } else {
      w :| w in q.promised;
    }
    assert IsWaiting(q, w) && w !in q.blocks;
    hide NoRepeats;
  }

  lemma DisturbedDeserts(q: Queue, a: Action)
    requires QuietInv(q) && Enabled(q, a) && !Undisturbed(q, a) && |q.locals| >= 3
    ensures CanDesert(Do(q, a))
  {
    var t, q' := a.t, Do(q, a);
    assert t in q.promised || t in q.blocks;
    assert |q'.locals| == |q.locals|;
    if t !in q.promised {
      var w := LinkedTakes(q, t);
      StaleDeserts(q', t, w);
    } else if a.TimeOut? || q.share != [] {
      PromisedLeaves(q, a);
      OvertakenDeserts(q', t, q.promised[t]);
    } else {
      PromisedStays(q, t);
      RelinkedDeserts(q', t, q.promised[t]);
    }
    hide Overtaken, Stale, Relinked, CanDesert, Do;
  }

  // ---------- two threads ----------

  /** Whatever happens between two threads, nobody is linked as blocked while messages are shared. */
  ghost predicate FewOk(q: Queue) {
    && NoRepeats(q.blocks)
    && (forall x :: x in q.blocks ==> IsWaiting(q, x))
    && (q.share != [] ==> q.blocks == [])
  }

  ghost predicate FewInv(q: Queue) {
    |q.locals| <= 2 ==> FewOk(q)
  }

  lemma OnlyOther(q: Queue, t: nat)
    requires FewOk(q) && |q.locals| <= 2 && t < |q.locals| && t !in q.blocks
    ensures |q.blocks| <= 1
  {
    var first, second := if |q.blocks| >= 1 then q.blocks[0] else t, if |q.blocks| >= 2 then q.blocks[1] else t;
    assert first == t || first in q.blocks;
    assert second == t || second in q.blocks;
  }

  lemma FewStep(q: Queue, a: Action)
    requires FewInv(q) && Enabled(q, a)
    ensures FewInv(Do(q, a))
  {
    UnlinkKeeps(q.blocks, a.t);
    if |q.locals| <= 2 && !IsWaiting(q, a.t) {
      OnlyOther(q, a.t);
    }
    hide Unlink;
  }

  lemma {:induction false} FewLead(q: Queue, steps: seq<Action>, q': Queue)
    requires FewInv(q) && Leads(q, steps, q')
    ensures FewInv(q') && |q'.locals| == |q.locals|
    decreases |steps|
  {
    if steps != [] {
      assert |Do(q, steps[0]).locals| == |q.locals|;
      hide Do, Enabled, FewInv, Undisturbed;
      FewStep(q, steps[0]);
      FewLead(Do(q, steps[0]), steps[1..], q');
    }
  }

  lemma FewNeverDesert(q: Queue)
    requires FewInv(q) && |q.locals| <= 2
    ensures !CanDesert(q)
  {
    if q' :| Reaches(q, q') && Deserted(q') {
      var steps :| Leads(q, steps, q');
      FewLead(q, steps, q');
    }
  }

  /** Between two threads, and whatever disturbs them, no message is ever shared while one is linked as blocked. */
  lemma TwoThreadsNeverStrand(run: seq<Queue>, i: nat)
    requires IsRun(Init, Next, run) && i < |run| && |run[i].locals| <= 2
    ensures run[i].share != [] ==> run[i].blocks == []
  {
    forall q, q' | FewInv(q) && Next(q, q') ensures FewInv(q') {
      var a :| Enabled(q, a) && q' == Do(q, a);
      FewStep(q, a);
    }
    Invariance(Init, Next, FewInv, run);
  }

  lemma QuietRun(run: seq<Queue>)
    requires IsRun(Init, QuietNext, run)
    ensures QuietInv(run[|run| - 1]) && FewInv(run[|run| - 1])
  {
    hide Do, BlocksOk, NoneStranded, FewOk;
    forall q | Init(q) ensures QuietInv(q) && FewInv(q) { InitQuiet(q); }
    forall q, q' | QuietInv(q) && QuietNext(q, q') ensures QuietInv(q') {
      var a :| Enabled(q, a) && Undisturbed(q, a) && q' == Do(q, a);
      StepQuiet(q, a);
    }
    forall q, q' | FewInv(q) && QuietNext(q, q') ensures FewInv(q') {
      var a :| Enabled(q, a) && Undisturbed(q, a) && q' == Do(q, a);
      FewStep(q, a);
    }
    Invariance(Init, QuietNext, QuietInv, run);
    Invariance(Init, QuietNext, FewInv, run);
  }

  lemma InitQuiet(q: Queue)
    requires Init(q)
    ensures QuietInv(q) && FewInv(q)
  {
  }

  /**
  The first disturbed step of a run can be followed, without any other, by a message being stranded while a thread
  waits for it, if and only if there are three threads.
  */
  lemma StrandsIffThreeThreads(run: seq<Queue>, a: Action)
    requires IsRun(Init, QuietNext, run) && Enabled(run[|run| - 1], a) && !Undisturbed(run[|run| - 1], a)
    ensures CanDesert(Do(run[|run| - 1], a)) <==> |run[|run| - 1].locals| >= 3
  {
    var q := run[|run| - 1];
    QuietRun(run);
    assert |Do(q, a).locals| == |q.locals|;
    hide CanDesert, QuietInv, FewInv, Undisturbed, Do;
    if |q.locals| >= 3 {
      DisturbedDeserts(q, a);
    } else {
      FewStep(q, a);
      FewNeverDesert(Do(q, a));
    }
  }
}
