/** In what order the requests on a socket complete, and who is told. */
module IoOrder {
  import opened Runs
  import opened Arith
  import opened IoChannel

  function Requests(done: seq<Done>): seq<nat> {
    if done == [] then [] else Requests(done[..|done| - 1]) + [done[|done| - 1].req]
  }

  function HeldBy(execs: seq<Exec>): seq<nat> {
    if execs == [] then []
    else HeldBy(execs[..|execs| - 1]) + if execs[|execs| - 1].Exec? then [execs[|execs| - 1].req] else []
  }

  /** At most one thread carries out a request. */
  ghost predicate Serial(execs: seq<Exec>) {
    forall t, u :: 0 <= t < u < |execs| ==> execs[t].Idle? || execs[u].Idle?
  }

  ghost predicate OneAtATime(s: Channel) {
    Serial(s.execs)
  }

  ghost predicate SerialNext(s: Channel, s': Channel) {
    Next(s, s') && OneAtATime(s')
  }

  /** What is completed, then what is being carried out, then what is pending is what was submitted, in order. */
  ghost predicate InOrder(s: Channel) {
    Requests(s.done) + HeldBy(s.execs) + s.pending == s.accepted
  }

  lemma {:induction false} NobodyHolds(execs: seq<Exec>)
    requires forall t :: 0 <= t < |execs| ==> execs[t].Idle?
    ensures HeldBy(execs) == []
  {
    if execs != [] {
      NobodyHolds(execs[..|execs| - 1]);
    }
  }

  lemma {:induction false} OnlyHolder(execs: seq<Exec>, t: nat)
    requires t < |execs| && forall u :: 0 <= u < |execs| && u != t ==> execs[u].Idle?
    ensures HeldBy(execs) == if execs[t].Exec? then [execs[t].req] else []
  {
    if t == |execs| - 1 {
      NobodyHolds(execs[..t]);
    } else {
      OnlyHolder(execs[..|execs| - 1], t);
    }
  }

  /** With thread `t` carrying out a request before or after it changes, no other thread does. */
  lemma HolderChanges(execs: seq<Exec>, t: nat, e: Exec)
    requires t < |execs| && (execs[t].Exec? || e.Exec?) && Serial(execs) && Serial(execs[t := e])
    ensures HeldBy(execs) == if execs[t].Exec? then [execs[t].req] else []
    ensures HeldBy(execs[t := e]) == if e.Exec? then [e.req] else []
  {
    forall u | 0 <= u < |execs| && u != t ensures execs[u].Idle? {
      assert execs[t := e][u] == execs[u] && execs[t := e][t] == e;
      assert u < t || t < u;
    }
    OnlyHolder(execs, t);
    OnlyHolder(execs[t := e], t);
  }

  lemma StartOrder(s: Channel, t: nat, notify: bool, starter: Starter)
    requires InOrder(s) && OneAtATime(s) && t < |s.execs| && s.execs[t].Idle?
    requires OneAtATime(Start(s, t, notify, starter))
    ensures InOrder(Start(s, t, notify, starter))
  {
    if s.pending != [] {
      HolderChanges(s.execs, t, Exec(s.pending[0], s.count, notify, false, starter));
      assert s.pending == [s.pending[0]] + s.pending[1..];
    }
  }

  lemma SubmitOrder(s: Channel, t: nat, req: nat, linked: bool)
    requires InOrder(s) && OneAtATime(s) && Enabled(s, Submit(t, req, linked))
    requires OneAtATime(Do(s, Submit(t, req, linked)))
    ensures InOrder(Do(s, Submit(t, req, linked)))
  {
    var s' := Submitted(s, req, linked);
    assert InOrder(s');
    if s.active {
      StartOrder(s', t, false, Submission(req));
    }
    hide InOrder, Start;
  }

  /** The request in the middle ends on either side. */
  lemma OnEitherSide(before: seq<nat>, r: nat, after: seq<nat>)
    ensures before + [r] + after == (before + [r]) + [] + after == before + [] + ([r] + after)
  {
  }

  lemma CallOrder(s: Channel, t: nat, outcome: Outcome)
    requires InOrder(s) && OneAtATime(s) && Enabled(s, Call(t, outcome)) && OneAtATime(Do(s, Call(t, outcome)))
    ensures InOrder(Do(s, Call(t, outcome)))
  {
    hide Requests, HeldBy, Serial;
    HolderChanges(s.execs, t, Idle);
    RequestsAppend(s.done, Finish(s.execs[t], outcome));
    OnEitherSide(Requests(s.done), s.execs[t].req, s.pending);
  }

  lemma RequestsAppend(done: seq<Done>, d: Done)
    ensures Requests(done + [d]) == Requests(done) + [d.req]
  {
    assert (done + [d])[..|done|] == done;
  }

  /** A request that has met EAGAIN goes back to where it came from, or is tried again. */
  lemma AgainOrder(s: Channel, t: nat)
    requires InOrder(s) && OneAtATime(s) && Enabled(s, LockAfterAgain(t)) && OneAtATime(Do(s, LockAfterAgain(t)))
    ensures InOrder(Do(s, LockAfterAgain(t)))
  {
    hide Requests, HeldBy, Serial;
    var e := s.execs[t];
    if e.count != s.count {
      HolderChanges(s.execs, t, e.(count := s.count, again := false));
    } else {
      HolderChanges(s.execs, t, Idle);
      OnEitherSide(Requests(s.done), e.req, s.pending);
    }
  }

  lemma StepOrder(s: Channel, a: Action)
    requires InOrder(s) && OneAtATime(s) && Enabled(s, a) && OneAtATime(Do(s, a))
    ensures InOrder(Do(s, a))
  {
    match a {
      case Activate(t) =>
        StartOrder(s.(active := true, count := s.count + 1, harvested := false), t, true, Activation);
      case Submit(t, req, linked) => SubmitOrder(s, t, req, linked);
      case Call(t, outcome) => CallOrder(s, t, outcome);
      case CallAgain(t) => HolderChanges(s.execs, t, s.execs[t].(again := true));
      case LockAfterAgain(t) => AgainOrder(s, t);
      case _ =>
    }
    hide Requests, HeldBy, Start, OneAtATime;
  }

  /**
  While at most one thread at a time carries out a request, they complete in the order in which they were submitted,
  however often one of them meets EAGAIN and goes back: the completed ones, the one being carried out and the pending
  ones are all that were submitted, in order.
  */
  lemma CompletesInOrder(run: seq<Channel>, i: nat)
    requires IsRun(Init, SerialNext, run) && i < |run|
    ensures Requests(run[i].done) + HeldBy(run[i].execs) + run[i].pending == run[i].accepted
  {
    forall s | Init(s) ensures InOrder(s) && OneAtATime(s) { NobodyHolds(s.execs); }
    var inv := (s: Channel) => InOrder(s) && OneAtATime(s);
    forall s, s' | inv(s) && SerialNext(s, s') ensures inv(s') {
      var a :| Enabled(s, a) && s' == Do(s, a);
      StepOrder(s, a);
    }
    Invariance(Init, SerialNext, inv, run);
  }

  // ---------- two at a time ----------

  ghost predicate DoneInOrder(s: Channel) {
    Requests(s.done) <= s.accepted
  }

  lemma {:induction false} HeldTwice(execs: seq<Exec>, t: nat, u: nat, r: nat)
    requires t < u < |execs| && execs[t].Exec? && execs[u].Exec? && execs[t].req == r == execs[u].req
    ensures Held(execs, r) >= 2
  {
    if t > 0 {
      HeldTwice(execs[1..], t - 1, u - 1, r);
    } else {
      HeldOnce(execs[1..], u - 1, r);
    }
  }

  lemma {:induction false} HeldOnce(execs: seq<Exec>, u: nat, r: nat)
    requires u < |execs| && execs[u].Exec? && execs[u].req == r
    ensures Held(execs, r) >= 1
  {
    if u > 0 {
      HeldOnce(execs[1..], u - 1, r);
    }
  }

  lemma NotBoth(before: seq<nat>, a: nat, b: nat, all: seq<nat>)
    requires a != b
    ensures !(before + [a] <= all) || !(before + [b] <= all)
  {
    assert before + [a] <= all ==> all[|before|] == (before + [a])[|before|] == a;
    assert before + [b] <= all ==> all[|before|] == (before + [b])[|before|] == b;
  }

  /** When two threads are in their calls, one of the two completions that can come next is out of order. */
  lemma TwoCallsReorder(s: Channel, t: nat, u: nat, outcome: Outcome)
    requires Conserved(s) && t < u && Enabled(s, Call(t, outcome)) && Enabled(s, Call(u, outcome))
    ensures !DoneInOrder(Do(s, Call(t, outcome))) || !DoneInOrder(Do(s, Call(u, outcome)))
  {
    var a, b := s.execs[t].req, s.execs[u].req;
    assert Places(s, a) == One(a in s.accepted);
    if a == b {
      HeldTwice(s.execs, t, u, a);
    }
    RequestsAppend(s.done, Finish(s.execs[t], outcome));
    RequestsAppend(s.done, Finish(s.execs[u], outcome));
    NotBoth(Requests(s.done), a, b, s.accepted);
    hide Requests, Conserved, Places;
  }

  // ---------- who is told ----------

  /** Results of requests started by an edge go to the completion queue, and those of submissions to their callers. */
  ghost predicate Told(s: Channel) {
    && (forall t :: 0 <= t < |s.execs| && s.execs[t].Exec? ==> (s.execs[t].notify <==> s.execs[t].starter.Activation?))
    && (forall i :: 0 <= i < |s.done| ==> (s.done[i].queued <==> s.done[i].starter.Activation?))
  }

  lemma StartTold(s: Channel, t: nat, notify: bool, starter: Starter)
    requires Told(s) && t < |s.execs| && (notify <==> starter.Activation?)
    ensures Told(Start(s, t, notify, starter))
  {
  }

  lemma CallTold(s: Channel, a: Action)
    requires Told(s) && Enabled(s, a) && (a.Call? || a.CallAgain? || a.LockAfterAgain?)
    ensures Told(Do(s, a))
  {
  }

  lemma StepTold(s: Channel, a: Action)
    requires Told(s) && Enabled(s, a)
    ensures Told(Do(s, a))
  {
    match a {
      case Activate(t) =>
        StartTold(s.(active := true, count := s.count + 1, harvested := false), t, true, Activation);
      case Submit(t, req, linked) => StartTold(Submitted(s, req, linked), t, false, Submission(req));
      case BecomeReady =>
      case BecomeUnready =>
      case DropEdge =>
      case Harvest =>
      case _ => CallTold(s, a);
    }
    hide Start;
  }

  lemma QueuedIffActivation(run: seq<Channel>, i: nat)
    requires IsRun(Init, Next, run) && i < |run|
    ensures Told(run[i])
  {
    forall s, s' | Told(s) && Next(s, s') ensures Told(s') {
      var a :| Enabled(s, a) && s' == Do(s, a);
      StepTold(s, a);
    }
    Invariance(Init, Next, Told, run);
    hide Do, Enabled;
  }
}
