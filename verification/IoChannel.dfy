/**
One direction of an edge-triggered socket: `on_read_active`, `_recv` and `WSARecv`, which `on_write_active`,
`_send` and `WSASend` repeat with other names. Steps are the critical sections, the system call, and what the
kernel does: the descriptor becoming ready or not, the edge that is raised with it, and epoll reporting it.
*/
module IoChannel {
  import opened Runs
  import opened Arith

  /** What a system call reports other than EAGAIN; 0 bytes mean the end of the stream. */
  datatype Outcome = Moved(bytes: nat) | Failed(error: int)

  /** What a thread came with when it started a request: an edge, or a request of its own. */
  datatype Starter = Activation | Submission(req: nat)

  /**
  A request that a thread is carrying out, with the activation count the thread knows. `notify` says where the
  result goes. `again` means that the call has answered EAGAIN and the lock is yet to be taken. `starter` is history.
  */
  datatype Exec = Idle | Exec(req: nat, count: nat, notify: bool, again: bool, starter: Starter)

  /**
  A finished request as the code leaves it, the value that the call returns, and whether the request was put on the
  completion queue.
  */
  datatype Done = Done(req: nat, bytes: int, error: int, ret: int, queued: bool, starter: Starter)

  /**
  `ready`, `edge` and `harvested` belong to the environment: whether the descriptor would deliver now, an edge
  not yet reported, and an edge that epoll has reported and `on_read_active` has not yet acted on. The last
  three fields are history: the requests submitted, but for those that were linked then, which the list does not take;
  these; and the completed ones, each in order.
  */
  datatype Channel = Channel(
    active: bool, count: nat, pending: seq<nat>, execs: seq<Exec>,
    ready: bool, edge: bool, harvested: bool,
    accepted: seq<nat>, dropped: seq<nat>, done: seq<Done>)

  datatype Action =
    | BecomeReady
    | BecomeUnready
    | DropEdge
    | Harvest
    | Activate(t: nat)
    | Submit(t: nat, req: nat, linked: bool)
    | Call(t: nat, outcome: Outcome)
    | CallAgain(t: nat)
    | LockAfterAgain(t: nat)

  /** EAGAIN is answered only while the descriptor is not ready, and an unreported edge goes away only then. */
  predicate Enabled(s: Channel, a: Action) {
    match a
    case BecomeReady => true
    case BecomeUnready => true
    case DropEdge => !s.ready
    case Harvest => s.edge && !s.harvested
    case Activate(t) => s.harvested && t < |s.execs| && s.execs[t].Idle?
    case Submit(t, req, _) => t < |s.execs| && s.execs[t].Idle? && req !in s.accepted + s.dropped
    case Call(t, outcome) => t < |s.execs| && s.execs[t].Exec? && !s.execs[t].again
    case CallAgain(t) => t < |s.execs| && s.execs[t].Exec? && !s.execs[t].again && !s.ready
    case LockAfterAgain(t) => t < |s.execs| && s.execs[t].Exec? && s.execs[t].again
  }

  /** The first pending request goes to thread `t`, if there is one. */
  function Start(s: Channel, t: nat, notify: bool, starter: Starter): Channel
    requires t < |s.execs|
  {
    if s.pending == [] then s
    else s.(pending := s.pending[1..], execs := s.execs[t := Exec(s.pending[0], s.count, notify, false, starter)])
  }

  /** The request goes to the end of the list, unless another one follows it already. */
  function Submitted(s: Channel, req: nat, linked: bool): Channel {
    if linked then s.(dropped := s.dropped + [req])
    else s.(accepted := s.accepted + [req], pending := s.pending + [req])
  }

  function Finish(e: Exec, outcome: Outcome): Done
    requires e.Exec?
  {
    match outcome
    case Moved(bytes) => Done(e.req, bytes, 0, if bytes == 0 then -1 else bytes, e.notify, e.starter)
    case Failed(error) => Done(e.req, -1, error, -1, e.notify, e.starter)
  }

  function Do(s: Channel, a: Action): Channel
    requires Enabled(s, a)
  {
    match a
    case BecomeReady => s.(ready := true, edge := true)
    case BecomeUnready => s.(ready := false)
    case DropEdge => s.(edge := false)
    case Harvest => s.(edge := false, harvested := true)
    case Activate(t) => Start(s.(active := true, count := s.count + 1, harvested := false), t, true, Activation)
    case Submit(t, req, linked) =>
      var s' := Submitted(s, req, linked);
      if s.active then Start(s', t, false, Submission(req)) else s'
    case Call(t, outcome) => s.(execs := s.execs[t := Idle], done := s.done + [Finish(s.execs[t], outcome)])
    case CallAgain(t) => s.(execs := s.execs[t := s.execs[t].(again := true)])
    case LockAfterAgain(t) =>
      var e := s.execs[t];
      if e.count != s.count then s.(execs := s.execs[t := e.(count := s.count, again := false)])
      else s.(active := false, pending := [e.req] + s.pending, execs := s.execs[t := Idle])
  }

  /** After registration an edge is raised if the descriptor is ready already. */
  ghost predicate Init(s: Channel) {
    && s == Channel(false, 0, [], s.execs, s.ready, s.edge, false, [], [], [])
    && (forall t :: 0 <= t < |s.execs| ==> s.execs[t].Idle?)
    && (s.ready ==> s.edge)
  }

  ghost predicate Next(s: Channel, s': Channel) {
    exists a :: Enabled(s, a) && s' == Do(s, a)
  }

  // ---------- no lost edge ----------

  /** The descriptor has nothing to offer, or an edge that says so is still on its way. */
  predicate EdgeOnItsWay(s: Channel) {
    !s.ready || s.edge || s.harvested
  }

  /** A thread with EAGAIN in hand that has seen the latest activation is right that there was nothing since. */
  ghost predicate EdgeInv(s: Channel) {
    && (!s.active ==> EdgeOnItsWay(s))
    && forall t :: 0 <= t < |s.execs| && s.execs[t].Exec? ==>
         s.execs[t].count <= s.count && (s.execs[t].again && s.execs[t].count == s.count ==> EdgeOnItsWay(s))
  }

  lemma StartEdge(s: Channel, t: nat, notify: bool, starter: Starter)
    requires EdgeInv(s) && t < |s.execs|
    ensures EdgeInv(Start(s, t, notify, starter))
  {
  }

  lemma CallEdge(s: Channel, a: Action)
    requires EdgeInv(s) && Enabled(s, a) && (a.Call? || a.CallAgain? || a.LockAfterAgain?)
    ensures EdgeInv(Do(s, a))
  {
    if a.LockAfterAgain? {
      assert s.execs[a.t].count <= s.count;
    }
  }

  lemma StepEdge(s: Channel, a: Action)
    requires EdgeInv(s) && Enabled(s, a)
    ensures EdgeInv(Do(s, a))
  {
    match a {
      case Activate(t) => StartEdge(s.(active := true, count := s.count + 1, harvested := false), t, true, Activation);
      case Submit(t, req, linked) => StartEdge(Submitted(s, req, linked), t, false, Submission(req));
      case BecomeReady =>
      case BecomeUnready =>
      case DropEdge =>
      case Harvest =>
      case _ => CallEdge(s, a);
    }
    hide Start;
  }

  /** In every interleaving: while the flag says "not ready", the kernel agrees or an edge is yet to be delivered. */
  lemma NoLostEdge(run: seq<Channel>, i: nat)
    requires IsRun(Init, Next, run) && i < |run|
    ensures !run[i].active ==> EdgeOnItsWay(run[i])
  {
    forall s, s' | EdgeInv(s) && Next(s, s') ensures EdgeInv(s') {
      var a :| Enabled(s, a) && s' == Do(s, a);
      StepEdge(s, a);
    }
    Invariance(Init, Next, EdgeInv, run);
  }

  // ---------- conservation ----------

  function Count(reqs: seq<nat>, r: nat): nat {
    if reqs == [] then 0 else One(reqs[0] == r) + Count(reqs[1..], r)
  }

  function Held(execs: seq<Exec>, r: nat): nat {
    if execs == [] then 0 else One(execs[0].Exec? && execs[0].req == r) + Held(execs[1..], r)
  }

  function Finished(done: seq<Done>, r: nat): nat {
    if done == [] then 0 else One(done[0].req == r) + Finished(done[1..], r)
  }

  /** Every place a request can be in. */
  function Places(s: Channel, r: nat): nat {
    Count(s.pending, r) + Held(s.execs, r) + Finished(s.done, r)
  }

  ghost predicate Conserved(s: Channel) {
    forall r :: Places(s, r) == One(r in s.accepted)
  }

  lemma {:induction false} CountAppend(reqs: seq<nat>, x: nat, r: nat)
    ensures Count(reqs + [x], r) == Count(reqs, r) + One(x == r)
  {
    if reqs == [] {
      assert [x][1..] == [];
    } else {
      CountAppend(reqs[1..], x, r);
      assert (reqs + [x])[1..] == reqs[1..] + [x];
    }
  }

  lemma CountPrepend(x: nat, reqs: seq<nat>, r: nat)
    ensures Count([x] + reqs, r) == One(x == r) + Count(reqs, r)
  {
    assert ([x] + reqs)[1..] == reqs;
  }

  lemma {:induction false} FinishedAppend(done: seq<Done>, d: Done, r: nat)
    ensures Finished(done + [d], r) == Finished(done, r) + One(d.req == r)
  {
    if done == [] {
      assert [d][1..] == [];
    } else {
      FinishedAppend(done[1..], d, r);
      assert (done + [d])[1..] == done[1..] + [d];
    }
  }

  lemma {:induction false} HeldUpdate(execs: seq<Exec>, t: nat, e: Exec, r: nat)
    requires t < |execs|
    ensures Held(execs[t := e], r) + One(execs[t].Exec? && execs[t].req == r) ==
            Held(execs, r) + One(e.Exec? && e.req == r)
  {
    if t > 0 {
      HeldUpdate(execs[1..], t - 1, e, r);
      assert execs[t := e][1..] == execs[1..][t - 1 := e];
    } else {
      assert execs[t := e][1..] == execs[1..];
    }
  }

  lemma StartPlaces(s: Channel, t: nat, notify: bool, starter: Starter, r: nat)
    requires t < |s.execs| && s.execs[t].Idle?
    ensures Places(Start(s, t, notify, starter), r) == Places(s, r)
  {
    if s.pending != [] {
      HeldUpdate(s.execs, t, Exec(s.pending[0], s.count, notify, false, starter), r);
    }
  }

  lemma SubmitPlaces(s: Channel, t: nat, req: nat, linked: bool, r: nat)
    requires Enabled(s, Submit(t, req, linked))
    ensures Places(Do(s, Submit(t, req, linked)), r) == Places(s, r) + One(req == r && !linked)
  {
    CountAppend(s.pending, req, r);
    if s.active {
      StartPlaces(Submitted(s, req, linked), t, false, Submission(req), r);
    }
    hide Count, Held, Finished, Start;
  }

  lemma CallPlaces(s: Channel, t: nat, outcome: Outcome, r: nat)
    requires Enabled(s, Call(t, outcome))
    ensures Places(Do(s, Call(t, outcome)), r) == Places(s, r)
  {
    hide Count, Held, Finished;
    HeldUpdate(s.execs, t, Idle, r);
    FinishedAppend(s.done, Finish(s.execs[t], outcome), r);
  }

  lemma AgainPlaces(s: Channel, t: nat, r: nat)
    requires Enabled(s, LockAfterAgain(t))
    ensures Places(Do(s, LockAfterAgain(t)), r) == Places(s, r)
  {
    hide Count, Held, Finished;
    var e := s.execs[t];
    if e.count != s.count {
      HeldUpdate(s.execs, t, e.(count := s.count, again := false), r);
    } else {
      HeldUpdate(s.execs, t, Idle, r);
      CountPrepend(e.req, s.pending, r);
    }
  }

  lemma OtherPlaces(s: Channel, a: Action, r: nat)
    requires Enabled(s, a) && !(a.Activate? || a.Submit? || a.Call? || a.LockAfterAgain?)
    ensures Places(Do(s, a), r) == Places(s, r)
  {
    if a.CallAgain? {
      HeldUpdate(s.execs, a.t, Do(s, a).execs[a.t], r);
    }
    hide Count, Held, Finished;
  }

  lemma OnlySubmitted(s: Channel, a: Action)
    requires Enabled(s, a)
    ensures Do(s, a).accepted == s.accepted + if a.Submit? && !a.linked then [a.req] else []
  {
  }

  lemma StepPlaces(s: Channel, a: Action, r: nat)
    requires Places(s, r) == One(r in s.accepted) && Enabled(s, a)
    ensures Places(Do(s, a), r) == One(r in Do(s, a).accepted)
  {
    hide Places;
    OnlySubmitted(s, a);
    hide Do;
    match a {
      case Activate(t) => ActivatePlaces(s, t, r);
      case Submit(t, req, linked) => SubmitPlaces(s, t, req, linked, r);
      case Call(t, outcome) => CallPlaces(s, t, outcome, r);
      case LockAfterAgain(t) => AgainPlaces(s, t, r);
      case _ => OtherPlaces(s, a, r);
    }
  }

  lemma ActivatePlaces(s: Channel, t: nat, r: nat)
    requires Enabled(s, Activate(t))
    ensures Places(Do(s, Activate(t)), r) == Places(s, r)
  {
    StartPlaces(s.(active := true, count := s.count + 1, harvested := false), t, true, Activation, r);
    hide Count, Held, Finished, Start;
  }

  /**
  In every interleaving each submitted request, unless it was linked then, is in exactly one place, pending, with one
  thread or completed, so none is lost and none completes twice; nothing else is anywhere.
  */
  lemma RequestsConserved(run: seq<Channel>, i: nat, r: nat)
    requires IsRun(Init, Next, run) && i < |run|
    ensures Places(run[i], r) == One(r in run[i].accepted)
    ensures Finished(run[i].done, r) <= 1
  {
    forall s | Init(s) ensures Conserved(s) {
      forall r ensures Places(s, r) == 0 { NoneHeld(s.execs, r); }
    }
    forall s, s' | Conserved(s) && Next(s, s') ensures Conserved(s') {
      var a :| Enabled(s, a) && s' == Do(s, a);
      forall r ensures Places(s', r) == One(r in s'.accepted) {
        assert Places(s, r) == One(r in s.accepted);
        StepPlaces(s, a, r);
      }
    }
    Invariance(Init, Next, Conserved, run);
    assert Conserved(run[i]);
  }

  lemma {:induction false} NoneHeld(execs: seq<Exec>, r: nat)
    requires forall t :: 0 <= t < |execs| ==> execs[t].Idle?
    ensures Held(execs, r) == 0
  {
    if execs != [] {
      NoneHeld(execs[1..], r);
    }
  }

  // ---------- whose result a call returns ----------

  /**
  A submission that may start at once starts its own request if and only if none was pending before and the request
  was not linked, and none at all if and only if none was pending and it was.
  */
  lemma SubmitRunsOwn(s: Channel, t: nat, req: nat, linked: bool)
    requires Conserved(s) && Enabled(s, Submit(t, req, linked)) && s.active
    ensures var e := Do(s, Submit(t, req, linked)).execs[t];
      && (e.Exec? && e.req == req <==> s.pending == [] && !linked)
      && (e.Idle? <==> s.pending == [] && linked)
      && (e.Exec? ==> !e.notify && e.starter == Submission(req))
  {
    if s.pending != [] {
      assert Count(s.pending, s.pending[0]) >= 1;
      assert Places(s, s.pending[0]) == One(s.pending[0] in s.accepted);
    }
  }

  /**
  The result that a submission returns can be another one's: when an activation has started one of two pending
  requests, the next submission carries out and silently completes the other, while its own stays pending. The request
  submitted first is not even completed then.
  */
  lemma ForeignResult() returns (run: seq<Channel>)
    ensures IsRun(Init, Next, run)
    ensures var s := run[|run| - 1];
      s.done == [Done(2, 7, 0, 7, false, Submission(3))] && s.accepted == [1, 2, 3] && s.pending == [3]
  {
    run := TwoPendingThenActive();
    var s4 := run[|run| - 1];
    var e := Exec(2, 1, false, false, Submission(3));
    var s5 := s4.(pending := [3], accepted := [1, 2, 3], execs := [s4.execs[0], e]);
    var s6 := s5.(execs := [s4.execs[0], Idle], done := [Done(2, 7, 0, 7, false, Submission(3))]);
    run := Continue(run, Submit(1, 3, false), s5);
    run := Continue(run, Call(1, Moved(7)), s6);
  }

  lemma TwoPendingThenActive() returns (run: seq<Channel>)
    ensures IsRun(Init, Next, run)
    ensures run[|run| - 1] ==
            Channel(true, 1, [2], [Exec(1, 1, true, false, Activation), Idle], true, false, false, [1, 2], [], [])
  {
    var s0 := Channel(false, 0, [], [Idle, Idle], true, true, false, [], [], []);
    var s1 := s0.(pending := [1], accepted := [1]);
    var s2 := s0.(pending := [1, 2], accepted := [1, 2]);
    var s3 := s2.(edge := false, harvested := true);
    var s4 := s3.(active := true, count := 1, harvested := false, pending := [2],
                  execs := [Exec(1, 1, true, false, Activation), Idle]);
    run := [s0];
    run := Continue(run, Submit(0, 1, false), s1);
    run := Continue(run, Submit(0, 2, false), s2);
    run := Continue(run, Harvest, s3);
    run := Continue(run, Activate(0), s4);
  }

  lemma Continue(run: seq<Channel>, a: Action, s: Channel) returns (longer: seq<Channel>)
    requires IsRun(Init, Next, run)
    requires Enabled(run[|run| - 1], a) && Do(run[|run| - 1], a) == s
    ensures IsRun(Init, Next, longer) && longer[|longer| - 1] == s
  {
    Extend(Init, Next, run, s);
    longer := run + [s];
  }
}
