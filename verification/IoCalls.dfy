/** What one call on a socket does: an edge, a submission, and a request that meets EAGAIN. */
module IoCalls {
  import opened IoChannel

  /** What a finished request says of the system call. */
  function Reported(d: Done): Outcome {
    if d.bytes >= 0 then Moved(d.bytes) else Failed(d.error)
  }

  /** One more request is completed, with this result; the value returned tells failure and end of stream from data. */
  predicate Completes(s: Channel, req: nat, outcome: Outcome, queued: bool, s': Channel) {
    && |s'.done| == |s.done| + 1 && s'.done[..|s.done|] == s.done
    && var d := s'.done[|s.done|];
       && d.req == req && Reported(d) == outcome && d.queued == queued
       && (d.ret == -1 <==> outcome.Failed? || outcome.bytes == 0)
       && (outcome.Moved? ==> d.error == 0) && (outcome.Moved? && outcome.bytes > 0 ==> d.ret == outcome.bytes)
  }

  /** An edge starts the first pending request, if there is one, and its result goes to the completion queue. */
  lemma ActivateAlone(s: Channel, t: nat, outcome: Outcome)
    requires Enabled(s, Activate(t))
    ensures var s1 := Do(s, Activate(t));
      && s1.active && s1.count == s.count + 1 && !s1.harvested
      && if s.pending == [] then s1.execs == s.execs && s1.pending == [] && s1.done == s.done
         else
           && Enabled(s1, Call(t, outcome))
           && var s2 := Do(s1, Call(t, outcome));
              s2.execs == s.execs && s2.pending == s.pending[1..] && Completes(s, s.pending[0], outcome, true, s2)
  {
  }

  /**
  A submission goes to the end of the list, unless the request was linked. Only if the descriptor may be ready, the
  first one there, whosoever it is, is carried out, and its result returned.
  */
  lemma SubmitAlone(s: Channel, t: nat, req: nat, linked: bool, outcome: Outcome)
    requires Enabled(s, Submit(t, req, linked))
    ensures var s1, all := Do(s, Submit(t, req, linked)), s.pending + if linked then [] else [req];
      && s1.active == s.active && s1.count == s.count
      && if !s.active || all == [] then s1.execs == s.execs && s1.pending == all && s1.done == s.done
         else
           && Enabled(s1, Call(t, outcome))
           && var s2 := Do(s1, Call(t, outcome));
              s2.execs == s.execs && s2.pending == all[1..] && Completes(s, all[0], outcome, false, s2)
  {
    assert s.pending + [] == s.pending;
  }

  // ---------- EAGAIN ----------

  /** These steps of the environment and of other threads lead from one state to the other. */
  ghost predicate Others(s: Channel, t: nat, actions: seq<Action>, s': Channel)
    decreases |actions|
  {
    if actions == [] then s' == s
    else
      && Enabled(s, actions[0]) && !IsStepOf(actions[0], t)
      && Others(Do(s, actions[0]), t, actions[1..], s')
  }

  predicate IsStepOf(a: Action, t: nat) {
    match a
    case Activate(u) => u == t
    case Submit(u, _, _) => u == t
    case Call(u, _) => u == t
    case CallAgain(u) => u == t
    case LockAfterAgain(u) => u == t
    case _ => false
  }

  function Activations(actions: seq<Action>): nat {
    if actions == [] then 0 else (if actions[0].Activate? then 1 else 0) + Activations(actions[1..])
  }

  lemma {:induction false} OthersCount(s: Channel, t: nat, actions: seq<Action>, s': Channel)
    requires Others(s, t, actions, s') && t < |s.execs|
    ensures |s'.execs| == |s.execs| && s'.execs[t] == s.execs[t] && s'.count == s.count + Activations(actions)
    decreases |actions|
  {
    if actions != [] {
      OthersCount(Do(s, actions[0]), t, actions[1..], s');
    }
  }

  /**
  A thread that meets EAGAIN with the latest activation count, in every interleaving: the request is the first of the
  pending ones, and the flag cleared, if and only if no edge came before it took the lock; otherwise it tries again.
  */
  lemma EagainParks(s: Channel, t: nat, actions: seq<Action>, s': Channel)
    requires Enabled(s, CallAgain(t)) && s.execs[t].count == s.count
    requires Others(Do(s, CallAgain(t)), t, actions, s')
    ensures Enabled(s', LockAfterAgain(t))
    ensures var s'', e := Do(s', LockAfterAgain(t)), s.execs[t];
      if Activations(actions) == 0
      then s'' == s'.(active := false, pending := [e.req] + s'.pending, execs := s'.execs[t := Idle])
      else s'' == s'.(execs := s'.execs[t := e.(count := s'.count)])
  {
    OthersCount(Do(s, CallAgain(t)), t, actions, s');
  }
}
