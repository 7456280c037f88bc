/**
The calls of lockfreeQueue.c come to an end: a pop that has claimed a unit hands out that unit, and a push that has
counted itself appends its own, after a fixed number of their own steps, whatever the other thread does in between.
*/
module SpscProgress {
  import opened SpscQueue

  /** These steps of the two threads lead from one state to the other. */
  ghost predicate Trace(s: State, actions: seq<Action>, s': State)
    decreases |actions|
  {
    if actions == [] then s' == s else Enabled(s, actions[0]) && Trace(Do(s, actions[0]), actions[1..], s')
  }

  predicate OfPop(a: Action) {
    a.CallPop? || a.StepPop?
  }

  /** How many of the steps are those of the popping thread, and of the pushing one. */
  function PopSteps(actions: seq<Action>): nat {
    if actions == [] then 0 else (if OfPop(actions[0]) then 1 else 0) + PopSteps(actions[1..])
  }

  function PushSteps(actions: seq<Action>): nat {
    if actions == [] then 0 else (if OfPop(actions[0]) then 0 else 1) + PushSteps(actions[1..])
  }

  function Repeat(a: Action, k: nat): (actions: seq<Action>)
    ensures |actions| == k
  {
    if k == 0 then [] else [a] + Repeat(a, k - 1)
  }

  lemma Prepend(s: State, a: Action, actions: seq<Action>, s': State)
    requires Enabled(s, a) && Trace(Do(s, a), actions, s')
    ensures Trace(s, [a] + actions, s')
  {
    assert ([a] + actions)[1..] == actions;
  }

  // ---------- pop ----------

  /** How many own steps a pop that has claimed a unit has left. */
  function PopLeft(s: State): int
    requires Claimed(s.cons)
  {
    match s.cons
    case LoadPHead => s.unitSize + 8
    case LoadHeadNext(_) => s.unitSize + 7
    case CasPHead(_, _) => s.unitSize + 6
    case LoadSource(_) => s.unitSize + 5
    case CopyOut(_, _, out) => s.unitSize - |out| + 4
    case LoadFreed(_, _) => 3
    case ClearUseFlag(_, _) => 2
    case SubWLen(_) => 1
  }

  /** The bytes of the unit that a pop has claimed. */
  function ClaimedUnit(s: State): Payload
    requires Claimed(s.cons) && HasView(s)
  {
    Abs(s).claimed[0]
  }

  lemma PopFacts(s: State)
    requires Inv(s) && Claimed(s.cons)
    ensures Enabled(s, StepPop) && HasView(s) && PopLeft(s) >= 1
    ensures s.cons.CasPHead? ==> s.pHead == s.cons.head
    ensures s.cons.CopyOut? ==> |s.cons.out| <= s.unitSize
    ensures s.cons.SubWLen? ==> s.cons.out == ClaimedUnit(s)
  {
    NeverOutOfBounds(s);
    ViewFacts(s);
    hide Cyclic, Chain, FlagsExact, Delivered, ProducerOk;
  }

  /** Every step of a claimed pop is one towards its end. */
  lemma PopAdvances(s: State)
    requires Inv(s) && Claimed(s.cons)
    ensures Enabled(s, StepPop) && HasView(s) && Inv(PopStep(s)) && PopStep(s).unitSize == s.unitSize
    ensures var s' := PopStep(s);
      if PopLeft(s) == 1 then s'.cons.Resting? && s'.got == s.got + [ClaimedUnit(s)]
      else Claimed(s'.cons) && PopLeft(s') == PopLeft(s) - 1 && s'.got == s.got && s'.sent == s.sent
  {
    hide Inv, Abs;
    PopFacts(s);
    PopStepInv(s);
    hide Enabled;
  }

  lemma PushLeavesPop(s: State, a: Action)
    requires Inv(s) && Enabled(s, a) && !OfPop(a)
    ensures var s' := Do(s, a);
      Inv(s') && s'.cons == s.cons && s'.got == s.got && s'.unitSize == s.unitSize && s.sent <= s'.sent
  {
    hide Inv;
    StepInv(s, a);
    if a.StepPush? {
      PushHistory(s);
      PushUnitSize(s);
    }
    hide PushStep, Enabled;
  }

  lemma PushUnitSize(s: State)
    requires Enabled(s, StepPush)
    ensures PushStep(s).unitSize == s.unitSize
  {
  }

  lemma {:induction false} OnlyPushes(s: State, actions: seq<Action>, s': State)
    requires Inv(s) && Trace(s, actions, s') && PopSteps(actions) == 0
    ensures Inv(s') && s'.cons == s.cons && s'.got == s.got
    decreases |actions|
  {
    hide Inv, Do, Enabled;
    if actions != [] {
      PushLeavesPop(s, actions[0]);
      OnlyPushes(Do(s, actions[0]), actions[1..], s');
    }
  }

  /** With pushes in between, a claimed pop is at its end after so many own steps, and not before. */
  lemma {:induction false} PopRuns(s: State, actions: seq<Action>, s': State)
    requires Inv(s) && Claimed(s.cons) && Trace(s, actions, s') && PopSteps(actions) <= PopLeft(s)
    ensures Inv(s') && HasView(s)
    ensures if PopSteps(actions) == PopLeft(s) then s'.cons.Resting? && s'.got == s.got + [ClaimedUnit(s)]
            else Claimed(s'.cons) && s'.got == s.got && PopLeft(s') == PopLeft(s) - PopSteps(actions)
    decreases |actions|
  {
    hide Inv, Do, Enabled, HasView;
    View(s);
    PopFacts(s);
    if actions != [] {
      var rest, s1 := actions[1..], Do(s, actions[0]);
      if !OfPop(actions[0]) {
        PushLeavesPop(s, actions[0]);
      } else {
        PopAction(s, actions[0]);
      }
      if Claimed(s1.cons) {
        View(s1);
        SameClaim(s, s1);
        PopRuns(s1, rest, s');
      } else {
        OnlyPushes(s1, rest, s');
      }
    }
  }

  lemma PopAction(s: State, a: Action)
    requires Inv(s) && Claimed(s.cons) && OfPop(a) && Enabled(s, a)
    ensures HasView(s) && Inv(Do(s, a)) && Do(s, a).unitSize == s.unitSize
    ensures var s' := Do(s, a);
      if PopLeft(s) == 1 then s'.cons.Resting? && s'.got == s.got + [ClaimedUnit(s)]
      else Claimed(s'.cons) && PopLeft(s') == PopLeft(s) - 1 && s'.got == s.got && s'.sent == s.sent
  {
    hide Inv, PopStep, ClaimedUnit;
    PopAdvances(s);
  }

  lemma SameClaim(s: State, s': State)
    requires HasView(s) && HasView(s') && Claimed(s.cons) && Claimed(s'.cons) && s'.got == s.got && s.sent <= s'.sent
    ensures ClaimedUnit(s') == ClaimedUnit(s)
  {
  }

  /**
  In every interleaving: a pop that has just claimed a unit has handed out that unit, and is done, after its next
  `unit_size` + 8 own steps, each of which it can take.
  */
  lemma PopCompletes(s: State, actions: seq<Action>, s': State)
    requires Inv(s) && s.cons.LoadPHead? && Trace(s, actions, s') && PopSteps(actions) <= s.unitSize + 8
    ensures HasView(s) && |Abs(s).claimed| == 1
    ensures if PopSteps(actions) == s.unitSize + 8 then s'.cons.Resting? && s'.got == s.got + [Abs(s).claimed[0]]
            else s'.got == s.got && Enabled(s', StepPop)
  {
    PopRuns(s, actions, s');
    if PopSteps(actions) < s.unitSize + 8 {
      PopFacts(s');
    }
    hide Inv;
  }

  /** Without pushes in between. */
  lemma {:induction false} FinishPop(s: State) returns (s': State)
    requires Inv(s) && Claimed(s.cons)
    ensures HasView(s) && PopLeft(s) >= 0 && Trace(s, Repeat(StepPop, PopLeft(s)), s')
    ensures s'.cons.Resting? && s'.got == s.got + [ClaimedUnit(s)] && s'.sent == s.sent && s'.prod == s.prod
    ensures s'.max == s.max
    decreases PopLeft(s)
  {
    hide Inv, PopStep, HasView;
    PopFacts(s);
    PopAdvances(s);
    PopLeavesPush(s);
    var s1 := PopStep(s);
    if PopLeft(s) == 1 {
      s' := s1;
      assert Trace(s1, [], s');
    } else {
      View(s1);
      SameClaim(s, s1);
      s' := FinishPop(s1);
    }
    Prepend(s, StepPop, Repeat(StepPop, PopLeft(s) - 1), s');
  }

  lemma PopLeavesPush(s: State)
    requires Enabled(s, StepPop)
    ensures PopStep(s).prod == s.prod && PopStep(s).max == s.max
    ensures PopStep(s).sent == s.sent
  {
  }

  /** Called alone, with the documented guard, a pop takes the oldest unit; from an empty queue it takes nothing. */
  lemma PopAlone(s: State) returns (s': State)
    requires Inv(s) && s.guard.Documented? && s.cons.Resting?
    ensures HasView(s) && HasView(s') && s'.cons.Resting? && s'.prod == s.prod
    ensures var q := Abs(s);
      if q.waiting == [] then s' == s && Trace(s, [CallPop, StepPop], s')
      else Trace(s, [CallPop] + Repeat(StepPop, s.unitSize + 10), s') &&
           Abs(s') == q.(waiting := q.waiting[1..], delivered := q.delivered + [q.waiting[0]])
  {
    hide Inv;
    View(s);
    var s1 := Do(s, CallPop);
    CallInv(s, CallPop);
    CountersBound(s);
    if Abs(s).waiting == [] {
      s' := s;
      assert Trace(s1, [StepPop], s');
    } else {
      var s2 := PopStep(s1);
      PopStepInv(s1);
      var s3 := PopStep(s2);
      PopStepInv(s2);
      s' := FinishPop(s3);
      Prepend(s2, StepPop, Repeat(StepPop, s.unitSize + 8), s');
      Prepend(s1, StepPop, Repeat(StepPop, s.unitSize + 9), s');
      Prepend(s, CallPop, Repeat(StepPop, s.unitSize + 10), s');
    }
  }

  /** In every interleaving: with the documented guard a pop gives up only at a moment at which the queue is empty. */
  lemma GivesUpOnlyWhenEmpty(s: State)
    requires Inv(s) && s.guard.Documented? && Enabled(s, StepPop)
    ensures HasView(s)
    ensures PopStep(s).cons.Resting? && PopStep(s).got == s.got ==> s.cons.LoadRLen? && Abs(s).waiting == []
  {
    hide Inv;
    View(s);
    if s.cons.LoadRLen? {
      PopAnswer(s);
    }
  }

  /** A pop that has not claimed a unit yet, and may have been overtaken by pushes, claims one when it runs alone. */
  lemma OvertakenPopClaims(s: State) returns (k: nat, s': State)
    requires Inv(s) && s.guard.Documented? && (s.cons.LoadRLen? || s.cons.CasRLen?)
    requires HasView(s) && Abs(s).waiting != []
    ensures k <= 3 && Trace(s, Repeat(StepPop, k), s') && s'.cons.LoadPHead? && Inv(s')
    ensures s'.got == s.got && s'.sent == s.sent && HasView(s') && Abs(s').claimed == [Abs(s).waiting[0]]
  {
    hide Inv;
    CountersBound(s);
    s', k := s, 0;
    if s.cons.CasRLen? && s.cons.seen != s.rLen {
      PopStepInv(s);
      var s1 := PopStep(s);
      var s2 := PopStep(s1);
      PopStepInv(s1);
      s', k := PopStep(s2), 3;
      PopStepInv(s2);
      Prepend(s2, StepPop, [], s');
      Prepend(s1, StepPop, [StepPop], s');
      Prepend(s, StepPop, [StepPop, StepPop], s');
      assert Repeat(StepPop, 3) == [StepPop] + [StepPop, StepPop];
    } else if s.cons.CasRLen? {
      s', k := PopStep(s), 1;
      PopStepInv(s);
      Prepend(s, StepPop, [], s');
      assert Repeat(StepPop, 1) == [StepPop] + [];
    } else {
      var s1 := PopStep(s);
      PopStepInv(s);
      s', k := PopStep(s1), 2;
      PopStepInv(s1);
      Prepend(s1, StepPop, [], s');
      Prepend(s, StepPop, [StepPop], s');
      assert Repeat(StepPop, 2) == [StepPop] + [StepPop];
    }
  }

  // ---------- push ----------

  /** How many own steps a push that has counted itself in `w_len` has left. */
  function PushLeft(s: State): int
    requires Reserved(s.prod)
  {
    match s.prod
    case LoadWTail(_) => s.unitSize + 10
    case CasWTail(_, _) => s.unitSize + 9
    case TestUseFlag(_, _) => s.unitSize + 8
    case ClearNext(_, _) => s.unitSize + 7
    case SetUseFlag(_, _) => s.unitSize + 6
    case CopyIn(_, _, k) => s.unitSize - k + 5
    case LoadPTail(_, _, _) => 4
    case CasNext(_, _, _, _, _) => 3
    case CasPTail(_, _, _) => 2
    case _ => 1
  }

  lemma PushFacts(s: State)
    requires Inv(s) && Reserved(s.prod)
    ensures Enabled(s, StepPush) && PushLeft(s) >= 1 && |s.prod.v| == s.unitSize
    ensures s.prod.CasWTail? ==> s.wTail == s.prod.seen
    ensures s.prod.TestUseFlag? ==> !s.useFlag[s.prod.slot + 1]
    ensures s.prod.LoadPTail? ==> s.prod.tries == 0
    ensures s.prod.CasNext? ==> s.IsOffset(s.prod.cur) && s.next[s.prod.cur + 1] == LIST_END
    ensures s.prod.CopyIn? ==> s.prod.k <= s.unitSize
    ensures !s.prod.Walk?
  {
    NeverOutOfBounds(s);
    PushNeverRetries(s);
    hide Cyclic, Chain, FlagsExact, Delivered, ConsumerOk;
  }

  /** Every step of such a push is one towards its end. */
  lemma PushAdvances(s: State)
    requires Inv(s) && Reserved(s.prod)
    ensures Enabled(s, StepPush) && Inv(PushStep(s)) && PushStep(s).unitSize == s.unitSize
    ensures var s' := PushStep(s);
      if PushLeft(s) == 1 then s'.prod.Idle? && s'.sent == s.sent + [s.prod.v]
      else Reserved(s'.prod) && PushLeft(s') == PushLeft(s) - 1 && s'.sent == s.sent && s'.prod.v == s.prod.v
  {
    hide Inv;
    PushFacts(s);
    PushStepInv(s);
    hide Enabled;
  }

  lemma PopLeavesPushing(s: State, a: Action)
    requires Inv(s) && Enabled(s, a) && OfPop(a)
    ensures var s' := Do(s, a); Inv(s') && s'.prod == s.prod && s'.sent == s.sent && s'.unitSize == s.unitSize
  {
    hide Inv;
    StepInv(s, a);
  }

  lemma {:induction false} OnlyPops(s: State, actions: seq<Action>, s': State)
    requires Inv(s) && Trace(s, actions, s') && PushSteps(actions) == 0
    ensures Inv(s') && s'.prod == s.prod && s'.sent == s.sent
    decreases |actions|
  {
    hide Inv, Do, Enabled;
    if actions != [] {
      PopLeavesPushing(s, actions[0]);
      OnlyPops(Do(s, actions[0]), actions[1..], s');
    }
  }

  lemma PushAction(s: State, a: Action)
    requires Inv(s) && Reserved(s.prod) && !OfPop(a) && Enabled(s, a)
    ensures Inv(Do(s, a)) && Do(s, a).unitSize == s.unitSize
    ensures var s' := Do(s, a);
      if PushLeft(s) == 1 then s'.prod.Idle? && s'.sent == s.sent + [s.prod.v]
      else Reserved(s'.prod) && PushLeft(s') == PushLeft(s) - 1 && s'.sent == s.sent && s'.prod.v == s.prod.v
  {
    hide Inv, PushStep;
    PushAdvances(s);
  }

  lemma {:induction false} PushRuns(s: State, actions: seq<Action>, s': State)
    requires Inv(s) && Reserved(s.prod) && Trace(s, actions, s') && PushSteps(actions) <= PushLeft(s)
    ensures Inv(s')
    ensures if PushSteps(actions) == PushLeft(s) then s'.prod.Idle? && s'.sent == s.sent + [s.prod.v]
            else Reserved(s'.prod) && s'.sent == s.sent && PushLeft(s') == PushLeft(s) - PushSteps(actions)
    decreases |actions|
  {
    hide Inv, Do, Enabled;
    PushFacts(s);
    if actions != [] {
      var rest, s1 := actions[1..], Do(s, actions[0]);
      if OfPop(actions[0]) {
        PopLeavesPushing(s, actions[0]);
      } else {
        PushAction(s, actions[0]);
      }
      if Reserved(s1.prod) {
        PushRuns(s1, rest, s');
      } else {
        OnlyPops(s1, rest, s');
      }
    }
  }

  /**
  In every interleaving: a push that has just counted itself has appended its unit, and is done, after its next
  `unit_size` + 10 own steps, each of which it can take.
  */
  lemma PushCompletes(s: State, actions: seq<Action>, s': State)
    requires Inv(s) && s.prod.LoadWTail? && Trace(s, actions, s')
    requires PushSteps(actions) <= s.unitSize + 10
    ensures if PushSteps(actions) == s.unitSize + 10 then s'.prod.Idle? && s'.sent == s.sent + [s.prod.v]
            else s'.sent == s.sent && Enabled(s', StepPush)
  {
    PushRuns(s, actions, s');
    if PushSteps(actions) < s.unitSize + 10 {
      PushFacts(s');
    }
    hide Inv;
  }

  lemma {:induction false} FinishPush(s: State) returns (s': State)
    requires Inv(s) && Reserved(s.prod)
    ensures PushLeft(s) >= 0 && Trace(s, Repeat(StepPush, PushLeft(s)), s')
    ensures s'.prod.Idle? && s'.sent == s.sent + [s.prod.v] && s'.got == s.got && s'.cons == s.cons && s'.max == s.max
    decreases PushLeft(s)
  {
    hide Inv, PushStep;
    PushFacts(s);
    PushAdvances(s);
    PushHistory(s);
    var s1 := PushStep(s);
    if PushLeft(s) == 1 {
      s' := s1;
      assert Trace(s1, [], s');
    } else {
      s' := FinishPush(s1);
    }
    Prepend(s, StepPush, Repeat(StepPush, PushLeft(s) - 1), s');
  }

  /** Called alone, a push appends its unit if there is room, and otherwise leaves everything as it is. */
  lemma PushAlone(s: State, v: Payload) returns (s': State)
    requires Inv(s) && s.prod.Idle? && |v| == s.unitSize
    ensures HasView(s) && HasView(s') && s'.prod.Idle? && s'.cons == s.cons
    ensures var q := Abs(s);
      if |q.waiting| + |q.claimed| == q.capacity then s' == s && Trace(s, [CallPush(v), StepPush], s')
      else Trace(s, [CallPush(v)] + Repeat(StepPush, s.unitSize + 12), s') && Abs(s') == q.(waiting := q.waiting + [v])
  {
    hide Inv;
    View(s);
    var s1 := Do(s, CallPush(v));
    CallInv(s, CallPush(v));
    CountersBound(s1);
    if |Abs(s).waiting| + |Abs(s).claimed| == s.max {
      s' := s;
      assert Trace(s1, [StepPush], s');
    } else {
      var s2 := PushStep(s1);
      PushStepInv(s1);
      var s3 := PushStep(s2);
      PushStepInv(s2);
      s' := FinishPush(s3);
      Prepend(s2, StepPush, Repeat(StepPush, s.unitSize + 10), s');
      Prepend(s1, StepPush, Repeat(StepPush, s.unitSize + 11), s');
      Prepend(s, CallPush(v), Repeat(StepPush, s.unitSize + 12), s');
    }
  }

  /** In every interleaving: a push gives up only at a moment at which the queue is full. */
  lemma GivesUpOnlyWhenFull(s: State)
    requires Inv(s) && Enabled(s, StepPush)
    ensures HasView(s)
    ensures PushStep(s).prod.Idle? && PushStep(s).sent == s.sent ==>
      s.prod.LoadWLen? && |Abs(s).waiting| + |Abs(s).claimed| == Abs(s).capacity
  {
    hide Inv;
    View(s);
    CountersBound(s);
  }

  /** A push that has not counted itself yet, and may have been overtaken by pops, does when it runs alone. */
  lemma OvertakenPushCounts(s: State) returns (k: nat, s': State)
    requires Inv(s) && (s.prod.LoadWLen? || s.prod.CasWLen?) && HasView(s)
    requires |Abs(s).waiting| + |Abs(s).claimed| < Abs(s).capacity
    ensures k <= 3 && Trace(s, Repeat(StepPush, k), s') && s'.prod == LoadWTail(s.prod.v) && Inv(s')
    ensures s'.sent == s.sent && s'.got == s.got
  {
    hide Inv;
    WriteCounter(s);
    if s.prod.CasWLen? && s.prod.seen != s.wLen {
      var s1 := PushStep(s);
      PushStepInv(s);
      var s2 := PushStep(s1);
      PushStepInv(s1);
      s', k := PushStep(s2), 3;
      PushStepInv(s2);
      Prepend(s2, StepPush, [], s');
      Prepend(s1, StepPush, [StepPush], s');
      Prepend(s, StepPush, [StepPush, StepPush], s');
      assert Repeat(StepPush, 3) == [StepPush] + [StepPush, StepPush];
    } else if s.prod.CasWLen? {
      s', k := PushStep(s), 1;
      PushStepInv(s);
      Prepend(s, StepPush, [], s');
      assert Repeat(StepPush, 1) == [StepPush] + [];
    } else {
      var s1 := PushStep(s);
      PushStepInv(s);
      s', k := PushStep(s1), 2;
      PushStepInv(s1);
      Prepend(s1, StepPush, [], s');
      Prepend(s, StepPush, [StepPush], s');
      assert Repeat(StepPush, 2) == [StepPush] + [StepPush];
    }
  }

  lemma WriteCounter(s: State)
    requires Inv(s) && !Reserved(s.prod)
    ensures HasView(s) && s.wLen == |Abs(s).waiting| + |Abs(s).claimed|
  {
    View(s);
    hide Cyclic, Chain, FlagsExact, Sized, Delivered, ConsumerOk, ProducerOk;
  }
}
