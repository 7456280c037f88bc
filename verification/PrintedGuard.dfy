/** With the test of `r_len` as it is printed in lockfreeQueue.c, a pop answers "empty" although a unit is waiting. */
module PrintedGuard {
  import opened Runs
  import opened SpscQueue

  const UNIT: Payload := [7]
  const BLANK: Payload := [0]

  /** The queue that `lock_fQueue_init` makes for one unit of one byte. */
  const EMPTY := State(Printed, 1, 1, LIST_END, LIST_END, 0, 0, 0, [LIST_END, 0, 0], [false, false, false],
                       [BLANK, BLANK, BLANK], Idle, Resting, [], [], [LIST_END])

  lemma Continue(run: seq<State>, a: Action, s: State) returns (longer: seq<State>)
    requires IsRun(Init, Next, run)
    requires Enabled(run[|run| - 1], a) && Do(run[|run| - 1], a) == s
    ensures IsRun(Init, Next, longer) && longer == run + [s]
  {
    Extend(Init, Next, run, s);
    longer := run + [s];
  }

  /** The push takes slot 0. */
  lemma TakesSlot() returns (run: seq<State>)
    ensures IsRun(Init, Next, run)
    ensures run[|run| - 1] == EMPTY.(wLen := 1, wTail := 1, slots := [LIST_END, 0], prod := TestUseFlag(UNIT, 0))
  {
    var q := InitQueue(Printed, 1, 1).queue;
    assert q.next == EMPTY.next && q.useFlag == EMPTY.useFlag;
    assert q.data == EMPTY.data by {
      assert q.data[0] == BLANK && q.data[1] == BLANK && q.data[2] == BLANK;
    }
    assert InitQueue(Printed, 1, 1) == Ready(EMPTY);
    run := [EMPTY];
    run := Continue(run, CallPush(UNIT), EMPTY.(prod := LoadWLen(UNIT)));
    run := Continue(run, StepPush, EMPTY.(prod := CasWLen(UNIT, 0)));
    run := Continue(run, StepPush, EMPTY.(wLen := 1, prod := LoadWTail(UNIT)));
    run := Continue(run, StepPush, EMPTY.(wLen := 1, prod := CasWTail(UNIT, 0)));
    run := Continue(run, StepPush, EMPTY.(wLen := 1, wTail := 1, slots := [LIST_END, 0], prod := TestUseFlag(UNIT, 0)));
  }

  /** It fills the slot. */
  lemma FillsSlot() returns (run: seq<State>)
    ensures IsRun(Init, Next, run)
    ensures run[|run| - 1] ==
            EMPTY.(wLen := 1, wTail := 1, slots := [LIST_END, 0], next := [LIST_END, LIST_END, 0],
                   useFlag := [false, true, false], data := [BLANK, UNIT, BLANK], prod := LoadPTail(UNIT, 0, 0))
  {
    run := TakesSlot();
    var s := run[|run| - 1];
    run := Continue(run, StepPush, s.(prod := ClearNext(UNIT, 0)));
    s := s.(next := [LIST_END, LIST_END, 0]);
    run := Continue(run, StepPush, s.(prod := SetUseFlag(UNIT, 0)));
    s := s.(useFlag := [false, true, false]);
    run := Continue(run, StepPush, s.(prod := CopyIn(UNIT, 0, 0)));
    s := s.(data := [BLANK, UNIT, BLANK]);
    assert BLANK[0 := UNIT[0]] == UNIT;
    run := Continue(run, StepPush, s.(prod := CopyIn(UNIT, 0, 1)));
    run := Continue(run, StepPush, s.(prod := LoadPTail(UNIT, 0, 0)));
  }

  /** It links the slot and counts it: the push has succeeded. */
  lemma Pushed() returns (run: seq<State>)
    ensures IsRun(Init, Next, run)
    ensures var s := run[|run| - 1];
      s.guard.Printed? && s.prod.Idle? && s.cons.Resting? && s.sent == [UNIT] && s.got == [] && s.rLen == 1
  {
    run := FillsSlot();
    var s := run[|run| - 1];
    run := Continue(run, StepPush, s.(prod := CasNext(UNIT, 0, 1, LIST_END, LIST_END)));
    s := s.(next := [0, LIST_END, 0]);
    run := Continue(run, StepPush, s.(prod := CasPTail(UNIT, 0, LIST_END)));
    s := s.(pTail := 0);
    run := Continue(run, StepPush, s.(prod := AddRLen(UNIT, 0)));
    run := Continue(run, StepPush, s.(rLen := 1, sent := [UNIT], prod := Idle));
  }

  /** A pop by itself after a successful push: it answers -1, and the unit is still waiting. */
  lemma RefusesWaitingUnit() returns (run: seq<State>)
    ensures IsRun(Init, Next, run) && |run| >= 2
    ensures var before, after := run[|run| - 2], run[|run| - 1];
      && before.cons.LoadRLen? && PopAnswersEmpty(before) && after == PopStep(before)
      && HasView(after) && Abs(after).waiting == [UNIT] && after.cons.Resting? && after.got == []
  {
    run := Pushed();
    var s := run[|run| - 1];
    run := Continue(run, CallPop, s.(cons := LoadRLen));
    run := Continue(run, StepPop, s);
  }
}
