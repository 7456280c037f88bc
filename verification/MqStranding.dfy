/**
A run of the message queue of mq.c in which a message stays behind: `mq_sync_push` unlocks before it signals, and
a timeout can come in between.
*/
module MqStranding {
  import opened Runs
  import opened MessageQueue

  const M1 := Msg(0, 1)
  const M2 := Msg(0, 2)
  const M3 := Msg(0, 3)
  const S1 := Sent(M1, false)
  const S2 := Sent(M2, false)
  const S3 := Sent(M3, false)

  /** Threads wait until they are signalled or time out, whenever that is. */
  ghost predicate TimedNext(q: Queue, q': Queue) {
    exists a :: Enabled(q, a) && (a.Wake? ==> a.t in q.signalled) && q' == Do(q, a)
  }

  /** Messages are shared while a thread is linked as blocked, and nobody has been or is about to be signalled. */
  ghost predicate Stranded(q: Queue) {
    && q.share != [] && q.blocks != [] && q.signalled == {}
    && forall p :: 0 <= p < |q.locals| ==> !q.locals[p].pc.Signalling?
  }

  /** Nothing that a pushing thread does then wakes the blocked thread. */
  lemma StaysStranded(q: Queue, a: Action)
    requires Stranded(q) && Enabled(q, a) && !(a.SyncPop? || a.TimeOut? || a.Wake?)
    ensures Stranded(Do(q, a)) && Do(q, a).blocks == q.blocks
  {
  }

  /**
  What the damage does, in any queue at rest: the next message pushed is stranded, whoever pushes it, if and only if
  the first of several links in `blocks` is that of a thread that no longer waits; the others then wait on.
  */
  lemma StaleLinkStrands(q: Queue, p: nat, body: int)
    requires Enabled(q, Push(p, body, false, true)) && q.share == [] && q.signalled == {}
    requires forall t :: 0 <= t < |q.locals| ==> !q.locals[t].pc.Signalling?
    requires q.blocks != []
    ensures var pushed := Do(q, Push(p, body, false, true));
      && Enabled(pushed, SyncPush(p)) && Enabled(Do(pushed, SyncPush(p)), Signal(p))
      && var q' := Do(Do(pushed, SyncPush(p)), Signal(p));
         && (Stranded(q') <==> !IsWaiting(q, q.blocks[0]) && |q.blocks| >= 2)
         && q'.blocks == q.blocks[1..] && q'.share == q.locals[p].pushQ + [Msg(p, body)]
  {
    var pushed := Do(q, Push(p, body, false, true));
    var shared := Do(pushed, SyncPush(p));
    assert [] + pushed.locals[p].pushQ == pushed.locals[p].pushQ;
    assert shared.locals[p].pc == Signalling(q.blocks[0]);
    assert IsWaiting(shared, q.blocks[0]) == IsWaiting(q, q.blocks[0]);
  }

  lemma Continue(run: seq<Queue>, a: Action, q: Queue) returns (longer: seq<Queue>)
    requires IsRun(Init, TimedNext, run)
    requires var last := run[|run| - 1]; Enabled(last, a) && (a.Wake? ==> a.t in last.signalled) && Do(last, a) == q
    ensures IsRun(Init, TimedNext, longer) && longer[|longer| - 1] == q
  {
    Extend(Init, TimedNext, run, q);
    longer := run + [q];
  }

  /** Three threads: the first pushes, the other two pop, and the second of these never gets anything. */
  function Pusher(sent: seq<Sent>, pushQ: seq<Msg>, pc: Pc): Local {
    Local(pushQ, [], pc, sent != [], sent, [])
  }

  function Popper(popQ: seq<Msg>, history: seq<Event>, pc: Pc): Local {
    Local([], popQ, pc, false, [], history)
  }

  /** What thread 1 does in its two pops, of which the second is told of a message; thread 2 only calls. */
  const CALLED: seq<Event> := NEW_LOCAL.history + [Called(5, false)]
  const TIMED_OUT := CALLED + [Took([M1], true)]
  const GOT_ONE := TIMED_OUT + [Returned(false, [M1])]
  const CALLED_AGAIN := GOT_ONE + [Called(5, false)]
  const TOOK_TWO := CALLED_AGAIN + [Took([M2], false)]
  const GOT_TWO := TOOK_TWO + [Returned(false, [M2])]

  /** Thread 1 blocks, and thread 0 unlinks it with its first message. */
  lemma FirstPush() returns (run: seq<Queue>)
    ensures IsRun(Init, TimedNext, run)
    ensures run[|run| - 1] ==
            Queue(1, [M1], [], {}, [Pusher([S1], [], Signalling(1)), Popper([], CALLED, Waiting(false)), NEW_LOCAL],
                  map[1 := 0], [])
  {
    assert [] + [M1] == [M1] && [] + [S1] == [S1];
    var s0 := Queue(1, [], [], {}, [NEW_LOCAL, NEW_LOCAL, NEW_LOCAL], map[], []);
    var s1 := s0.(locals := [NEW_LOCAL, Popper([], CALLED, Popping(5, false)), NEW_LOCAL]);
    var s2 := s0.(blocks := [1], locals := [NEW_LOCAL, Popper([], CALLED, Waiting(false)), NEW_LOCAL]);
    var s3 := s2.(locals := [Pusher([S1], [M1], Syncing), Popper([], CALLED, Waiting(false)), NEW_LOCAL]);
    var s4 := s3.(share := [M1], blocks := [], promised := map[1 := 0],
                  locals := [Pusher([S1], [], Signalling(1)), Popper([], CALLED, Waiting(false)), NEW_LOCAL]);
    run := [s0];
    run := Continue(run, Pop(1, 5, false), s1);
    run := Continue(run, SyncPop(1), s2);
    run := Continue(run, Push(0, 1, false, false), s3);
    run := Continue(run, SyncPush(0), s4);
  }

  /** Thread 1 times out between being unlinked and being signalled. */
  lemma Overtaken() returns (run: seq<Queue>)
    ensures IsRun(Init, TimedNext, run)
    ensures run[|run| - 1] ==
            Queue(1, [], [], {}, [Pusher([S1], [], Signalling(1)), Popper([], GOT_ONE, Idle), NEW_LOCAL],
                  map[1 := 0], [(1, [M1])])
  {
    assert [] + [M1] == [M1] && [M1][1..] == [];
    run := FirstPush();
    var s5 := run[|run| - 1].(share := [], taken := [(1, [M1])],
                  locals := [Pusher([S1], [], Signalling(1)), Popper([M1], TIMED_OUT, Taking(false)), NEW_LOCAL]);
    var s6 := s5.(locals := [Pusher([S1], [], Signalling(1)), Popper([], GOT_ONE, Idle), NEW_LOCAL]);
    run := Continue(run, TimeOut(1), s5);
    run := Continue(run, Take(1), s6);
  }

  /** Threads 2 and 1 block again, and the late signal marks thread 1, which stays linked. */
  lemma StraySignal() returns (run: seq<Queue>)
    ensures IsRun(Init, TimedNext, run)
    ensures run[|run| - 1] ==
            Queue(1, [], [2, 1], {1},
                  [Pusher([S1], [], Idle), Popper([], CALLED_AGAIN, Waiting(false)),
                   Popper([], CALLED, Waiting(false))],
                  map[], [(1, [M1])])
  {
    run := Overtaken();
    var s6 := run[|run| - 1];
    var p, p' := Pusher([S1], [], Signalling(1)), Pusher([S1], [], Idle);
    var idle, waiting := Popper([], GOT_ONE, Idle), Popper([], CALLED_AGAIN, Waiting(false));
    var popping := Popper([], CALLED_AGAIN, Popping(5, false));
    var w := Popper([], CALLED, Waiting(false));
    run := Continue(run, Pop(2, 5, false), s6.(locals := [p, idle, Popper([], CALLED, Popping(5, false))]));
    run := Continue(run, SyncPop(2), s6.(blocks := [2], locals := [p, idle, w]));
    run := Continue(run, Pop(1, 5, false), s6.(blocks := [2], locals := [p, popping, w]));
    run := Continue(run, SyncPop(1), s6.(blocks := [2, 1], locals := [p, waiting, w]));
    s6 := s6.(blocks := [2, 1], signalled := {1}, promised := map[], locals := [p', waiting, w]);
    run := Continue(run, Signal(0), s6);
  }

  /** The second message unlinks thread 2. */
  lemma SecondPush() returns (run: seq<Queue>)
    ensures IsRun(Init, TimedNext, run)
    ensures run[|run| - 1] ==
            Queue(1, [M2], [1], {1},
                  [Pusher([S1, S2], [], Signalling(2)), Popper([], CALLED_AGAIN, Waiting(false)),
                   Popper([], CALLED, Waiting(false))],
                  map[2 := 0], [(1, [M1])])
  {
    run := StraySignal();
    var s := run[|run| - 1];
    assert [] + [M2] == [M2] && [S1] + [S2] == [S1, S2] && [2, 1][1..] == [1];
    var v, w := Popper([], CALLED_AGAIN, Waiting(false)), Popper([], CALLED, Waiting(false));
    var p := Pusher([S1, S2], [], Signalling(2));
    s := s.(locals := [Pusher([S1, S2], [M2], Syncing), v, w]);
    run := Continue(run, Push(0, 2, false, false), s);
    run := Continue(run, SyncPush(0), s.(share := [M2], blocks := [1], promised := map[2 := 0], locals := [p, v, w]));
  }

  /** Thread 1 takes the second message, for which thread 2 was unlinked, and is done; but it is still linked. */
  lemma StaleLink() returns (run: seq<Queue>)
    ensures IsRun(Init, TimedNext, run)
    ensures run[|run| - 1] ==
            Queue(1, [], [1], {},
                  [Pusher([S1, S2], [], Signalling(2)), Popper([], GOT_TWO, Idle), Popper([], CALLED, Waiting(false))],
                  map[2 := 0], [(1, [M1]), (1, [M2])])
  {
    run := SecondPush();
    var s := run[|run| - 1];
    assert [] + [M2] == [M2] && [M1] + [M2] == [M1, M2] && [M2][1..] == [];
    var p, w := Pusher([S1, S2], [], Signalling(2)), Popper([], CALLED, Waiting(false));
    s := s.(share := [], signalled := {}, taken := [(1, [M1]), (1, [M2])],
            locals := [p, Popper([M2], TOOK_TWO, Taking(false)), w]);
    run := Continue(run, Wake(1), s);
    run := Continue(run, Take(1), s.(locals := [p, Popper([], GOT_TWO, Idle), w]));
  }

  /**
  Without any spurious wakeup, a timeout that overtakes the signal is enough: the next but one message is shared
  and signalled to a thread that has long stopped waiting, while another waits on, linked as blocked.
  */
  lemma OvertakenSignalStrands() returns (run: seq<Queue>)
    ensures IsRun(Init, TimedNext, run) && Stranded(run[|run| - 1])
    ensures run[|run| - 1].share == [M3] && run[|run| - 1].blocks == [2] && IsWaiting(run[|run| - 1], 2)
  {
    run := StaleLink();
    var s := run[|run| - 1];
    assert [] + [M3] == [M3] && [S1, S2] + [S3] == [S1, S2, S3] && [1, 2][1..] == [2] && [1] + [2] == [1, 2];
    var c, w := Popper([], GOT_TWO, Idle), Popper([], CALLED, Waiting(false));
    s := s.(signalled := {2}, promised := map[], locals := [Pusher([S1, S2], [], Idle), c, w]);
    run := Continue(run, Signal(0), s);
    s := s.(signalled := {}, blocks := [1, 2]);
    run := Continue(run, Wake(2), s);
    s := s.(locals := [Pusher([S1, S2, S3], [M3], Syncing), c, w]);
    run := Continue(run, Push(0, 3, false, false), s);
    s := s.(share := [M3], blocks := [2], promised := map[1 := 0],
            locals := [Pusher([S1, S2, S3], [], Signalling(1)), c, w]);
    run := Continue(run, SyncPush(0), s);
    run := Continue(run, Signal(0), s.(promised := map[], locals := [Pusher([S1, S2, S3], [], Idle), c, w]));
  }
}
