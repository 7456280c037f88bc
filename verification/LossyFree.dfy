/**
What freeing an object with a first word that is not null leads to: the allocator counts an object that it does
not have, and the thread crashes in thread_allocator_alloc.
*/
module LossyFree {
  import opened Runs
  import opened Pool
  import opened Arith

  /** Callers free what they hold, whatever they have written into it. */
  ghost predicate AnyNext(s: State, s': State) {
    exists a :: Enabled(s, a) && s' == Do(s, a)
  }

  /** Thread `t` gets `k` objects in a row, and its next allocation crashes as `end` says. */
  predicate CrashesAfter(s: State, t: nat, k: nat, end: AllocResult)
    requires t < |s.caches|
    decreases k
  {
    if k == 0 then !end.Got? && AllocFrom(s.n, s.caches[t], s.central, s.blocks) == end
    else Enabled(s, Alloc(t)) && CrashesAfter(Do(s, Alloc(t)), t, k - 1, end)
  }

  /** The counter says one object more than there is; the last batch is empty if `spare` says so, and no other. */
  ghost predicate Overcounted(c: Cache, spare: bool) {
    && c.freeSize == Total(c.free) + 1
    && (spare ==> c.free != [] && c.free[|c.free| - 1] == [])
    && forall i :: 0 <= i < |c.free| - One(spare) ==> c.free[i] != []
  }

  /** How the first allocation from a cache that has run out ends: on the empty batch, if there is one. */
  function End(spare: bool): AllocResult {
    if spare then AssertFails else NullBatch
  }

  /** A lossy free leaves a cache that is overcounted by one, with an empty batch if it had to start one. */
  lemma LossOvercounts(n: nat, c: Cache, central: seq<Batch>, obj: Obj)
    requires n >= 1 && CacheOk(n, c)
    ensures Overcounted(DeallocTo(n, c, central, obj, false).0, LastWithRoom(n, c.free, |c.free|) == -1)
    ensures Total(DeallocTo(n, c, central, obj, false).0.free) == c.freeSize
  {
    var (room, i) := MakeRoom(n, c);
    RoomFor(n, c, obj);
    assert room.free[i := room.free[i]] == room.free;
    hide Total;
  }

  lemma TotalFirst(free: seq<Batch>)
    requires free != [] && free[0] != []
    ensures Total(RemoveAt(free, 0)) == Total(free) - |free[0]|
    ensures Total(free[0 := free[0][1..]]) == Total(free) - 1
  {
    assert RemoveAt(free, 0) == free[1..] == free[0 := free[0][1..]][1..];
  }

  /** An allocation from such a cache takes one of its objects or, when it has none, crashes. */
  lemma TakeOvercounted(n: nat, c: Cache, central: seq<Batch>, blocks: nat, spare: bool)
    requires Overcounted(c, spare)
    ensures var r := AllocFrom(n, c, central, blocks);
      if Total(c.free) == 0 then r == End(spare)
      else r.Got? && Overcounted(r.cache, spare) && Total(r.cache.free) == Total(c.free) - 1
  {
    if c.free != [] {
      if c.free[0] != [] {
        TotalFirst(c.free);
      } else {
        assert c.free[1..] == [];
      }
    }
  }

  lemma {:induction false} OvercountedCrashes(s: State, t: nat, spare: bool)
    requires t < |s.caches| && Overcounted(s.caches[t], spare)
    ensures CrashesAfter(s, t, Total(s.caches[t].free), End(spare))
    decreases Total(s.caches[t].free)
  {
    TakeOvercounted(s.n, s.caches[t], s.central, s.blocks, spare);
    hide AllocFrom, Total, Overcounted;
    if Total(s.caches[t].free) > 0 {
      OvercountedCrashes(Do(s, Alloc(t)), t, spare);
    }
  }

  lemma {:induction false} OrderedNeverCrashes(s: State, t: nat, k: nat, end: AllocResult)
    requires Inv(s) && t < |s.caches|
    ensures !CrashesAfter(s, t, k, end)
    decreases k
  {
    hide Inv, AllocFrom;
    AllocGivesFreshObject(s, t);
    if k > 0 {
      assert |Do(s, Alloc(t)).caches| == |s.caches|;
      hide Do;
      AllocStep(s, t);
      OrderedNeverCrashes(Do(s, Alloc(t)), t, k - 1, end);
    }
  }

  /**
  After a lossy free in an ordered pool the thread gets just the objects it had cached before, and its next allocation
  crashes: in the assertion if all its batches were full, so that the free had to start one, and otherwise by reading
  through the null that the front of its empty free list is.
  */
  lemma LossyFreeCrashes(s: State, t: nat, obj: Obj)
    requires Inv(s) && Enabled(s, Dealloc(t, obj, false))
    ensures var c := s.caches[t];
      CrashesAfter(Do(s, Dealloc(t, obj, false)), t, c.freeSize,
                   if LastWithRoom(s.n, c.free, |c.free|) == -1 then AssertFails else NullBatch)
  {
    var c := s.caches[t];
    LossOvercounts(s.n, c, s.central, obj);
    hide DeallocTo, Total, Overcounted, LastWithRoom;
    OvercountedCrashes(Do(s, Dealloc(t, obj, false)), t, LastWithRoom(s.n, c.free, |c.free|) == -1);
  }

  /** A free can be followed by a crashing allocation if and only if the first word of the object is not null. */
  lemma FreeCrashesIffLossy(s: State, t: nat, obj: Obj, firstWordNull: bool)
    requires Inv(s) && Enabled(s, Dealloc(t, obj, firstWordNull))
    ensures (exists k: nat, end :: CrashesAfter(Do(s, Dealloc(t, obj, firstWordNull)), t, k, end)) <==> !firstWordNull
  {
    var s' := Do(s, Dealloc(t, obj, firstWordNull));
    if firstWordNull {
      DeallocStep(s, t, obj);
      forall k: nat, end ensures !CrashesAfter(s', t, k, end) {
        OrderedNeverCrashes(s', t, k, end);
      }
    } else {
      LossyFreeCrashes(s, t, obj);
    }
  }

  // ---------- the shortest runs ----------

  lemma FirstAlloc()
    ensures AllocFrom(1, EMPTY_CACHE, [], 0) == Got(Obj(0, 0), Cache([], [[]], 0), [], 1)
    ensures AllocFrom(1, DeallocTo(1, Cache([], [[]], 0), [], Obj(0, 0), false).0, [], 1) == AssertFails
  {
    var o := Obj(0, 0);
    assert Carve(0, 1) == [o];
    var none: Batch, batches: seq<Batch> := [], [];
    assert batches + [[o]] == [[o]] && RemoveAt([[o]], 0) == batches && [o][1..] == none && batches + [none] == [none];
  }

  /** With batches of one object, an allocation and a lossy free are enough for the failing assertion. */
  lemma FirstFailedAssertion() returns (run: seq<State>)
    ensures IsRun(Init, AnyNext, run)
    ensures var s := run[|run| - 1];
      |run| == 4 && |s.caches| == 1 && AllocFrom(s.n, s.caches[0], s.central, s.blocks) == AssertFails
  {
    var s0 := State(1, 0, [], [], {}, 0);
    var s1 := State(1, 0, [], [EMPTY_CACHE], {}, 0);
    var s2 := State(1, 1, [], [Cache([], [[]], 0)], {Obj(0, 0)}, 1);
    assert Do(s0, Join) == s1;
    FirstAlloc();
    hide AllocFrom;
    assert Enabled(s1, Alloc(0)) && Do(s1, Alloc(0)) == s2;
    var s3 := Do(s2, Dealloc(0, Obj(0, 0), false));
    run := [s0, s1, s2, s3];
  }

  lemma SecondAlloc()
    ensures AllocFrom(2, EMPTY_CACHE, [], 0) == Got(Obj(0, 0), Cache([[Obj(0, 1)]], [], 1), [], 1)
    ensures DeallocTo(2, Cache([[Obj(0, 1)]], [], 1), [], Obj(0, 0), false) == (Cache([[Obj(0, 1)]], [], 2), [])
    ensures AllocFrom(2, Cache([[Obj(0, 1)]], [], 2), [], 1) == Got(Obj(0, 1), Cache([], [[]], 1), [], 1)
    ensures AllocFrom(2, Cache([], [[]], 1), [], 1) == NullBatch
  {
    var o, p := Obj(0, 0), Obj(0, 1);
    var none: Batch, batches: seq<Batch> := [], [];
    assert Carve(0, 2) == [o, p];
    assert batches + [[o, p]] == [[o, p]] && [o, p][1..] == [p] && [[o, p]][0 := [p]] == [[p]];
    assert RemoveAt([[p]], 0) == batches && [p][1..] == none && batches + [none] == [none];
    assert [[p]][0 := [p]] == [[p]];
    hide Carve;
  }

  const AFTER_ALLOC := State(2, 1, [], [Cache([[Obj(0, 1)]], [], 1)], {Obj(0, 0)}, 1)
  const AFTER_FREE := State(2, 1, [], [Cache([[Obj(0, 1)]], [], 2)], {}, 1)
  const AFTER_SECOND := State(2, 1, [], [Cache([], [[]], 1)], {Obj(0, 1)}, 1)

  lemma SecondSteps()
    ensures var a := Alloc(0); var s := State(2, 0, [], [EMPTY_CACHE], {}, 0); Enabled(s, a) && Do(s, a) == AFTER_ALLOC
    ensures var a := Dealloc(0, Obj(0, 0), false); Enabled(AFTER_ALLOC, a) && Do(AFTER_ALLOC, a) == AFTER_FREE
    ensures Enabled(AFTER_FREE, Alloc(0)) && Do(AFTER_FREE, Alloc(0)) == AFTER_SECOND
  {
    SecondAlloc();
    hide AllocFrom, DeallocTo;
  }

  /** With batches of two objects, the allocation after the next reads through null. */
  lemma FirstNullBatch() returns (run: seq<State>)
    ensures IsRun(Init, AnyNext, run)
    ensures var s := run[|run| - 1];
      |run| == 5 && |s.caches| == 1 && AllocFrom(s.n, s.caches[0], s.central, s.blocks) == NullBatch
  {
    var s0, s1 := State(2, 0, [], [], {}, 0), State(2, 0, [], [EMPTY_CACHE], {}, 0);
    assert Do(s0, Join) == s1;
    assert AnyNext(s0, s1);
    SecondSteps();
    SecondAlloc();
    hide AllocFrom, DeallocTo, Do, Enabled;
    run := [s0, s1, AFTER_ALLOC, AFTER_FREE, AFTER_SECOND];
  }
}
