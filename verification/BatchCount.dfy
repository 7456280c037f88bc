/**
How many batches there are, spare ones included: what a call adds, what bounds them when one thread uses the allocator,
and that nothing does when one thread allocates what another frees.
*/
module BatchCount {
  import opened Runs
  import opened Arith
  import opened Pool

  function InCache(c: Cache): nat {
    |c.free| + |c.empty|
  }

  function InAllCaches(caches: seq<Cache>): nat {
    if caches == [] then 0 else InCache(caches[0]) + InAllCaches(caches[1..])
  }

  /** The batches of all caches and of the central list. */
  function Batches(s: State): nat {
    |s.central| + InAllCaches(s.caches)
  }

  /** A call must make a batch: there is no spare one, and nothing to take objects from or no room to put one. */
  predicate NeedsBatch(s: State, a: Action)
    requires Enabled(s, a)
  {
    match a
    case Join => false
    case Alloc(k) => s.caches[k].empty == [] && s.caches[k].free == [] && s.central == []
    case Dealloc(k, _, _) =>
      s.caches[k].empty == [] && forall i :: 0 <= i < |s.caches[k].free| ==> |s.caches[k].free[i]| >= s.n
  }

  lemma {:induction false} InAllUpdate(caches: seq<Cache>, k: nat, c: Cache)
    requires k < |caches|
    ensures InAllCaches(caches[k := c]) + InCache(caches[k]) == InAllCaches(caches) + InCache(c)
  {
    if k > 0 {
      InAllUpdate(caches[1..], k - 1, c);
      assert caches[k := c][1..] == caches[1..][k - 1 := c];
    } else {
      assert caches[k := c][1..] == caches[1..];
    }
  }

  lemma {:induction false} InAllAppend(caches: seq<Cache>, c: Cache)
    ensures InAllCaches(caches + [c]) == InAllCaches(caches) + InCache(c)
  {
    if caches == [] {
      assert [c][1..] == [];
    } else {
      InAllAppend(caches[1..], c);
      assert (caches + [c])[1..] == caches[1..] + [c];
    }
  }

  lemma AllocBatches(n: nat, c: Cache, central: seq<Batch>, blocks: nat)
    requires CacheOk(n, c) && AllocFrom(n, c, central, blocks).Got?
    ensures var r := AllocFrom(n, c, central, blocks);
      InCache(r.cache) + |r.central| == InCache(c) + |central| + One(c.empty == [] && c.free == [] && central == [])
  {
    EmptyCache(n, c);
    hide CacheOk, Carve;
  }

  lemma DeallocBatches(n: nat, c: Cache, central: seq<Batch>, obj: Obj, firstWordNull: bool)
    ensures var (cache, central') := DeallocTo(n, c, central, obj, firstWordNull);
      InCache(cache) + |central'| == InCache(c) + |central| +
        One(c.empty == [] && forall i :: 0 <= i < |c.free| ==> |c.free[i]| >= n)
  {
  }

  /** Over every call: one more batch if and only if the calling thread needs one, and otherwise as many as before. */
  lemma OneMoreIffNeeded(s: State, a: Action)
    requires Inv(s) && Enabled(s, a)
    ensures Batches(Do(s, a)) == Batches(s) + One(NeedsBatch(s, a))
  {
    match a
    case Join => InAllAppend(s.caches, EMPTY_CACHE);
    case Alloc(k) =>
      AllocBatches(s.n, s.caches[k], s.central, s.blocks);
      InAllUpdate(s.caches, k, Do(s, a).caches[k]);
      hide AllocFrom, CacheOk, InAllCaches, CentralOk, Partitioned, Balanced, Bounded;
    case Dealloc(k, obj, firstWordNull) =>
      DeallocBatches(s.n, s.caches[k], s.central, obj, firstWordNull);
      InAllUpdate(s.caches, k, Do(s, a).caches[k]);
      hide DeallocTo, Inv, InAllCaches;
  }

  // ---------- one thread ----------

  lemma OneCache(c: Cache)
    ensures InAllCaches([c]) == InCache(c) && CachedCount([c]) == c.freeSize
  {
    assert [c][1..] == [];
  }

  /** A thread that needs a batch to free into has fewer than there are blocks. */
  lemma RoomForOne(s: State, a: Action)
    requires Inv(s) && |s.caches| == 1 && Enabled(s, a) && a.Dealloc? && NeedsBatch(s, a)
    ensures Batches(s) < s.blocks
  {
    var c := s.caches[0];
    assert s.caches == [c];
    OneCache(c);
    FewBatches(c.free);
    assert CacheOk(s.n, c) && |c.free| <= 1 && c.freeSize == s.n * |c.free|;
    assert |s.live| >= 1 by { assert a.obj in s.live && |s.live - {a.obj}| == |s.live| - 1; }
    assert Batches(s) == |s.central| + |c.free| && CachedCount(s.caches) == c.freeSize;
    hide Partitioned, CachesOk, CentralOk, Bounded, Total, CacheOk, CachedCount, Batches;
    FewerFull(s.n, |s.central|, |c.free|, s.blocks, |s.live|);
  }

  lemma FewerFull(n: nat, central: nat, free: nat, blocks: nat, live: nat)
    requires live > 0 && live + n * free + n * central == n * blocks
    ensures central + free < blocks
  {
    assert (central + free) * n == n * free + n * central;
    if central + free >= blocks {
      MulOrder(n, blocks, central + free);
    }
  }

  ghost predicate OneThreadInv(s: State) {
    Inv(s) && (|s.caches| <= 1 ==> Batches(s) <= s.blocks)
  }

  lemma OneThreadStep(s: State, a: Action)
    requires OneThreadInv(s) && Enabled(s, a) && (a.Dealloc? ==> a.firstWordNull)
    ensures OneThreadInv(Do(s, a))
  {
    StepInv(s, a);
    OneMoreIffNeeded(s, a);
    var s' := Do(s, a);
    if |s'.caches| == 1 && NeedsBatch(s, a) {
      if a.Dealloc? {
        RoomForOne(s, a);
        hide DeallocTo, Inv, Batches;
      } else {
        assert s.caches[1..] == [];
        AllocCounts(s, 0);
        hide AllocFrom, CachedCount;
      }
    }
    hide Inv, Do;
  }

  /** With one thread there are never more batches than blocks, and so than the peak demand fills. */
  lemma OneThreadBatches(run: seq<State>, i: nat)
    requires IsRun(Init, Next, run) && i < |run| && |run[i].caches| == 1
    ensures var s := run[i]; s.n >= 1 && Batches(s) <= s.blocks == (s.peak + s.n - 1) / s.n
  {
    assert run[i].n >= 1 by { RunInv(run); }
    hide Inv;
    forall s | Init(s) ensures OneThreadInv(s) {
      RunInv([s]);
      assert Inv([s][0]);
    }
    forall s, s' | OneThreadInv(s) && Next(s, s') ensures OneThreadInv(s') {
      var a :| Enabled(s, a) && (a.Dealloc? ==> a.firstWordNull) && s' == Do(s, a);
      OneThreadStep(s, a);
    }
    Invariance(Init, Next, OneThreadInv, run);
    OneThreadCarvesCeiling(run[i]);
  }

  // ---------- a thread that allocates and one that frees ----------

  /** What every object that the second thread frees adds to. */
  function Progress(s: State): int
    requires |s.caches| == 2
  {
    s.n * (|s.central| + InCache(s.caches[0])) + s.caches[1].freeSize
  }

  /** A run of two threads with nothing handed out, and never more than one object. */
  ghost predicate Passing(run: seq<State>, n: nat, passed: nat) {
    && IsRun(Init, Next, run)
    && var s := run[|run| - 1];
       Inv(s) && s.n == n && |s.caches| == 2 && s.live == {} && s.peak <= 1 && Progress(s) >= passed
  }

  /** The first thread allocates, and there are never fewer batches for it. */
  lemma AllocCall(s: State) returns (obj: Obj)
    requires Inv(s) && |s.caches| == 2 && s.live == {} && s.peak <= 1
    ensures Enabled(s, Alloc(0))
    ensures var s' := Do(s, Alloc(0));
      && s'.n == s.n && |s'.caches| == 2 && s'.caches[1] == s.caches[1] && s'.live == {obj} && s'.peak <= 1
      && |s'.central| + InCache(s'.caches[0]) >= |s.central| + InCache(s.caches[0])
  {
    AllocGivesFreshObject(s, 0);
    AllocBatches(s.n, s.caches[0], s.central, s.blocks);
    hide Inv, AllocFrom, CacheOk, InCache;
    obj := AllocFrom(s.n, s.caches[0], s.central, s.blocks).obj;
  }

  lemma AllocProgress(s: State) returns (obj: Obj)
    requires Inv(s) && |s.caches| == 2 && s.live == {} && s.peak <= 1
    ensures Enabled(s, Alloc(0))
    ensures var s' := Do(s, Alloc(0));
      && Inv(s') && s'.n == s.n && |s'.caches| == 2 && s'.live == {obj} && s'.peak <= 1
      && Progress(s') >= Progress(s)
  {
    hide Inv, Do, Enabled, InCache;
    obj := AllocCall(s);
    AllocStep(s, 0);
    var s' := Do(s, Alloc(0));
    MulOrder(s.n, |s.central| + InCache(s.caches[0]), |s'.central| + InCache(s'.caches[0]));
  }

  /** The second thread frees: one more object for it, or one full batch more in the central list. */
  lemma FreeProgress(s: State, obj: Obj)
    requires Inv(s) && |s.caches| == 2 && s.live == {obj} && s.peak <= 1
    ensures Enabled(s, Dealloc(1, obj, true))
    ensures var s' := Do(s, Dealloc(1, obj, true));
      && Inv(s') && s'.n == s.n && |s'.caches| == 2 && s'.live == {} && s'.peak <= 1
      && Progress(s') == Progress(s) + 1
  {
    DeallocStep(s, 1, obj);
    DeallocKeeps(s.n, s.caches[1], s.central, obj, obj);
    hide Inv, DeallocTo, CacheOk, CentralOk, InBatches, InCache;
    var s' := Do(s, Dealloc(1, obj, true));
    var k := |s.central| + InCache(s.caches[0]);
    assert s.n * (k + 1) == s.n * k + s.n;
  }

  lemma PassOne(run: seq<State>, n: nat, passed: nat) returns (longer: seq<State>)
    requires Passing(run, n, passed)
    ensures Passing(longer, n, passed + 1)
  {
    hide Inv, Do, Enabled, Progress;
    var s := run[|run| - 1];
    var obj := AllocProgress(s);
    var s1 := Do(s, Alloc(0));
    FreeProgress(s1, obj);
    var s2 := Do(s1, Dealloc(1, obj, true));
    Extend(Init, Next, run, s1);
    Extend(Init, Next, run + [s1], s2);
    longer := run + [s1] + [s2];
  }

  lemma TwoThreads(n: nat) returns (run: seq<State>)
    requires n >= 1
    ensures Passing(run, n, 0)
  {
    var s0 := State(n, 0, [], [], {}, 0);
    var s1 := State(n, 0, [], [EMPTY_CACHE], {}, 0);
    var s2 := State(n, 0, [], [EMPTY_CACHE, EMPTY_CACHE], {}, 0);
    assert Do(s0, Join) == s1 && Do(s1, Join) == s2;
    assert Enabled(s0, Join) && Enabled(s1, Join);
    run := [s0, s1, s2];
    RunInv(run);
  }

  /**
  When one thread allocates what another frees, batches pile up as spare ones of the first, which only ever takes full
  ones from the central list: with one object out at a time, there is no bound on their number.
  */
  lemma BatchesUnbounded(n: nat, many: nat) returns (run: seq<State>)
    requires n >= 1
    ensures IsRun(Init, Next, run)
    ensures var s := run[|run| - 1]; s.n == n && |s.caches| == 2 && s.peak <= 1 && Batches(s) >= many
  {
    run := TwoThreads(n);
    for passed := 0 to n * many
      invariant Passing(run, n, passed)
    {
      run := PassOne(run, n, passed);
    }
    EnoughBatches(run[|run| - 1], many);
    hide Inv;
  }

  lemma EnoughBatches(s: State, many: nat)
    requires Inv(s) && |s.caches| == 2 && Progress(s) >= s.n * many
    ensures Batches(s) >= many
  {
    var c, c1 := s.caches[0], s.caches[1];
    assert CacheOk(s.n, c1);
    FewBatches(c1.free);
    assert s.caches[1..] == [c1];
    OneCache(c1);
    assert Batches(s) >= |s.central| + InCache(c) + |c1.free|;
    assert c1.freeSize <= s.n * |c1.free|;
    hide Inv, CacheOk, Batches, InCache, Total;
    Enough(s.n, |s.central| + InCache(c), |c1.free|, many, c1.freeSize);
  }

  lemma Enough(n: nat, k: nat, free: nat, many: nat, freeSize: int)
    requires n >= 1 && freeSize <= n * free && n * k + freeSize >= n * many
    ensures k + free >= many
  {
    assert (k + free + 1) * n == n * k + n * free + n;
    if k + free < many {
      MulOrder(n, k + free + 1, many);
    }
  }
}
