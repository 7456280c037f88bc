/**
The bound on carved memory in module Pool is the best possible: for every batch size and every number of threads there
is a run that attains it. One thread allocates what all others free, until their caches can take no more.
*/
module SharpBound {
  import opened Runs
  import opened Pool

  /** A run of that many threads with nothing in the central list. */
  ghost predicate Running(run: seq<State>, n: nat, threads: nat) {
    && IsRun(Init, Next, run)
    && var s := run[|run| - 1]; Inv(s) && s.n == n && s.central == [] && |s.caches| == threads
  }

  /** The other caches are as full as they can be below `t`, and empty behind; cache `t` has `k` objects. */
  ghost predicate Filled(s: State, t: nat, k: int) {
    forall i :: 1 <= i < |s.caches| ==>
      s.caches[i].freeSize == if i < t then 2 * s.n - 1 else if i == t then k else 0
  }

  lemma Prolong(run: seq<State>, n: nat, threads: nat, a: Action, s: State)
    requires Running(run, n, threads) && Enabled(run[|run| - 1], a) && (a.Dealloc? ==> a.firstWordNull)
    requires s == Do(run[|run| - 1], a) && s.n == n && s.central == [] && |s.caches| == threads
    ensures Running(run + [s], n, threads)
  {
    StepInv(run[|run| - 1], a);
    hide Inv, Do, Enabled;
    Extend(Init, Next, run, s);
  }

  lemma AllocEffect(s: State, t: nat) returns (obj: Obj)
    requires Inv(s) && s.central == [] && t < |s.caches|
    ensures Enabled(s, Alloc(t))
    ensures var s', k := Do(s, Alloc(t)), s.caches[t].freeSize;
      && s'.central == [] && s'.n == s.n && |s'.caches| == |s.caches|
      && (forall i :: 0 <= i < |s.caches| && i != t ==> s'.caches[i] == s.caches[i])
      && s'.caches[t].freeSize == (if k == 0 then s.n - 1 else k - 1)
      && obj !in s.live && s'.live == s.live + {obj}
      && s'.peak == (if s.peak < |s.live| + 1 then |s.live| + 1 else s.peak)
  {
    AllocGivesFreshObject(s, t);
    AllocCounts(s, t);
    var r := AllocFrom(s.n, s.caches[t], s.central, s.blocks);
    AllocKeeps(s.n, s.caches[t], s.central, s.blocks, r.obj);
    obj := r.obj;
    hide Inv, AllocFrom, InBatches, CacheOk, CentralOk, CachesOk, CachedCount;
  }

  lemma FreeEffect(s: State, t: nat, obj: Obj)
    requires Inv(s) && s.central == [] && t < |s.caches| && obj in s.live && s.caches[t].freeSize + 1 < 2 * s.n
    ensures Enabled(s, Dealloc(t, obj, true))
    ensures var s' := Do(s, Dealloc(t, obj, true));
      && s'.central == [] && s'.n == s.n && |s'.caches| == |s.caches|
      && (forall i :: 0 <= i < |s.caches| && i != t ==> s'.caches[i] == s.caches[i])
      && s'.caches[t].freeSize == s.caches[t].freeSize + 1
      && s'.live == s.live - {obj} && s'.peak == s.peak
  {
    var c := s.caches[t];
    hide MakeRoom;
    assert DeallocTo(s.n, c, s.central, obj, true).1 == [];
    assert DeallocTo(s.n, c, s.central, obj, true).0.freeSize == c.freeSize + 1;
    hide Inv, DeallocTo;
  }

  /** The first thread allocates an object, and thread `t` frees it. */
  lemma PassObject(run: seq<State>, n: nat, threads: nat, t: nat, k: nat) returns (longer: seq<State>)
    requires Running(run, n, threads) && 1 <= t < threads && k + 1 < 2 * n
    requires var s := run[|run| - 1]; Filled(s, t, k) && s.live == {} && s.peak <= 1
    ensures Running(longer, n, threads)
    ensures var s := longer[|longer| - 1]; Filled(s, t, k + 1) && s.live == {} && s.peak <= 1
  {
    hide Inv, Do, Enabled;
    var s := run[|run| - 1];
    var obj := AllocEffect(s, 0);
    var s1 := Do(s, Alloc(0));
    Prolong(run, n, threads, Alloc(0), s1);
    var run1 := run + [s1];
    FreeEffect(s1, t, obj);
    var s2 := Do(s1, Dealloc(t, obj, true));
    Prolong(run1, n, threads, Dealloc(t, obj, true), s2);
    longer := run1 + [s2];
  }

  lemma FillOne(run: seq<State>, n: nat, threads: nat, t: nat) returns (longer: seq<State>)
    requires Running(run, n, threads) && 1 <= t < threads && n >= 1
    requires var s := run[|run| - 1]; Filled(s, t, 0) && s.live == {} && s.peak <= 1
    ensures Running(longer, n, threads)
    ensures var s := longer[|longer| - 1]; Filled(s, t + 1, 0) && s.live == {} && s.peak <= 1
  {
    longer := run;
    var k := 0;
    while k < 2 * n - 1
      invariant 0 <= k <= 2 * n - 1 && Running(longer, n, threads)
      invariant var s := longer[|longer| - 1]; Filled(s, t, k) && s.live == {} && s.peak <= 1
    {
      longer := PassObject(longer, n, threads, t, k);
      k := k + 1;
    }
    hide Inv;
  }

  lemma Threads(n: nat, threads: nat) returns (run: seq<State>)
    requires n >= 1
    ensures Running(run, n, threads)
    ensures var s := run[|run| - 1]; Filled(s, 1, 0) && s.live == {} && s.peak <= 1
  {
    if threads == 0 {
      run := [State(n, 0, [], [], {}, 0)];
    } else {
      var run' := Threads(n, threads - 1);
      var s := run'[|run'| - 1];
      StepInv(s, Join);
      run := run' + [Do(s, Join)];
      Extend(Init, Next, run', Do(s, Join));
    }
  }

  /** Everything that the first thread has cached is allocated, and one object of a new block. */
  lemma Drain(run: seq<State>, n: nat, threads: nat) returns (longer: seq<State>)
    requires Running(run, n, threads) && threads >= 1
    requires var s := run[|run| - 1]; Filled(s, threads, 0) && s.peak <= 1
    ensures Running(longer, n, threads)
    ensures var s := longer[|longer| - 1];
      Filled(s, threads, 0) && s.caches[0].freeSize == n - 1 && s.peak == |s.live| >= 1
  {
    longer := run;
    var last := false;
    while !last
      invariant Running(longer, n, threads)
      invariant var s := longer[|longer| - 1]; Filled(s, threads, 0) && (s.peak <= 1 || s.peak <= |s.live|)
      invariant var s := longer[|longer| - 1];
        last ==> s.caches[0].freeSize == n - 1 && s.peak == |s.live| >= 1
      decreases !last, longer[|longer| - 1].caches[0].freeSize
    {
      var s := longer[|longer| - 1];
      assert CacheOk(n, s.caches[0]);
      last := s.caches[0].freeSize == 0;
      hide Inv, Do, Enabled, CacheOk;
      var obj := AllocEffect(s, 0);
      Prolong(longer, n, threads, Alloc(0), Do(s, Alloc(0)));
      longer := longer + [Do(s, Alloc(0))];
    }
    hide Inv;
  }

  lemma {:induction false} CachedSum(caches: seq<Cache>, k: int)
    requires forall i :: 0 <= i < |caches| ==> caches[i].freeSize == k
    ensures CachedCount(caches) == |caches| * k
  {
    if caches != [] {
      CachedSum(caches[1..], k);
      assert |caches| * k == (|caches| - 1) * k + k;
    }
  }

  /** For every batch size and every number of threads, the bound of `MemoryBound` is attained. */
  lemma BoundAttained(n: nat, threads: nat) returns (run: seq<State>)
    requires n >= 1 && threads >= 1
    ensures IsRun(Init, Next, run)
    ensures var s := run[|run| - 1];
      && s.n == n && |s.caches| == threads && s.blocks > 0
      && s.n * s.blocks == s.peak + (|s.caches| - 1) * (2 * s.n - 1) + s.n - 1
  {
    run := Threads(n, threads);
    for t := 1 to threads
      invariant Running(run, n, threads)
      invariant var s := run[|run| - 1]; Filled(s, t, 0) && s.live == {} && s.peak <= 1
    {
      run := FillOne(run, n, threads, t);
    }
    run := Drain(run, n, threads);
    var s := run[|run| - 1];
    CachedSum(s.caches[1..], 2 * n - 1);
    MemoryBound(run, |run| - 1);
    hide Inv;
  }
}
