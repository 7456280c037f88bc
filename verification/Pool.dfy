/**
What the thread-caching allocator of block_obj_allocator.c does to its objects, as functions on values.

Objects of one size are carved out of blocks and travel in batches (`mem_list`) between per-thread caches and
the central list. One `alloc` or `dealloc` by one thread is one step: it touches the central list at most once,
under the lock.
*/
module Pool {
  import opened Runs
  import opened Arith

  /** An object is known by its block and its place in it. */
  datatype Obj = Obj(block: nat, index: nat)

  type Batch = seq<Obj>

  /** One thread's `_free_list`, `_empty_list` and `free_size`. */
  datatype Cache = Cache(free: seq<Batch>, empty: seq<Batch>, freeSize: int)

  /**
  `n` is the batch size `init_size`, `caches` the registered thread caches. `live` and `peak` are history: the
  objects handed out, and how many there were at most so far.
  */
  datatype State = State(n: nat, blocks: nat, central: seq<Batch>, caches: seq<Cache>, live: set<Obj>, peak: nat)

  const EMPTY_CACHE := Cache([], [], 0)

  /** What `init_mem_block` carves out of a fresh block. */
  function Carve(block: nat, n: nat): Batch {
    seq(n, i requires 0 <= i => Obj(block, i))
  }

  function RemoveAt<T>(s: seq<T>, i: nat): seq<T>
    requires i < |s|
  {
    s[..i] + s[i + 1..]
  }

  datatype Refill = Refill(batch: Batch, empty: seq<Batch>, central: seq<Batch>, blocks: nat)

  /** Where a batch comes from when a cache is out of objects: the central list, or a block for a spare batch. */
  function GetBatch(n: nat, empty: seq<Batch>, central: seq<Batch>, blocks: nat): Refill {
    if central != [] then Refill(central[0], empty, central[1..], blocks)
    else if empty != [] then Refill(empty[0] + Carve(blocks, n), empty[1..], central, blocks + 1)
    else Refill(Carve(blocks, n), empty, central, blocks + 1)
  }

  function Refilled(c: Cache, r: Refill): (c': Cache)
    ensures |c'.free| == |c.free| + 1
  {
    Cache(c.free + [r.batch], r.empty, c.freeSize + |r.batch|)
  }

  /**
  `AssertFails` is the failing assertion on the popped object; `NullBatch` is the pop through the null that the front
  of an empty free list is, which comes before that assertion.
  */
  datatype AllocResult =
    | AssertFails
    | NullBatch
    | Got(obj: Obj, cache: Cache, central: seq<Batch>, blocks: nat)

  /** Takes the first object of batch `i`; a batch that runs out moves to the empty list. */
  function TakeFrom(c: Cache, i: nat, central: seq<Batch>, blocks: nat): AllocResult
    requires i < |c.free|
  {
    var m := c.free[i];
    if m == [] then AssertFails
    else
      var taken := if m[1..] != [] then c.(free := c.free[i := m[1..]])
                   else c.(free := RemoveAt(c.free, i), empty := c.empty + [m[1..]]);
      Got(m[0], taken.(freeSize := c.freeSize - 1), central, blocks)
  }

  /** `thread_allocator_alloc`. */
  function AllocFrom(n: nat, c: Cache, central: seq<Batch>, blocks: nat): AllocResult {
    if c.freeSize == 0 then
      var r := GetBatch(n, c.empty, central, blocks);
      TakeFrom(Refilled(c, r), |c.free|, r.central, r.blocks)
    else if c.free == [] then NullBatch
    else TakeFrom(c, 0, central, blocks)
  }

  /** The last batch with room among the first `k`, or -1. */
  function LastWithRoom(n: nat, free: seq<Batch>, k: nat): (i: int)
    requires k <= |free|
    ensures -1 <= i < k
    ensures i >= 0 ==> |free[i]| < n
    ensures forall j :: i < j < k ==> |free[j]| >= n
  {
    if k == 0 then -1 else if |free[k - 1]| < n then k - 1 else LastWithRoom(n, free, k - 1)
  }

  /** The cache with a batch that has room, and the place of that batch. */
  function MakeRoom(n: nat, c: Cache): (r: (Cache, nat))
    ensures r.1 < |r.0.free|
  {
    var i := LastWithRoom(n, c.free, |c.free|);
    if i >= 0 then (c, i)
    else if c.empty != [] then (c.(free := c.free + [c.empty[0]], empty := c.empty[1..]), |c.free|)
    else (c.(free := c.free + [[]]), |c.free|)
  }

  /** A batch that has become full goes to the central list when the cache holds two batches' worth. */
  function GiveBack(n: nat, c: Cache, i: nat, central: seq<Batch>): (Cache, seq<Batch>)
    requires i < |c.free|
  {
    var m := c.free[i];
    if |m| == n && c.freeSize >= 2 * n
    then (c.(free := RemoveAt(c.free, i), freeSize := c.freeSize - |m|), central + [m])
    else (c, central)
  }

  /**
  `thread_allocator_dealloc`. Pushing onto an intrusive list does nothing when the first word of the object is
  not null, yet the object is counted.
  */
  function DeallocTo(n: nat, c: Cache, central: seq<Batch>, obj: Obj, firstWordNull: bool): (Cache, seq<Batch>) {
    var (room, i) := MakeRoom(n, c);
    var m := if firstWordNull then room.free[i] + [obj] else room.free[i];
    GiveBack(n, room.(free := room.free[i := m], freeSize := c.freeSize + 1), i, central)
  }

  // ---------- the steps ----------

  datatype Action = Join | Alloc(thread: nat) | Dealloc(thread: nat, obj: Obj, firstWordNull: bool)

  /** Callers free only what they hold. */
  predicate Enabled(s: State, a: Action) {
    match a
    case Join => true
    case Alloc(k) => k < |s.caches| && AllocFrom(s.n, s.caches[k], s.central, s.blocks).Got?
    case Dealloc(k, obj, _) => k < |s.caches| && obj in s.live
  }

  function Do(s: State, a: Action): State
    requires Enabled(s, a)
  {
    match a
    case Join => s.(caches := s.caches + [EMPTY_CACHE])
    case Alloc(k) =>
      var got := AllocFrom(s.n, s.caches[k], s.central, s.blocks);
      var live := s.live + {got.obj};
      s.(caches := s.caches[k := got.cache], central := got.central, blocks := got.blocks, live := live,
         peak := if s.peak < |live| then |live| else s.peak)
    case Dealloc(k, obj, firstWordNull) =>
      var (cache, central) := DeallocTo(s.n, s.caches[k], s.central, obj, firstWordNull);
      s.(caches := s.caches[k := cache], central := central, live := s.live - {obj})
  }

  /** A pool whose batches can hold something; `BatchSize` in module ObjectSize says when that is. */
  ghost predicate Init(s: State) {
    s.n >= 1 && s == State(s.n, 0, [], [], {}, 0)
  }

  /** Callers leave the first word of what they free null. */
  ghost predicate Next(s: State, s': State) {
    exists a :: Enabled(s, a) && (a.Dealloc? ==> a.firstWordNull) && s' == Do(s, a)
  }

  // ---------- where the objects are ----------

  /** How often an object occurs in a batch, in a list of batches, in the thread caches, and anywhere at all. */
  ghost function InBatch(b: Batch, o: Obj): nat {
    if b == [] then 0 else One(b[0] == o) + InBatch(b[1..], o)
  }

  ghost function InBatches(batches: seq<Batch>, o: Obj): nat {
    if batches == [] then 0 else InBatch(batches[0], o) + InBatches(batches[1..], o)
  }

  ghost function InCaches(caches: seq<Cache>, o: Obj): nat {
    if caches == [] then 0 else InBatches(caches[0].free, o) + InCaches(caches[1..], o)
  }

  ghost function Places(s: State, o: Obj): nat {
    One(o in s.live) + InBatches(s.central, o) + InCaches(s.caches, o)
  }

  /** The objects of the blocks carved so far. */
  predicate IsCarved(s: State, o: Obj) {
    o.block < s.blocks && o.index < s.n
  }

  /** How many objects the batches hold, and how many the threads say they cache. */
  ghost function Total(batches: seq<Batch>): nat {
    if batches == [] then 0 else |batches[0]| + Total(batches[1..])
  }

  ghost function CachedCount(caches: seq<Cache>): int {
    if caches == [] then 0 else caches[0].freeSize + CachedCount(caches[1..])
  }

  // ---------- the invariant ----------

  /** At most two batches, none empty or overfull, counted exactly, together less than two full ones; empty spares. */
  ghost predicate CacheOk(n: nat, c: Cache) {
    && |c.free| <= 2
    && BatchesOk(n, c.free)
    && AllEmpty(c.empty)
    && c.freeSize == Total(c.free) < 2 * n
  }

  ghost predicate BatchesOk(n: nat, batches: seq<Batch>) {
    forall i :: 0 <= i < |batches| ==> 1 <= |batches[i]| <= n
  }

  ghost predicate AllEmpty(batches: seq<Batch>) {
    forall i :: 0 <= i < |batches| ==> batches[i] == []
  }

  ghost predicate CachesOk(n: nat, caches: seq<Cache>) {
    forall k :: 0 <= k < |caches| ==> CacheOk(n, caches[k])
  }

  ghost predicate CentralOk(n: nat, central: seq<Batch>) {
    forall i :: 0 <= i < |central| ==> |central[i]| == n
  }

  /** Every carved object is in exactly one place, once, and nothing else is anywhere. */
  ghost predicate Partitioned(s: State) {
    forall o :: Places(s, o) == One(IsCarved(s, o))
  }

  /** The objects in `k` full batches. */
  function Full(n: nat, k: int): int {
    n * k
  }

  /** The most that `threads` caches can hold. */
  function CacheLimit(threads: int, n: nat): int {
    threads * (2 * n - 1)
  }

  /** Live, cached and central objects add up to what was carved. */
  ghost predicate Balanced(s: State) {
    |s.live| + CachedCount(s.caches) + Full(s.n, |s.central|) == Full(s.n, s.blocks)
  }

  /** Blocks carved, measured in objects, never run far ahead of the peak demand. */
  ghost predicate Bounded(s: State) {
    && |s.live| <= s.peak <= Full(s.n, s.blocks)
    && (s.blocks > 0 ==> |s.caches| > 0 && Full(s.n, s.blocks) <= s.peak + CacheLimit(|s.caches| - 1, s.n) + s.n - 1)
  }

  ghost predicate Inv(s: State) {
    && s.n >= 1
    && CachesOk(s.n, s.caches)
    && CentralOk(s.n, s.central)
    && Partitioned(s)
    && Balanced(s)
    && Bounded(s)
  }

  // ---------- counting ----------

  lemma {:induction false} BatchAppend(b: Batch, x: Obj, o: Obj)
    ensures InBatch(b + [x], o) == InBatch(b, o) + One(x == o)
  {
    if b == [] {
      assert [x][1..] == [];
    } else {
      BatchAppend(b[1..], x, o);
      assert (b + [x])[1..] == b[1..] + [x];
    }
  }

  lemma {:induction false} CarveCount(block: nat, n: nat, o: Obj)
    ensures InBatch(Carve(block, n), o) == One(o.block == block && o.index < n)
  {
    if n > 0 {
      CarveCount(block, n - 1, o);
      BatchAppend(Carve(block, n - 1), Obj(block, n - 1), o);
      assert Carve(block, n) == Carve(block, n - 1) + [Obj(block, n - 1)];
    }
  }

  lemma {:induction false} BatchesAppend(batches: seq<Batch>, b: Batch, o: Obj)
    ensures InBatches(batches + [b], o) == InBatches(batches, o) + InBatch(b, o)
    ensures Total(batches + [b]) == Total(batches) + |b|
  {
    if batches == [] {
      assert [b][1..] == [];
    } else {
      BatchesAppend(batches[1..], b, o);
      assert (batches + [b])[1..] == batches[1..] + [b];
    }
  }

  lemma {:induction false} BatchesRemove(batches: seq<Batch>, i: nat, o: Obj)
    requires i < |batches|
    ensures InBatches(batches, o) == InBatches(RemoveAt(batches, i), o) + InBatch(batches[i], o)
    ensures Total(batches) == Total(RemoveAt(batches, i)) + |batches[i]|
  {
    if i > 0 {
      BatchesRemove(batches[1..], i - 1, o);
      assert RemoveAt(batches, i)[1..] == RemoveAt(batches[1..], i - 1);
    } else {
      assert RemoveAt(batches, i) == batches[1..];
    }
  }

  lemma BatchesUpdate(batches: seq<Batch>, i: nat, b: Batch, o: Obj)
    requires i < |batches|
    ensures InBatches(batches[i := b], o) + InBatch(batches[i], o) == InBatches(batches, o) + InBatch(b, o)
    ensures Total(batches[i := b]) + |batches[i]| == Total(batches) + |b|
  {
    BatchesRemove(batches, i, o);
    BatchesRemove(batches[i := b], i, o);
    assert RemoveAt(batches[i := b], i) == RemoveAt(batches, i);
  }

  lemma {:induction false} CachesRemove(caches: seq<Cache>, k: nat, o: Obj)
    requires k < |caches|
    ensures InCaches(caches, o) == InCaches(RemoveAt(caches, k), o) + InBatches(caches[k].free, o)
    ensures CachedCount(caches) == CachedCount(RemoveAt(caches, k)) + caches[k].freeSize
  {
    if k > 0 {
      CachesRemove(caches[1..], k - 1, o);
      assert RemoveAt(caches, k)[1..] == RemoveAt(caches[1..], k - 1);
    } else {
      assert RemoveAt(caches, k) == caches[1..];
    }
  }

  lemma CachesUpdate(caches: seq<Cache>, k: nat, c: Cache, o: Obj)
    requires k < |caches|
    ensures InCaches(caches[k := c], o) + InBatches(caches[k].free, o) == InCaches(caches, o) + InBatches(c.free, o)
    ensures CachedCount(caches[k := c]) + caches[k].freeSize == CachedCount(caches) + c.freeSize
  {
    CachesRemove(caches, k, o);
    CachesRemove(caches[k := c], k, o);
    assert RemoveAt(caches[k := c], k) == RemoveAt(caches, k);
  }

  lemma CachesAppend(caches: seq<Cache>, c: Cache, o: Obj)
    ensures InCaches(caches + [c], o) == InCaches(caches, o) + InBatches(c.free, o)
    ensures CachedCount(caches + [c]) == CachedCount(caches) + c.freeSize
  {
    CachesRemove(caches + [c], |caches|, o);
    assert RemoveAt(caches + [c], |caches|) == caches;
  }

  lemma {:induction false} CachedBound(n: nat, caches: seq<Cache>)
    requires n >= 1 && CachesOk(n, caches)
    ensures 0 <= CachedCount(caches) <= CacheLimit(|caches|, n)
  {
    if caches != [] {
      assert CacheOk(n, caches[0]);
      CachedBound(n, caches[1..]);
      assert |caches| * (2 * n - 1) == (|caches| - 1) * (2 * n - 1) + (2 * n - 1);
    }
  }

  lemma FullSteps(n: nat, k: int)
    ensures Full(n, k + 1) == Full(n, k) + n
    ensures Full(n, k - 1) == Full(n, k) - n
    ensures k >= 0 ==> Full(n, k) >= 0
    ensures Full(n, 0) == 0
  {
  }

  /** An empty cache leaves room for only the others. */
  lemma OthersBound(n: nat, caches: seq<Cache>, k: nat, o: Obj)
    requires n >= 1 && CachesOk(n, caches) && k < |caches| && caches[k].freeSize == 0
    ensures CachedCount(caches) <= CacheLimit(|caches| - 1, n)
  {
    var others := RemoveAt(caches, k);
    CachesRemove(caches, k, o);
    forall i | 0 <= i < |others| ensures CacheOk(n, others[i]) {
      assert CacheOk(n, caches[if i < k then i else i + 1]);
    }
    hide CacheOk, CachedCount, CacheLimit, RemoveAt;
    CachedBound(n, others);
  }

  // ---------- one call ----------

  lemma FewBatches(free: seq<Batch>)
    requires |free| <= 2
    ensures Total(free) == (if |free| > 0 then |free[0]| else 0) + (if |free| > 1 then |free[1]| else 0)
  {
    if |free| > 1 {
      assert free[1..][1..] == [];
    }
  }

  /** A cache with at least one batch from which, or to which, objects can go. */
  ghost predicate Usable(n: nat, c: Cache, i: nat) {
    i < |c.free| <= 2 && BatchesOk(n, c.free) && AllEmpty(c.empty) && c.freeSize == Total(c.free)
  }

  lemma TakeKeeps(n: nat, c: Cache, i: nat, central: seq<Batch>, blocks: nat, o: Obj)
    requires Usable(n, c, i)
    ensures var r := TakeFrom(c, i, central, blocks);
      && r.Got? && r.central == central && r.blocks == blocks
      && CacheOk(n, r.cache) && r.cache.freeSize == c.freeSize - 1
      && InBatches(c.free, o) == InBatches(r.cache.free, o) + One(r.obj == o)
  {
    var m := c.free[i];
    BatchesUpdate(c.free, i, m[1..], o);
    BatchesRemove(c.free, i, o);
    FewBatches(c.free);
    assert InBatch(m, o) == One(m[0] == o) + InBatch(m[1..], o);
    hide InBatches, Total, InBatch;
  }

  /** A refill is a full batch, taken from the central list or carved. */
  lemma RefillKeeps(n: nat, empty: seq<Batch>, central: seq<Batch>, blocks: nat, o: Obj)
    requires CentralOk(n, central) && AllEmpty(empty)
    ensures var r := GetBatch(n, empty, central, blocks);
      && |r.batch| == n && CentralOk(n, r.central) && AllEmpty(r.empty)
      && r.blocks == blocks + One(central == []) && |r.central| == |central| - One(central != [])
      && InBatch(r.batch, o) + InBatches(r.central, o) ==
         InBatches(central, o) + One(central == [] && o.block == blocks && o.index < n)
  {
    CarveCount(blocks, n, o);
    if central == [] && empty != [] {
      assert empty[0] + Carve(blocks, n) == Carve(blocks, n);
    }
  }

  /** What an allocation does to a cache in order: it refills when empty, and carves when the central list is, too. */
  ghost predicate AllocDone(n: nat, c: Cache, central: seq<Batch>, blocks: nat, r: AllocResult, o: Obj) {
    var refills, carves := c.freeSize == 0, c.freeSize == 0 && central == [];
    && r.Got? && CacheOk(n, r.cache) && CentralOk(n, r.central)
    && r.blocks == blocks + One(carves)
    && |r.central| == |central| - One(refills && !carves)
    && r.cache.freeSize == c.freeSize - 1 + (if refills then n else 0)
    && One(r.obj == o) + InBatches(r.cache.free, o) + InBatches(r.central, o) ==
       InBatches(c.free, o) + InBatches(central, o) + One(carves && o.block == blocks && o.index < n)
  }

  lemma AllocFromEmpty(n: nat, c: Cache, central: seq<Batch>, blocks: nat, o: Obj)
    requires n >= 1 && CacheOk(n, c) && c.freeSize == 0
    ensures c.free == [] && AllEmpty(c.empty) && InBatches(c.free, o) == 0
    ensures var r := GetBatch(n, c.empty, central, blocks);
      AllocFrom(n, c, central, blocks) == TakeFrom(Refilled(c, r), 0, r.central, r.blocks)
  {
    EmptyCache(n, c);
  }

  lemma AllocFromRefill(n: nat, c: Cache, central: seq<Batch>, blocks: nat, o: Obj)
    requires n >= 1 && CacheOk(n, c) && CentralOk(n, central) && c.freeSize == 0
    ensures AllocDone(n, c, central, blocks, AllocFrom(n, c, central, blocks), o)
  {
    hide InBatches, Total, GetBatch, InBatch, AllocFrom, TakeFrom, CacheOk, CentralOk, Usable, AllEmpty, Refilled;
    AllocFromEmpty(n, c, central, blocks, o);
    RefillKeeps(n, c.empty, central, blocks, o);
    var r := GetBatch(n, c.empty, central, blocks);
    RefilledCache(n, c, r, o);
    TakeKeeps(n, Refilled(c, r), 0, r.central, r.blocks, o);
  }

  lemma RefilledCache(n: nat, c: Cache, r: Refill, o: Obj)
    requires 1 <= n == |r.batch| && c.free == [] && c.freeSize == 0 && AllEmpty(r.empty)
    ensures var c' := Refilled(c, r);
      Usable(n, c', |c.free|) && c'.freeSize == n && InBatches(c'.free, o) == InBatch(r.batch, o)
  {
    BatchesAppend(c.free, r.batch, o);
  }

  lemma EmptyCache(n: nat, c: Cache)
    requires CacheOk(n, c)
    ensures c.freeSize == 0 <==> c.free == []
  {
  }

  /** An allocation succeeds and moves one object out of what was there or, when nothing is, of a new block. */
  lemma AllocKeeps(n: nat, c: Cache, central: seq<Batch>, blocks: nat, o: Obj)
    requires n >= 1 && CacheOk(n, c) && CentralOk(n, central)
    ensures AllocDone(n, c, central, blocks, AllocFrom(n, c, central, blocks), o)
  {
    if c.freeSize == 0 {
      AllocFromRefill(n, c, central, blocks, o);
    } else {
      EmptyCache(n, c);
      hide InBatches, TakeFrom;
      TakeKeeps(n, c, 0, central, blocks, o);
    }
  }

  /** A new batch is started only when all are full, so there are never more than two. */
  lemma RoomFor(n: nat, c: Cache, o: Obj)
    requires n >= 1 && CacheOk(n, c)
    ensures var (room, i) := MakeRoom(n, c);
      && |room.free| <= 2 && |room.free[i]| < n
      && (forall j :: 0 <= j < |room.free| && j != i ==> 1 <= |room.free[j]| <= n)
      && AllEmpty(room.empty)
      && Total(room.free) == c.freeSize && InBatches(room.free, o) == InBatches(c.free, o)
  {
    FewBatches(c.free);
    BatchesAppend(c.free, [], o);
    hide InBatches, Total;
  }

  /** Without a full batch, or without two batches' worth, a cache with room stays in order as it is. */
  lemma StaysOk(n: nat, c: Cache, i: nat)
    requires n >= 1 && Usable(n, c, i) && (|c.free[i]| < n || c.freeSize < 2 * n)
    ensures CacheOk(n, c)
  {
    FewBatches(c.free);
    hide Total;
  }

  /** Without its full batch a cache holds fewer than two batches' worth. */
  lemma RemoveFull(n: nat, c: Cache, i: nat, o: Obj)
    requires n >= 1 && Usable(n, c, i) && |c.free[i]| == n
    ensures CacheOk(n, c.(free := RemoveAt(c.free, i), freeSize := c.freeSize - n))
    ensures InBatches(c.free, o) == InBatches(RemoveAt(c.free, i), o) + InBatch(c.free[i], o)
  {
    BatchesRemove(c.free, i, o);
    FewBatches(c.free);
    hide Total, InBatches, InBatch;
  }

  lemma GiveBackKeeps(n: nat, c: Cache, i: nat, central: seq<Batch>, o: Obj)
    requires n >= 1 && Usable(n, c, i) && CentralOk(n, central)
    ensures var (cache, central') := GiveBack(n, c, i, central);
      && CacheOk(n, cache) && CentralOk(n, central')
      && cache.freeSize == c.freeSize - (if central' == central then 0 else n)
      && |central'| == |central| + One(central' != central)
      && InBatches(cache.free, o) + InBatches(central', o) == InBatches(c.free, o) + InBatches(central, o)
  {
    var m := c.free[i];
    if |m| == n && c.freeSize >= 2 * n {
      RemoveFull(n, c, i, o);
      BatchesAppend(central, m, o);
      assert |central + [m]| == |central| + 1;
    } else {
      StaysOk(n, c, i);
    }
    hide InBatches, Total, InBatch, CacheOk, RemoveAt;
  }

  /** What a deallocation does to a cache in order. */
  ghost predicate DeallocDone(n: nat, c: Cache, central: seq<Batch>, obj: Obj, cache: Cache, central': seq<Batch>,
                              o: Obj)
  {
    && CacheOk(n, cache) && CentralOk(n, central')
    && cache.freeSize == c.freeSize + 1 - (if central' == central then 0 else n)
    && |central'| == |central| + One(central' != central)
    && InBatches(cache.free, o) + InBatches(central', o) == InBatches(c.free, o) + InBatches(central, o) + One(obj == o)
  }

  /** A deallocation puts the object into the cache or, with a full batch, on the central list. */
  lemma DeallocKeeps(n: nat, c: Cache, central: seq<Batch>, obj: Obj, o: Obj)
    requires n >= 1 && CacheOk(n, c) && CentralOk(n, central)
    ensures var (cache, central') := DeallocTo(n, c, central, obj, true);
      DeallocDone(n, c, central, obj, cache, central', o)
  {
    var (room, i) := MakeRoom(n, c);
    RoomFor(n, c, o);
    var m := room.free[i] + [obj];
    BatchAppend(room.free[i], obj, o);
    BatchesUpdate(room.free, i, m, o);
    hide InBatches, Total, MakeRoom, GiveBack, InBatch;
    GiveBackKeeps(n, room.(free := room.free[i := m], freeSize := c.freeSize + 1), i, central, o);
  }

  /** An object whose first word is not null is counted but not kept: the counter no longer tells the truth. */
  lemma DeallocLoses(n: nat, c: Cache, central: seq<Batch>, obj: Obj, o: Obj)
    requires n >= 1 && CacheOk(n, c)
    ensures var (cache, central') := DeallocTo(n, c, central, obj, false);
      && !CacheOk(n, cache)
      && InBatches(cache.free, o) + InBatches(central', o) == InBatches(c.free, o) + InBatches(central, o)
  {
    var (room, i) := MakeRoom(n, c);
    RoomFor(n, c, o);
    assert room.free[i := room.free[i]] == room.free;
    hide InBatches, Total, MakeRoom;
  }

  // ---------- every step ----------

  lemma CachesOkUpdate(n: nat, caches: seq<Cache>, k: nat, c: Cache)
    requires CachesOk(n, caches) && k < |caches| && CacheOk(n, c)
    ensures CachesOk(n, caches[k := c])
  {
  }

  /** An allocated object was not live, and afterwards it is only that. */
  lemma AllocPlaces(s: State, k: nat, o: Obj)
    requires Inv(s) && Enabled(s, Alloc(k))
    ensures var s' := Do(s, Alloc(k)); Places(s', o) == One(IsCarved(s', o))
    ensures o == AllocFrom(s.n, s.caches[k], s.central, s.blocks).obj ==> o !in s.live
  {
    hide InBatches, InCaches, AllocFrom, CacheOk, CentralOk, Balanced, Bounded;
    var c := s.caches[k];
    AllocKeeps(s.n, c, s.central, s.blocks, o);
    CachesUpdate(s.caches, k, AllocFrom(s.n, c, s.central, s.blocks).cache, o);
    assert Places(s, o) == One(IsCarved(s, o));
    hide CachesOk, Partitioned;
  }

  /** How an allocation moves the counters. */
  lemma AllocCounts(s: State, k: nat)
    requires Inv(s) && Enabled(s, Alloc(k))
    ensures var c, s' := s.caches[k], Do(s, Alloc(k));
      var refills, carves := c.freeSize == 0, c.freeSize == 0 && s.central == [];
      && s'.n == s.n && |s'.caches| == |s.caches|
      && s'.peak == (if s.peak < |s'.live| then |s'.live| else s.peak)
      && |s'.live| == |s.live| + 1
      && s'.blocks == s.blocks + One(carves)
      && |s'.central| == |s.central| - One(refills && !carves)
      && CachedCount(s'.caches) == CachedCount(s.caches) - 1 + (if refills then s.n else 0)
      && CachesOk(s.n, s'.caches) && CentralOk(s.n, s'.central)
  {
    var c := s.caches[k];
    var r := AllocFrom(s.n, c, s.central, s.blocks);
    AllocPlaces(s, k, r.obj);
    AllocKeeps(s.n, c, s.central, s.blocks, r.obj);
    CachesOkUpdate(s.n, s.caches, k, r.cache);
    CachesUpdate(s.caches, k, r.cache, r.obj);
    hide Partitioned, CachesOk, CentralOk, CacheOk, AllocFrom, InBatches, InCaches, CachedCount, Balanced, Bounded;
    hide Places;
    assert |s.live + {r.obj}| == |s.live| + 1;
  }

  lemma AllocBalanced(s: State, k: nat)
    requires Inv(s) && Enabled(s, Alloc(k))
    ensures Balanced(Do(s, Alloc(k)))
  {
    AllocCounts(s, k);
    FullSteps(s.n, s.blocks);
    FullSteps(s.n, |s.central|);
    hide Partitioned, CachesOk, CentralOk, AllocFrom, CachedCount, Bounded, Do, Enabled, Full;
  }

  /** Carving is done only when the demand, counting what other caches may hold, exceeds what was carved. */
  lemma AllocBounded(s: State, k: nat)
    requires Inv(s) && Enabled(s, Alloc(k))
    ensures Bounded(Do(s, Alloc(k)))
  {
    var s' := Do(s, Alloc(k));
    AllocBalanced(s, k);
    AllocCounts(s, k);
    CachedBound(s.n, s'.caches);
    if s.caches[k].freeSize == 0 {
      OthersBound(s.n, s.caches, k, Obj(0, 0));
    }
    FullSteps(s.n, s.blocks);
    FullSteps(s.n, |s'.central|);
    hide Partitioned, CachesOk, CentralOk, AllocFrom, CachedCount, Do, Enabled, Full, CacheLimit;
  }

  lemma AllocStep(s: State, k: nat)
    requires Inv(s) && Enabled(s, Alloc(k))
    ensures Inv(Do(s, Alloc(k)))
  {
    var s' := Do(s, Alloc(k));
    forall o ensures Places(s', o) == One(IsCarved(s', o)) { AllocPlaces(s, k, o); }
    AllocCounts(s, k);
    AllocBalanced(s, k);
    AllocBounded(s, k);
    hide Do, Enabled, CachesOk, CentralOk, Balanced, Bounded, Places, CachedCount;
  }

  lemma DeallocPlaces(s: State, k: nat, obj: Obj, o: Obj)
    requires Inv(s) && Enabled(s, Dealloc(k, obj, true))
    ensures var s' := Do(s, Dealloc(k, obj, true)); Places(s', o) == One(IsCarved(s', o))
  {
    DeallocKeeps(s.n, s.caches[k], s.central, obj, o);
    CachesUpdate(s.caches, k, DeallocTo(s.n, s.caches[k], s.central, obj, true).0, o);
    assert Places(s, o) == One(IsCarved(s, o));
    hide InBatches, InCaches, DeallocTo, CacheOk, CentralOk, CachesOk, Balanced, Bounded, Partitioned;
  }

  /** How a free moves the counters. */
  lemma DeallocCounts(s: State, k: nat, obj: Obj)
    requires Inv(s) && Enabled(s, Dealloc(k, obj, true))
    ensures var s' := Do(s, Dealloc(k, obj, true));
      var back := One(s'.central != s.central);
      && s'.n == s.n && s'.blocks == s.blocks && s'.peak == s.peak && |s'.caches| == |s.caches|
      && |s'.live| == |s.live| - 1 && |s'.central| == |s.central| + back
      && CachedCount(s'.caches) == CachedCount(s.caches) + 1 - (if back == 1 then s.n else 0)
      && CachesOk(s.n, s'.caches) && CentralOk(s.n, s'.central)
  {
    var cache := DeallocTo(s.n, s.caches[k], s.central, obj, true).0;
    DeallocKeeps(s.n, s.caches[k], s.central, obj, obj);
    CachesOkUpdate(s.n, s.caches, k, cache);
    CachesUpdate(s.caches, k, cache, obj);
    hide Partitioned, CachesOk, CentralOk, CacheOk, DeallocTo, InBatches, InCaches, CachedCount, Balanced, Bounded;
    assert |s.live - {obj}| == |s.live| - 1;
  }

  lemma DeallocStep(s: State, k: nat, obj: Obj)
    requires Inv(s) && Enabled(s, Dealloc(k, obj, true))
    ensures Inv(Do(s, Dealloc(k, obj, true)))
  {
    var s' := Do(s, Dealloc(k, obj, true));
    assert Partitioned(s') by {
      forall o ensures Places(s', o) == One(IsCarved(s', o)) { DeallocPlaces(s, k, obj, o); }
    }
    DeallocCounts(s, k, obj);
    FullSteps(s.n, |s.central|);
    hide Partitioned, CachesOk, CentralOk, Do, Enabled, CachedCount, Full, CacheLimit;
  }

  lemma OneMoreCache(threads: nat, n: nat)
    ensures CacheLimit(threads, n) == CacheLimit(threads - 1, n) + (2 * n - 1)
  {
  }

  lemma JoinStep(s: State)
    requires Inv(s)
    ensures Inv(Do(s, Join))
  {
    var s' := Do(s, Join);
    forall o ensures Places(s', o) == One(IsCarved(s', o)) {
      CachesAppend(s.caches, EMPTY_CACHE, o);
      assert Places(s, o) == One(IsCarved(s, o));
    }
    CachesAppend(s.caches, EMPTY_CACHE, Obj(0, 0));
    OneMoreCache(|s.caches|, s.n);
    hide InBatches, InCaches, Full, CacheLimit, Places;
  }

  lemma StepInv(s: State, a: Action)
    requires Inv(s) && Enabled(s, a) && (a.Dealloc? ==> a.firstWordNull)
    ensures Inv(Do(s, a))
  {
    hide Inv;
    match a
    case Join => JoinStep(s);
    case Alloc(k) => AllocStep(s, k);
    case Dealloc(k, obj, _) => DeallocStep(s, k, obj);
  }

  // ---------- main results ----------

  /** Over every run of any number of threads the pool stays in order, and an allocation never fails. */
  lemma RunInv(run: seq<State>)
    requires IsRun(Init, Next, run)
    ensures forall i :: 0 <= i < |run| ==> Inv(run[i])
  {
    forall s, s' | Inv(s) && Next(s, s') ensures Inv(s') {
      var a :| Enabled(s, a) && (a.Dealloc? ==> a.firstWordNull) && s' == Do(s, a);
      StepInv(s, a);
    }
    Invariance(Init, Next, Inv, run);
  }

  /**
  What it means for memory, over every run: everything carved is live, cached or central; a cache holds fewer
  than two batches; and the blocks never exceed the peak demand by more than the other caches can hold plus a
  batch.
  */
  lemma MemoryBound(run: seq<State>, i: nat)
    requires IsRun(Init, Next, run) && i < |run|
    ensures var s := run[i];
      && |s.live| + CachedCount(s.caches) + s.n * |s.central| == s.n * s.blocks
      && (forall k :: 0 <= k < |s.caches| ==> |s.caches[k].free| <= 2 && s.caches[k].freeSize < 2 * s.n)
      && s.peak <= s.n * s.blocks
      && (s.blocks > 0 ==> s.n * s.blocks <= s.peak + (|s.caches| - 1) * (2 * s.n - 1) + s.n - 1)
  {
    RunInv(run);
    hide CentralOk, Partitioned, CachedCount, Total;
  }

  /** An allocation in an ordered pool does not crash, and what is handed out is carved and not live. */
  lemma AllocGivesFreshObject(s: State, k: nat)
    requires Inv(s) && k < |s.caches|
    ensures Enabled(s, Alloc(k))
    ensures var r := AllocFrom(s.n, s.caches[k], s.central, s.blocks);
      r.obj !in s.live && IsCarved(Do(s, Alloc(k)), r.obj)
  {
    AllocKeeps(s.n, s.caches[k], s.central, s.blocks, Obj(0, 0));
    var r := AllocFrom(s.n, s.caches[k], s.central, s.blocks);
    AllocPlaces(s, k, r.obj);
    hide InBatches, InCaches, AllocFrom, Inv;
  }

  /**
  Freeing an object keeps the pool in order if and only if its first word is null; otherwise the object is lost
  and the thread's counter is wrong for good.
  */
  lemma DeallocNeedsNullWord(s: State, k: nat, obj: Obj, firstWordNull: bool)
    requires Inv(s) && Enabled(s, Dealloc(k, obj, firstWordNull))
    ensures Inv(Do(s, Dealloc(k, obj, firstWordNull))) <==> firstWordNull
    ensures !firstWordNull ==> Places(Do(s, Dealloc(k, obj, false)), obj) == 0
  {
    if firstWordNull {
      DeallocStep(s, k, obj);
    } else {
      var s' := Do(s, Dealloc(k, obj, false));
      DeallocLoses(s.n, s.caches[k], s.central, obj, obj);
      CachesUpdate(s.caches, k, DeallocTo(s.n, s.caches[k], s.central, obj, false).0, obj);
      assert Places(s, obj) == One(IsCarved(s, obj));
      hide InBatches, InCaches, DeallocTo, CacheOk;
      assert !CacheOk(s.n, s'.caches[k]);
    }
  }

  /** With a single thread the number of blocks is the peak demand divided by the batch size, rounded up. */
  lemma OneThreadCarvesCeiling(s: State)
    requires Inv(s) && |s.caches| == 1
    ensures s.blocks == (s.peak + s.n - 1) / s.n
  {
    hide Partitioned, CachesOk, CentralOk, Balanced;
    DivRange(s.peak + s.n - 1, s.n, s.blocks);
  }

  // ---------- addresses ----------

  /** Where an object lies in its block. */
  function Offset(o: Obj, objSize: nat): nat {
    o.index * objSize
  }

  /** Distinct objects of one block occupy disjoint ranges, and all of them lie inside the block. */
  lemma ObjectsDisjoint(o: Obj, o': Obj, n: nat, objSize: nat, blockSize: nat)
    requires o.index < n && o'.index < n && n * objSize <= blockSize
    ensures Offset(o, objSize) + objSize <= blockSize
    ensures o != o' && o.block == o'.block ==>
      Offset(o, objSize) + objSize <= Offset(o', objSize) || Offset(o', objSize) + objSize <= Offset(o, objSize)
  {
    MulOrder(objSize, o.index + 1, n);
    if o.index < o'.index {
      MulOrder(objSize, o.index + 1, o'.index);
    } else if o'.index < o.index {
      MulOrder(objSize, o'.index + 1, o.index);
    }
    assert (o.index + 1) * objSize == o.index * objSize + objSize;
    assert (o'.index + 1) * objSize == o'.index * objSize + objSize;
  }
}
