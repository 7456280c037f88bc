/**
Any sequence of calls to the allocator of linked lists, by any threads, on any objects they hold: each such sequence
is a run of module Pool, so what holds of those runs holds of this code.
*/
module AllocatorRuns {
  import opened Runs
  import opened Pool
  import opened Allocator
  import L = LinkList

  /** One call of `block_obj_al_alloc`, or of `block_obj_al_dealloc` for one of the objects held. */
  datatype Call = Get(thread: nat) | GiveBack(thread: nat, which: nat)

  /** Which threads have called and how many objects are out after one more call, and after all calls. */
  function CountCall(threads: set<nat>, out: nat, call: Call): (set<nat>, nat) {
    (threads + {call.thread}, if call.Get? then out + 1 else if call.which < out then out - 1 else out)
  }

  function Count(calls: seq<Call>): (set<nat>, nat) {
    if calls == [] then ({}, 0)
    else
      var (threads, out) := Count(calls[..|calls| - 1]);
      CountCall(threads, out, calls[|calls| - 1])
  }

  /** `table` is the thread-specific data: the place of each thread's cache. Every cache is that of one thread. */
  predicate OwnCaches(table: map<nat, nat>, count: nat) {
    && |table| == count
    && (forall u :: u in table ==> table[u] < count)
    && (forall u, v :: u in table && v in table && u != v ==> table[u] != table[v])
  }

  ghost function Objects(held: seq<L.ListNode>): (objs: seq<Obj>)
    ensures |objs| == |held| && forall i :: 0 <= i < |objs| ==> objs[i] == ObjOf(held[i])
  {
    seq(|held|, i requires 0 <= i < |held| => ObjOf(held[i]))
  }

  /** A new thread gets a cache of its own, and the step is one of the calling thread's cache. */
  ghost predicate Served(s: State, table: map<nat, nat>, objs: seq<Obj>, call: Call, s': State, table': map<nat, nat>,
                         objs': seq<Obj>)
  {
    var known := call.thread in table;
    var s1 := if known then s else Do(s, Join);
    && table' == (if known then table else table[call.thread := |s.caches|])
    && var k := table'[call.thread];
       match call
       case Get(_) =>
         && Enabled(s1, Action.Alloc(k)) && s' == Do(s1, Action.Alloc(k))
         && |objs'| == |objs| + 1 && objs'[..|objs|] == objs
       case GiveBack(_, which) =>
         if which < |objs| then
           var a := Action.Dealloc(k, objs[which], true);
           Enabled(s1, a) && s' == Do(s1, a) && objs' == RemoveAt(objs, which)
         else s' == s1 && objs' == objs
  }

  ghost predicate Distinct(held: seq<L.ListNode>) {
    forall i, j :: 0 <= i < j < |held| ==> ObjOf(held[i]) != ObjOf(held[j])
  }

  /** No two of the nodes are the same object, and together they are the live ones. */
  ghost predicate Live(held: seq<L.ListNode>, live: set<Obj>) {
    && Distinct(held)
    && (forall n :: n in held ==> ObjOf(n) in live)
    && (forall o :: o in live ==> exists n :: n in held && ObjOf(n) == o)
  }

  lemma Obtained(held: seq<L.ListNode>, live: set<Obj>, n: L.ListNode)
    requires Live(held, live) && ObjOf(n) !in live
    ensures Live(held + [n], live + {ObjOf(n)})
  {
    var longer := held + [n];
    forall o | o in live + {ObjOf(n)} ensures exists m :: m in longer && ObjOf(m) == o {
      if o in live {
        var m :| m in held && ObjOf(m) == o;
        assert m in longer;
      } else {
        assert longer[|held|] in longer;
      }
    }
  }

  lemma Returned(held: seq<L.ListNode>, live: set<Obj>, i: nat)
    requires Live(held, live) && i < |held|
    ensures Live(RemoveAt(held, i), live - {ObjOf(held[i])})
    ensures forall n :: n in RemoveAt(held, i) ==> n in held && n != held[i]
  {
    var rest := RemoveAt(held, i);
    assert forall j :: 0 <= j < |rest| ==> rest[j] == held[if j < i then j else j + 1];
    forall o | o in live - {ObjOf(held[i])} ensures exists m :: m in rest && ObjOf(m) == o {
      var m :| m in held && ObjOf(m) == o;
      var j :| 0 <= j < |held| && held[j] == m;
      assert rest[if j < i then j else j - 1] == m;
    }
  }

  /** The allocator in the state that a run has led to, and the nodes that are out. */
  ghost predicate At(al: BlockObjAllocator, held: seq<L.ListNode>, run: seq<State>)
    reads al, al.threadAllocators, al.AllLists(), NodesOf(al.AllLists())
  {
    && al.Valid() && Live(held, al.View().live)
    && (forall n :: n in held ==> n !in NodesOf(al.AllLists()))
    && IsRun(Init, Next, run) && run[|run| - 1] == al.View()
  }

  /** Everything that the calls can touch. */
  ghost function Footprint(al: BlockObjAllocator, held: seq<L.ListNode>): set<object>
    reads al, al.threadAllocators, al.AllLists()
  {
    var threads: set<object> := set a | a in al.threadAllocators;
    var lists: set<object> := al.AllLists();
    var nodes: set<object> := NodesOf(al.AllLists());
    var out: set<object> := set n | n in held;
    {al} + threads + lists + nodes + out
  }

  lemma Covered(al: BlockObjAllocator, k: nat, held: seq<L.ListNode>)
    requires al.Valid() && k < |al.threadAllocators|
    ensures var a := al.threadAllocators[k];
      && a.Lists() <= al.AllLists() && NodesOf(a.Lists()) <= NodesOf(al.AllLists())
      && al in Footprint(al, held) && a in Footprint(al, held)
    ensures forall l :: l in al.AllLists() ==> l in Footprint(al, held)
    ensures forall n :: n in NodesOf(al.AllLists()) || n in held ==> n in Footprint(al, held)
    ensures var s := al.View(); |s.caches| == |al.threadAllocators| && s.n == al.initSize && s.blocks == al.memoryBlocks
  {
    al.OthersApart(k);
    assert NodesOf(al.threadAllocators[k].Lists()) <= NodesOf(al.AllLists());
    hide Apart, BatchesOf, Union, OwnedBy;
  }

  lemma InOrder(al: BlockObjAllocator, held: seq<L.ListNode>, run: seq<State>)
    requires At(al, held, run)
    ensures run != [] && Inv(al.View())
  {
    RunInv(run);
    hide Inv, BlockObjAllocator.Valid, BlockObjAllocator.View, Live;
  }

  lemma Prolonged(run: seq<State>, a: Action, s: State)
    requires IsRun(Init, Next, run) && Enabled(run[|run| - 1], a) && (a.Dealloc? ==> a.firstWordNull)
    requires s == Do(run[|run| - 1], a)
    ensures IsRun(Init, Next, run + [s])
  {
    hide Do, Enabled;
    Extend(Init, Next, run, s);
  }

  /** Every thread gets the cache that is its own; its first call makes it. */
  method Thread(al: BlockObjAllocator, thread: nat, table: map<nat, nat>, held: seq<L.ListNode>,
                ghost run: seq<State>)
    returns (k: nat, table': map<nat, nat>, ghost run': seq<State>)
    requires At(al, held, run) && OwnCaches(table, |al.threadAllocators|)
    modifies Footprint(al, held)
    ensures At(al, held, run') && run <= run'
    ensures OwnCaches(table', |al.threadAllocators|) && thread in table' && k == table'[thread] < |al.threadAllocators|
    ensures old(al.threadAllocators) <= al.threadAllocators
    ensures if thread in table then table' == table && al.View() == old(al.View())
            else table' == table[thread := |old(al.View()).caches|] && al.View() == Do(old(al.View()), Join)
    ensures forall o :: o in Footprint(al, held) ==> o in old(Footprint(al, held)) || fresh(o)
  {
    hide Live, IsRun, BlockObjAllocator.Valid, BlockObjAllocator.View, NodesOf, BlockObjAllocator.AllLists;
    ViewFields(al);
    table', run' := table, run;
    if thread !in table {
      table' := table[thread := |al.threadAllocators|];
      al.CreateThreadAllocator();
      run' := run + [al.View()];
      Prolonged(run, Join, al.View());
    }
    k := table'[thread];
  }

  /** The object that an allocation hands out was not live, and now is. */
  lemma Handed(s: State, k: nat)
    requires Inv(s) && k < |s.caches|
    ensures Enabled(s, Action.Alloc(k))
    ensures var o := AllocFrom(s.n, s.caches[k], s.central, s.blocks).obj;
      o !in s.live && Do(s, Action.Alloc(k)).live == s.live + {o}
  {
    AllocGivesFreshObject(s, k);
    hide AllocFrom, Inv;
  }

  method Obtain(al: BlockObjAllocator, k: nat, held: seq<L.ListNode>, ghost run: seq<State>)
    returns (held': seq<L.ListNode>, ghost run': seq<State>)
    requires At(al, held, run) && k < |al.threadAllocators|
    modifies Footprint(al, held)
    ensures At(al, held', run') && run <= run' && |run'| == |run| + 1
    ensures |held'| == |held| + 1 && held <= held' && al.threadAllocators == old(al.threadAllocators)
    ensures Enabled(old(al.View()), Action.Alloc(k)) && al.View() == Do(old(al.View()), Action.Alloc(k))
    ensures forall o :: o in Footprint(al, held') ==> o in old(Footprint(al, held)) || fresh(o)
  {
    hide Distinct, IsRun, BlockObjAllocator.Valid, BlockObjAllocator.View, AllocFrom, Inv, BlockObjAllocator.AllLists;
    hide Apart, NodesOf, Do, Enabled;
    Covered(al, k, held);
    ghost var s := al.View();
    InOrder(al, held, run);
    Handed(s, k);
    var n := al.Alloc(k);
    Obtained(held, s.live, n);
    held' := held + [n];
    run' := run + [al.View()];
    Prolonged(run, Action.Alloc(k), al.View());
  }

  /** Callers clear the first word of what they give back. */
  method ClearWord(al: BlockObjAllocator, n: L.ListNode, held: seq<L.ListNode>, ghost run: seq<State>)
    requires At(al, held, run) && n in held
    modifies n
    ensures At(al, held, run) && n.next == null && al.View() == old(al.View())
    ensures Footprint(al, held) == old(Footprint(al, held))
  {
    hide Live, IsRun;
    n.next := null;
  }

  lemma Taken(s: State, k: nat, obj: Obj)
    requires k < |s.caches| && obj in s.live
    ensures Enabled(s, Action.Dealloc(k, obj, true))
    ensures Do(s, Action.Dealloc(k, obj, true)).live == s.live - {obj}
  {
    hide DeallocTo;
  }

  method Return(al: BlockObjAllocator, k: nat, held: seq<L.ListNode>, i: nat, ghost run: seq<State>)
    returns (held': seq<L.ListNode>, ghost run': seq<State>)
    requires At(al, held, run) && k < |al.threadAllocators| && i < |held|
    modifies Footprint(al, held)
    ensures At(al, held', run') && run <= run' && |run'| == |run| + 1 && held' == RemoveAt(held, i)
    ensures al.threadAllocators == old(al.threadAllocators)
    ensures var a := Action.Dealloc(k, ObjOf(held[i]), true);
      Enabled(old(al.View()), a) && al.View() == Do(old(al.View()), a)
    ensures forall o :: o in Footprint(al, held') ==> o in old(Footprint(al, held)) || fresh(o)
  {
    hide Distinct, IsRun, BlockObjAllocator.Valid, BlockObjAllocator.View, DeallocTo, Inv, BlockObjAllocator.AllLists;
    hide Apart, NodesOf, Do, Enabled;
    Covered(al, k, held);
    ghost var s := al.View();
    InOrder(al, held, run);
    var n := held[i];
    ClearWord(al, n, held, run);
    Taken(s, k, ObjOf(n));
    al.Dealloc(k, n);
    Returned(held, s.live, i);
    held' := RemoveAt(held, i);
    run' := run + [al.View()];
    Prolonged(run, Action.Dealloc(k, ObjOf(n), true), al.View());
  }

  lemma {:induction false} AsManyAsLive(held: seq<L.ListNode>, live: set<Obj>)
    requires Live(held, live)
    ensures |held| == |live|
  {
    if held == [] {
      assert live == {};
    } else {
      Returned(held, live, 0);
      AsManyAsLive(held[1..], live - {ObjOf(held[0])});
      assert RemoveAt(held, 0) == held[1..];
    }
  }

  method ServeOne(al: BlockObjAllocator, call: Call, table: map<nat, nat>, held: seq<L.ListNode>,
                  ghost run: seq<State>)
    returns (table': map<nat, nat>, held': seq<L.ListNode>, ghost run': seq<State>)
    requires At(al, held, run) && OwnCaches(table, |al.threadAllocators|)
    modifies Footprint(al, held)
    ensures At(al, held', run') && run <= run' && OwnCaches(table', |al.threadAllocators|)
    ensures (table'.Keys, |held'|) == CountCall(table.Keys, |held|, call)
    ensures Served(old(al.View()), table, Objects(held), call, al.View(), table', Objects(held'))
    ensures forall o :: o in Footprint(al, held') ==> o in old(Footprint(al, held)) || fresh(o)
  {
    hide At, Footprint, OwnCaches, Do, Enabled, BlockObjAllocator.View, IsRun;
    var k;
    k, table', run' := Thread(al, call.thread, table, held, run);
    assert table'.Keys == table.Keys + {call.thread};
    match call
    case Get(_) =>
      held', run' := Obtain(al, k, held, run');
      assert Objects(held')[..|held|] == Objects(held);
    case GiveBack(_, which) =>
      held' := held;
      if which < |held| {
        held', run' := Return(al, k, held, which, run');
        assert Objects(held') == RemoveAt(Objects(held), which);
      }
  }

  lemma SmallCaches(al: BlockObjAllocator, n: nat)
    requires al.Valid() && forall k :: 0 <= k < |al.View().caches| ==>
      |al.View().caches[k].free| <= 2 && al.View().caches[k].freeSize < 2 * n
    ensures forall a :: a in al.threadAllocators ==> |a.freeList| <= 2 && a.freeSize < 2 * n
  {
    hide BlockObjAllocator.Valid, BatchOf;
    forall a | a in al.threadAllocators ensures |a.freeList| <= 2 && a.freeSize < 2 * n {
      var k :| 0 <= k < |al.threadAllocators| && al.threadAllocators[k] == a;
      assert al.View().caches[k] == a.View();
    }
  }

  lemma ViewFields(al: BlockObjAllocator)
    requires al.Valid()
    ensures var s := al.View();
      && s.n == al.initSize && s.blocks == al.memoryBlocks && s.live == al.live && s.peak == al.peak
      && |s.central| == |al.freeList| && |s.caches| == |al.threadAllocators|
  {
    hide BlockObjAllocator.Valid, BatchOf;
  }

  /** What is out, cached and central adds up to the blocks, which the most that was out at once bounds. */
  ghost predicate Accounted(n: nat, threads: nat, blocks: nat, central: nat, cached: int, out: nat, peak: nat) {
    && out + cached + n * central == n * blocks
    && (blocks > 0 ==> peak <= n * blocks <= peak + (threads - 1) * (2 * n - 1) + n - 1)
  }

  lemma AccountedState(run: seq<State>)
    requires IsRun(Init, Next, run)
    ensures var s := run[|run| - 1];
      && Accounted(s.n, |s.caches|, s.blocks, |s.central|, CachedCount(s.caches), |s.live|, s.peak)
      && forall k :: 0 <= k < |s.caches| ==> |s.caches[k].free| <= 2 && s.caches[k].freeSize < 2 * s.n
  {
    MemoryBound(run, |run| - 1);
    hide CachedCount;
  }

  lemma Consequences(al: BlockObjAllocator, held: seq<L.ListNode>, run: seq<State>)
    requires At(al, held, run)
    ensures Accounted(al.initSize, |al.threadAllocators|, al.memoryBlocks, |al.freeList|,
                      CachedCount(al.View().caches), |held|, al.peak)
    ensures forall a :: a in al.threadAllocators ==> |a.freeList| <= 2 && a.freeSize < 2 * al.initSize
  {
    AccountedState(run);
    hide IsRun, BlockObjAllocator.Valid, BlockObjAllocator.View, CachedCount, NodesOf, Live, Accounted;
    ViewFields(al);
    AsManyAsLive(held, al.View().live);
    SmallCaches(al, al.initSize);
  }

  method Start(n: nat) returns (al: BlockObjAllocator, ghost run: seq<State>)
    requires n >= 1
    ensures At(al, [], run) && fresh(Footprint(al, [])) && al.initSize == n && al.threadAllocators == []
  {
    al := new BlockObjAllocator(n);
    run := [al.View()];
  }

  method ServeAll(n: nat, calls: seq<Call>)
    returns (al: BlockObjAllocator, table: map<nat, nat>, held: seq<L.ListNode>, ghost run: seq<State>)
    requires n >= 1
    ensures At(al, held, run) && al.initSize == n
    ensures OwnCaches(table, |al.threadAllocators|) && (table.Keys, |held|) == Count(calls)
  {
    hide At, Footprint, CountCall;
    al, run := Start(n);
    table, held := map[], [];
    for i := 0 to |calls|
      invariant At(al, held, run) && fresh(Footprint(al, held))
      invariant OwnCaches(table, |al.threadAllocators|) && (table.Keys, |held|) == Count(calls[..i])
    {
      assert calls[..i + 1][..i] == calls[..i];
      table, held, run := ServeOne(al, calls[i], table, held, run);
    }
    assert calls[..|calls|] == calls;
  }

  /**
  Serves any calls of any threads, started on a new allocator: nothing is handed out twice or lost, and the memory
  that the code asks for is bounded by the most nodes that were out at once.
  */
  method Serve(n: nat, calls: seq<Call>)
    returns (al: BlockObjAllocator, table: map<nat, nat>, held: seq<L.ListNode>, ghost run: seq<State>)
    requires n >= 1
    ensures At(al, held, run) && al.initSize == n
    ensures OwnCaches(table, |al.threadAllocators|) && (table.Keys, |held|) == Count(calls)
    ensures Accounted(n, |al.threadAllocators|, al.memoryBlocks, |al.freeList|, CachedCount(al.View().caches), |held|,
                      al.peak)
    ensures forall a :: a in al.threadAllocators ==> |a.freeList| <= 2 && a.freeSize < 2 * n
  {
    hide At, Count;
    al, table, held, run := ServeAll(n, calls);
    Consequences(al, held, run);
  }
}
