/**
block_obj_allocator.c with the lists it uses: a batch is a linked list of the free objects themselves, whose first
words are the links, and caches and the central list are lists of such batches. Every method is proved against the
functions of module Pool, which see a node as the object that lies there.
*/
module Allocator {
  import opened Pool
  import opened Sequences
  import L = LinkList

  // ---------- batches of nodes ----------

  ghost function ObjOf(n: L.ListNode): Obj {
    Obj(n.block, n.index)
  }

  ghost function BatchOf(spine: seq<L.ListNode>): (b: Batch)
    ensures |b| == |spine| && forall i :: 0 <= i < |b| ==> b[i] == ObjOf(spine[i])
  {
    seq(|spine|, i requires 0 <= i < |spine| => ObjOf(spine[i]))
  }

  ghost function BatchesOf(lists: seq<L.LinkList>): (batches: seq<Batch>)
    reads lists
    ensures |batches| == |lists| && forall i :: 0 <= i < |batches| ==> batches[i] == BatchOf(lists[i].spine)
  {
    seq(|lists|, i requires 0 <= i < |lists| reads lists => BatchOf(lists[i].spine))
  }

  ghost function Members(lists: seq<L.LinkList>): set<L.LinkList> {
    set l | l in lists
  }

  ghost function NodesOf(lists: set<L.LinkList>): (nodes: set<L.ListNode>)
    reads lists
    ensures forall l, n :: l in lists && n in l.spine ==> n in nodes
  {
    set l, n | l in lists && n in l.spine :: n
  }

  /** The lists are in order and share no node. */
  ghost predicate Apart(lists: set<L.LinkList>)
    reads lists, NodesOf(lists)
  {
    && (forall l :: l in lists ==> l.Valid())
    && (forall l, m, n :: l in lists && m in lists && l != m && n in l.spine ==> n !in m.spine)
  }

  /** Taking the first object of one of the lists. */
  method PopFrom(m: L.LinkList, ghost lists: set<L.LinkList>) returns (ptr: L.ListNode)
    requires Apart(lists) && m in lists && m.spine != []
    modifies m, m.head
    ensures Apart(lists) && m.Valid()
    ensures ptr == old(m.spine)[0] && m.spine == old(m.spine)[1..] && ptr.next == null
    ensures NodesOf(lists) == old(NodesOf(lists)) - {ptr}
  {
    assert m.spine[0] in m.spine;
    var p := m.Pop();
    ptr := p;
  }

  /** Pushing an object that is in none of the lists onto one of them. */
  method PushTo(m: L.LinkList, n: L.ListNode, ghost lists: set<L.LinkList>)
    requires Apart(lists) && m in lists && n !in NodesOf(lists)
    modifies m, n, m.tail
    ensures Apart(lists) && m.Valid()
    ensures m.spine == old(m.spine) + if old(n.next) == null then [n] else []
    ensures NodesOf(lists) == old(NodesOf(lists)) + if old(n.next) == null then {n} else {}
  {
    assert m.tail != null ==> m.tail in m.spine;
    m.PushBack(n);
  }

  /** `init_mem_block`: pushes the objects of a fresh, zeroed block onto a batch. */
  method InitMemBlock(m: L.LinkList, ghost block: nat, initSize: nat)
    requires m.Valid()
    modifies m, m.tail
    ensures m.Valid()
    ensures BatchOf(m.spine) == BatchOf(old(m.spine)) + Carve(block, initSize)
    ensures forall n :: n in m.spine ==> n in old(m.spine) || fresh(n)
  {
    var i := 0;
    assert BatchOf(m.spine) == BatchOf(m.spine) + Carve(block, 0);
    while i < initSize
      invariant 0 <= i <= initSize
      invariant m.Valid()
      invariant m.tail == old(m.tail) || fresh(m.tail)
      invariant forall n :: n in m.spine ==> n in old(m.spine) || fresh(n)
      invariant BatchOf(m.spine) == BatchOf(old(m.spine)) + Carve(block, i)
    {
      var l := new L.ListNode(block, i);
      ghost var spine := m.spine;
      m.PushBack(l);
      assert BatchOf(spine + [l]) == BatchOf(spine) + [ObjOf(l)];
      assert Carve(block, i + 1) == Carve(block, i) + [Obj(block, i)];
      i := i + 1;
    }
  }

  // ---------- lists of batches ----------

  lemma RemoveBatch(lists: seq<L.LinkList>, i: nat)
    requires i < |lists|
    ensures BatchesOf(RemoveAt(lists, i)) == RemoveAt(BatchesOf(lists), i)
    ensures lists[i] in lists
    ensures NoRepeats(lists) ==> Members(RemoveAt(lists, i)) == Members(lists) - {lists[i]}
  {
  }

  lemma AppendBatch(lists: seq<L.LinkList>, m: L.LinkList)
    ensures BatchesOf(lists + [m]) == BatchesOf(lists) + [BatchOf(m.spine)]
    ensures Members(lists + [m]) == Members(lists) + {m}
  {
  }

  lemma FirstBatch(lists: seq<L.LinkList>)
    requires lists != []
    ensures BatchesOf(lists[1..]) == BatchesOf(lists)[1..] && BatchesOf(lists)[0] == BatchOf(lists[0].spine)
    ensures NoRepeats(lists) ==> Members(lists[1..]) == Members(lists) - {lists[0]}
  {
  }

  /** A batch that goes from one list to the end of another is still in one place. */
  lemma MovedBatch(free: seq<L.LinkList>, empty: seq<L.LinkList>, i: nat)
    requires NoRepeats(free + empty) && i < |free|
    ensures NoRepeats(RemoveAt(free, i) + (empty + [free[i]]))
    ensures Members(RemoveAt(free, i)) + Members(empty + [free[i]]) == Members(free) + Members(empty)
  {
    SplitRepeats(free, empty);
    SplitRepeats(RemoveAt(free, i), empty + [free[i]]);
    RemoveBatch(free, i);
    AppendBatch(empty, free[i]);
  }

  lemma SplitRepeats(a: seq<L.LinkList>, b: seq<L.LinkList>)
    ensures NoRepeats(a + b) <==> NoRepeats(a) && NoRepeats(b) && Members(a) !! Members(b)
  {
    var s := a + b;
    if NoRepeats(s) {
      forall i, j | 0 <= i < j < |a| ensures a[i] != a[j] { assert s[i] != s[j]; }
      forall i, j | 0 <= i < j < |b| ensures b[i] != b[j] { assert s[|a| + i] != s[|a| + j]; }
      forall i, j | 0 <= i < |a| && 0 <= j < |b| ensures a[i] != b[j] { assert s[i] != s[|a| + j]; }
    }
    if NoRepeats(a) && NoRepeats(b) && Members(a) !! Members(b) {
      forall i, j | 0 <= i < j < |s| ensures s[i] != s[j] {
        assert i < |a| ==> s[i] in Members(a);
        assert j >= |a| ==> s[j] in Members(b);
      }
    }
  }

  lemma TailBatch(spine: seq<L.ListNode>)
    requires spine != []
    ensures BatchOf(spine) != [] && BatchOf(spine)[0] == ObjOf(spine[0])
    ensures BatchOf(spine[1..]) == BatchOf(spine)[1..] && |BatchOf(spine[1..])| == |spine[1..]|
  {
  }

  /** When one batch has changed, all others are as they were. */
  lemma OneChanged(a: seq<L.LinkList>, b: seq<L.LinkList>, i: nat, was: seq<Batch>, other: seq<Batch>)
    requires NoRepeats(a + b) && i < |a| == |was| && |b| == |other|
    requires forall j :: 0 <= j < |a| && a[j] != a[i] ==> BatchOf(a[j].spine) == was[j]
    requires forall j :: 0 <= j < |b| && b[j] != a[i] ==> BatchOf(b[j].spine) == other[j]
    ensures BatchesOf(a) == was[i := BatchOf(a[i].spine)] && BatchesOf(b) == other
  {
    hide BatchOf;
    forall j | 0 <= j < |a| && j != i ensures a[j] != a[i] {
      assert (a + b)[j] != (a + b)[i];
    }
    forall j | 0 <= j < |b| ensures b[j] != a[i] {
      assert (a + b)[|a| + j] != (a + b)[i];
    }
  }

  /** One thread's cache. `world` is all batches there are, of this and other threads and the central list. */
  class ThreadAllocator {
    var freeList: seq<L.LinkList>
    var emptyList: seq<L.LinkList>
    var freeSize: int

    ghost function Lists(): set<L.LinkList>
      reads this
    {
      Members(freeList) + Members(emptyList)
    }

    /** No batch is in two places. */
    ghost predicate Distinct()
      reads this
    {
      NoRepeats(freeList + emptyList)
    }

    ghost function View(): Cache
      reads this, Lists()
    {
      Cache(BatchesOf(freeList), BatchesOf(emptyList), freeSize)
    }

    constructor ()
      ensures Distinct() && View() == EMPTY_CACHE && Lists() == {}
    {
      freeList, emptyList, freeSize := [], [], 0;
    }

    /** Moves a batch from which the last object was taken to the empty list. */
    method Retire(i: nat)
      requires Distinct() && i < |freeList|
      modifies `freeList, `emptyList
      ensures Distinct() && Lists() == old(Lists())
      ensures BatchesOf(freeList) == RemoveAt(old(BatchesOf(freeList)), i)
      ensures BatchesOf(emptyList) == old(BatchesOf(emptyList)) + [old(BatchesOf(freeList))[i]]
    {
      hide NoRepeats, BatchesOf, Members, RemoveAt;
      MovedBatch(freeList, emptyList, i);
      RemoveBatch(freeList, i);
      AppendBatch(emptyList, freeList[i]);
      freeList, emptyList := RemoveAt(freeList, i), emptyList + [freeList[i]];
    }

    /** Pops the first object of batch `i`. */
    method PopBatch(i: nat, ghost world: set<L.LinkList>) returns (ptr: L.ListNode)
      requires Distinct() && i < |freeList| && freeList[i].spine != []
      requires Lists() <= world && Apart(world)
      modifies freeList[i], freeList[i].head
      ensures Apart(world) && freeList[i].size == |BatchesOf(freeList)[i]|
      ensures var m := old(BatchesOf(freeList))[i];
        m != [] && ObjOf(ptr) == m[0] && BatchesOf(freeList) == old(BatchesOf(freeList))[i := m[1..]]
      ensures BatchesOf(emptyList) == old(BatchesOf(emptyList))
      ensures ptr.next == null && ptr in old(NodesOf(world)) && NodesOf(world) == old(NodesOf(world)) - {ptr}
    {
      hide Apart, BatchesOf, BatchOf;
      var m := freeList[i];
      assert m in Lists();
      ghost var free, empty := BatchesOf(freeList), BatchesOf(emptyList);
      TailBatch(m.spine);
      ptr := PopFrom(m, world);
      OneChanged(freeList, emptyList, i, free, empty);
    }

    /** The end of `thread_allocator_alloc`; a batch that runs out moves to the empty list. */
    method Take(i: nat, ghost world: set<L.LinkList>, ghost central: seq<Batch>, ghost blocks: nat)
      returns (ptr: L.ListNode)
      requires Distinct() && i < |freeList| && freeList[i].spine != []
      requires Lists() <= world && Apart(world)
      modifies this, freeList[i], freeList[i].head
      ensures Distinct() && Lists() == old(Lists()) && Apart(world)
      ensures Got(ObjOf(ptr), View(), central, blocks) == TakeFrom(old(View()), i, central, blocks)
      ensures ptr.next == null && ptr in old(NodesOf(world)) && NodesOf(world) == old(NodesOf(world)) - {ptr}
    {
      hide Apart, NoRepeats, BatchesOf, Members, RemoveAt;
      ghost var free := BatchesOf(freeList);
      ptr := PopBatch(i, world);
      freeSize := freeSize - 1;
      ghost var popped := free[i := free[i][1..]];
      assert RemoveAt(popped, i) == RemoveAt(free, i) by { RemoveUpdated(free, i, free[i][1..]); }
      if freeList[i].size == 0 {
        Retire(i);
      }
    }

    /** The scan of `thread_allocator_dealloc` from the back of the free list for a batch that is not full. */
    method FindRoom(initSize: nat, ghost world: set<L.LinkList>) returns (i: int)
      requires Lists() <= world && Apart(world)
      ensures i == LastWithRoom(initSize, BatchesOf(freeList), |freeList|) && Apart(world)
    {
      ghost var free := BatchesOf(freeList);
      forall j | 0 <= j < |freeList| ensures freeList[j].size == |free[j]| {
        assert freeList[j] in Lists();
      }
      hide Apart, BatchesOf, Members;
      i := |freeList| - 1;
      while i >= 0 && freeList[i].size >= initSize
        invariant -1 <= i < |freeList|
        invariant LastWithRoom(initSize, free, i + 1) == LastWithRoom(initSize, free, |free|)
      {
        i := i - 1;
      }
    }

    /** A batch from the empty list for reuse, or a new one. */
    method SpareBatch(ghost world: set<L.LinkList>) returns (m: L.LinkList)
      requires Distinct() && Lists() <= world && Apart(world)
      modifies `emptyList
      ensures Distinct() && m !in Lists() && m.Valid() && Apart(world + {m})
      ensures if old(emptyList) != [] then
                m in old(Lists()) && BatchOf(m.spine) == old(BatchesOf(emptyList))[0] &&
                Lists() == old(Lists()) - {m} && BatchesOf(emptyList) == old(BatchesOf(emptyList))[1..]
              else
                fresh(m) && m.spine == [] && BatchesOf(emptyList) == [] && Lists() == old(Lists())
    {
      hide NoRepeats, BatchesOf, BatchOf;
      if emptyList != [] {
        m := emptyList[0];
        SpareTaken(freeList, emptyList);
        emptyList := emptyList[1..];
        assert m in world && world + {m} == world;
      } else {
        m := new L.LinkList();
      }
    }

    /** Puts a batch at the end of the free list. */
    method AddBatch(m: L.LinkList, ghost world: set<L.LinkList>)
      requires Distinct() && m !in Lists() && Lists() <= world && Apart(world + {m})
      modifies `freeList
      ensures Distinct() && Lists() == old(Lists()) + {m} && Apart(world + {m})
      ensures BatchesOf(freeList) == old(BatchesOf(freeList)) + [BatchOf(m.spine)]
      ensures BatchesOf(emptyList) == old(BatchesOf(emptyList))
    {
      hide NoRepeats, BatchesOf, BatchOf, Members;
      AddedBatch(freeList, emptyList, m);
      freeList := freeList + [m];
    }

    /** The batch that an allocation is served from goes to the end of the free list. */
    method PushBatch(m: L.LinkList, ghost world: set<L.LinkList>)
      requires Distinct() && m !in Lists() && Lists() <= world && Apart(world + {m})
      modifies `freeList, `freeSize
      ensures Distinct() && Lists() == old(Lists()) + {m} && Apart(world + {m})
      ensures var c, b := old(View()), BatchOf(m.spine); View() == Cache(c.free + [b], c.empty, c.freeSize + |b|)
      ensures NodesOf(world + {m}) == old(NodesOf(world + {m}))
    {
      hide NoRepeats, BatchesOf, BatchOf, Members;
      assert m.Valid();
      freeSize := freeSize + m.size;
      AddBatch(m, world);
    }

    /** A spare batch with the objects of a new block. */
    method CarveSpare(ghost block: nat, initSize: nat, ghost world: set<L.LinkList>) returns (m: L.LinkList)
      requires Distinct() && Lists() <= world && Apart(world)
      modifies `emptyList, Lists(), NodesOf(Lists())
      ensures Distinct() && m !in Lists() && Apart(world + {m}) && old(Lists()) <= Lists() + {m} <= world + {m}
      ensures m in old(Lists()) || fresh(m)
      ensures forall l :: l in Lists() ==> l in old(Lists())
      ensures var c := old(View());
        && View() == c.(empty := if c.empty != [] then c.empty[1..] else [])
        && BatchOf(m.spine) == if c.empty != [] then c.empty[0] + Carve(block, initSize) else Carve(block, initSize)
      ensures forall n :: n in NodesOf(world + {m}) ==> n in old(NodesOf(world)) || fresh(n)
    {
      hide Apart, BatchesOf, BatchOf, NoRepeats, Distinct;
      m := SpareBatch(world);
      TailOf(m);
      assert [] + Carve(block, initSize) == Carve(block, initSize);
      CarveBatch(m, block, initSize, world + {m});
      assert forall l :: l in freeList || l in emptyList ==> l != m;
    }

    /** The refill of an allocation from a new block. */
    method RefillFromBlock(ghost block: nat, initSize: nat, ghost world: set<L.LinkList>)
      requires Distinct() && Lists() <= world && Apart(world)
      modifies this, Lists(), NodesOf(Lists())
      ensures Distinct() && Apart(world + Lists()) && old(Lists()) <= Lists()
      ensures forall l :: l in Lists() ==> l in old(Lists()) || fresh(l)
      ensures var c := old(View());
        var b := if c.empty != [] then c.empty[0] + Carve(block, initSize) else Carve(block, initSize);
        View() == Cache(c.free + [b], if c.empty != [] then c.empty[1..] else [], c.freeSize + |b|)
      ensures forall n :: n in NodesOf(world + Lists()) ==> n in old(NodesOf(world)) || fresh(n)
    {
      hide Apart, BatchOf, Members, NoRepeats, View, Distinct, NodesOf;
      var m := CarveSpare(block, initSize, world);
      PushBatch(m, world);
      assert world + Lists() == world + {m};
    }

    /** A batch that has room, found or started. */
    method MakeRoomIn(initSize: nat, ghost world: set<L.LinkList>) returns (i: nat)
      requires Distinct() && Lists() <= world && Apart(world)
      modifies `freeList, `emptyList
      ensures Distinct() && i < |freeList| && Apart(world + Lists())
      ensures (View(), i) == MakeRoom(initSize, old(View()))
      ensures old(Lists()) <= Lists()
      ensures forall l :: l in Lists() ==> l in old(Lists()) || (fresh(l) && l.spine == [])
      ensures NodesOf(world + Lists()) == old(NodesOf(world))
    {
      hide NoRepeats, BatchesOf, BatchOf, Apart, Members, Lists, Distinct;
      var room := FindRoom(initSize, world);
      if room >= 0 {
        i := room;
        assert world + Lists() == world;
      } else {
        var m := SpareBatch(world);
        i := |freeList|;
        AddBatch(m, world);
        assert world + Lists() == world + {m};
      }
    }

    /** Pushes an object onto batch `i`, if its first word is null, and counts it in any case. */
    method PushObject(i: nat, ptr: L.ListNode, ghost world: set<L.LinkList>)
      requires Distinct() && i < |freeList| && Lists() <= world && Apart(world) && ptr !in NodesOf(world)
      modifies freeList[i], ptr, freeList[i].tail, `freeSize
      ensures Apart(world) && freeList[i].size == |BatchesOf(freeList)[i]|
      ensures freeSize == old(freeSize) + 1
      ensures var m := old(BatchesOf(freeList))[i];
        BatchesOf(freeList) == old(BatchesOf(freeList))[i := if old(ptr.next) == null then m + [ObjOf(ptr)] else m]
      ensures BatchesOf(emptyList) == old(BatchesOf(emptyList))
      ensures NodesOf(world) == old(NodesOf(world)) + if old(ptr.next) == null then {ptr} else {}
    {
      hide Apart, BatchesOf, BatchOf;
      var m := freeList[i];
      assert m in Lists();
      ghost var free, empty := BatchesOf(freeList), BatchesOf(emptyList);
      LongerBatch(m.spine, ptr);
      PushTo(m, ptr, world);
      OneChanged(freeList, emptyList, i, free, empty);
      freeSize := freeSize + 1;
    }

    /** A batch that has become full leaves a cache of two batches' worth; the caller takes it to the central list. */
    method TakeFull(initSize: nat, i: nat, ghost central: seq<Batch>) returns (back: seq<L.LinkList>)
      requires Distinct() && i < |freeList| && freeList[i].size == |BatchesOf(freeList)[i]|
      modifies `freeList, `freeSize
      ensures (View(), central + BatchesOf(back)) == GiveBack(initSize, old(View()), i, central)
      ensures Distinct() && |back| <= 1 && Lists() !! Members(back) && Lists() + Members(back) == old(Lists())
    {
      hide NoRepeats, BatchesOf, BatchOf, RemoveAt, Members;
      var m := freeList[i];
      back := [];
      NoBatches(central);
      OneBatch(m);
      FullTaken(freeList, emptyList, i);
      if m.size == initSize && freeSize >= initSize * 2 {
        freeSize := freeSize - m.size;
        freeList := RemoveAt(freeList, i);
        back := [m];
      }
    }

    /** Pushes an object onto batch `i`, and hands out the batch if the cache then holds too much. */
    method PutInto(initSize: nat, i: nat, ptr: L.ListNode, ghost world: set<L.LinkList>, ghost central: seq<Batch>)
      returns (back: seq<L.LinkList>)
      requires Distinct() && i < |freeList| && Lists() <= world && Apart(world) && ptr !in NodesOf(world)
      modifies this, freeList[i], ptr, freeList[i].tail
      ensures var c := old(View());
        var m := if old(ptr.next) == null then c.free[i] + [ObjOf(ptr)] else c.free[i];
        (View(), central + BatchesOf(back)) ==
        GiveBack(initSize, c.(free := c.free[i := m], freeSize := c.freeSize + 1), i, central)
      ensures Distinct() && |back| <= 1 && Lists() !! Members(back) && Lists() + Members(back) == old(Lists())
      ensures Apart(world)
      ensures NodesOf(world) == old(NodesOf(world)) + if old(ptr.next) == null then {ptr} else {}
    {
      hide NoRepeats, BatchesOf, BatchOf, Members, GiveBack, Apart;
      PushObject(i, ptr, world);
      back := TakeFull(initSize, i, central);
    }

    /** `thread_allocator_dealloc`: puts an object into a batch with room. */
    method Put(initSize: nat, ptr: L.ListNode, ghost world: set<L.LinkList>, ghost central: seq<Batch>)
      returns (back: seq<L.LinkList>)
      requires Distinct() && Lists() <= world && Apart(world) && ptr !in NodesOf(world)
      modifies this, Lists(), NodesOf(Lists()), ptr
      ensures (View(), central + BatchesOf(back)) ==
              DeallocTo(initSize, old(View()), central, ObjOf(ptr), old(ptr.next) == null)
      ensures Distinct() && |back| <= 1 && Lists() !! Members(back) && old(Lists()) <= Lists() + Members(back)
      ensures forall l :: l in Lists() + Members(back) ==> l in old(Lists()) || fresh(l)
      ensures Apart(world + (Lists() + Members(back)))
      ensures NodesOf(world + (Lists() + Members(back))) ==
              old(NodesOf(world)) + if old(ptr.next) == null then {ptr} else {}
    {
      hide NoRepeats, BatchesOf, BatchOf, Members, MakeRoom, GiveBack, Apart;
      var i := MakeRoomIn(initSize, world);
      ghost var w := world + Lists();
      TailKnown(freeList, emptyList, i, w);
      back := PutInto(initSize, i, ptr, w, central);
    }
  }

  lemma TailKnown(free: seq<L.LinkList>, empty: seq<L.LinkList>, i: nat, world: set<L.LinkList>)
    requires i < |free| && Members(free) + Members(empty) <= world && Apart(world)
    ensures free[i] in Members(free) + Members(empty)
    ensures free[i].spine == [] ==> free[i].tail == null
    ensures free[i].spine != [] ==> free[i].tail in NodesOf({free[i]})
  {
    var l := free[i];
    assert l in Members(free) && l in world && l.Valid();
    assert l.spine != [] ==> l.tail == l.spine[|l.spine| - 1] && l.tail in l.spine;
  }

  lemma HeadKnown(free: seq<L.LinkList>, empty: seq<L.LinkList>, i: nat, world: set<L.LinkList>)
    requires i < |free| && Members(free) + Members(empty) <= world && Apart(world) && free[i].spine != []
    ensures free[i] in Members(free) + Members(empty) && free[i] in world && free[i].head in NodesOf(world)
  {
    var l := free[i];
    assert l in Members(free) && l in world && l.Valid();
    assert l.head == l.spine[0] && l.spine[0] in l.spine;
  }

  lemma TailOf(m: L.LinkList)
    requires m.Valid()
    ensures m.tail != null ==> m.tail in m.spine
    ensures m.spine == [] ==> m.tail == null && BatchOf(m.spine) == []
  {
  }

  lemma LongerBatch(spine: seq<L.ListNode>, n: L.ListNode)
    ensures BatchOf(spine + [n]) == BatchOf(spine) + [ObjOf(n)]
    ensures BatchOf(spine + []) == BatchOf(spine)
  {
  }

  lemma NoBatches(central: seq<Batch>)
    ensures central + BatchesOf([]) == central && Members([]) == {}
  {
  }

  lemma OneBatch(m: L.LinkList)
    ensures BatchesOf([m]) == [BatchOf(m.spine)] && Members([m]) == {m}
  {
  }

  lemma FullTaken(free: seq<L.LinkList>, empty: seq<L.LinkList>, i: nat)
    requires NoRepeats(free + empty) && i < |free|
    ensures NoRepeats(RemoveAt(free, i) + empty)
    ensures BatchesOf(RemoveAt(free, i)) == RemoveAt(BatchesOf(free), i)
    ensures BatchesOf(free)[i] == BatchOf(free[i].spine)
    ensures var rest := Members(RemoveAt(free, i)) + Members(empty);
      free[i] !in rest && rest + {free[i]} == Members(free) + Members(empty)
  {
    SplitRepeats(free, empty);
    SplitRepeats(RemoveAt(free, i), empty);
    RemoveBatch(free, i);
  }

  lemma AddedBatch(free: seq<L.LinkList>, empty: seq<L.LinkList>, m: L.LinkList)
    requires NoRepeats(free + empty) && m !in Members(free) + Members(empty)
    ensures NoRepeats((free + [m]) + empty)
    ensures Members(free + [m]) + Members(empty) == Members(free) + Members(empty) + {m}
    ensures BatchesOf(free + [m]) == BatchesOf(free) + [BatchOf(m.spine)]
  {
    SplitRepeats(free, empty);
    SplitRepeats(free + [m], empty);
    AppendBatch(free, m);
  }

  lemma SpareTaken(free: seq<L.LinkList>, empty: seq<L.LinkList>)
    requires NoRepeats(free + empty) && empty != []
    ensures NoRepeats(free + empty[1..]) && empty[0] !in Members(free) + Members(empty[1..])
    ensures Members(free) + Members(empty[1..]) == Members(free) + Members(empty) - {empty[0]}
    ensures BatchesOf(empty[1..]) == BatchesOf(empty)[1..] && BatchesOf(empty)[0] == BatchOf(empty[0].spine)
  {
    SplitRepeats(free, empty);
    SplitRepeats(free, empty[1..]);
    FirstBatch(empty);
  }

  lemma RemoveUpdated(batches: seq<Batch>, i: nat, b: Batch)
    requires i < |batches|
    ensures RemoveAt(batches[i := b], i) == RemoveAt(batches, i)
  {
  }

  /** `init_mem_block` on a batch that shares no node with others. */
  method CarveBatch(m: L.LinkList, ghost block: nat, initSize: nat, ghost lists: set<L.LinkList>)
    requires Apart(lists) && m in lists
    modifies m, m.tail
    ensures Apart(lists)
    ensures BatchOf(m.spine) == BatchOf(old(m.spine)) + Carve(block, initSize)
    ensures forall n :: n in NodesOf(lists) ==> n in old(NodesOf(lists)) || fresh(n)
  {
    hide BatchOf;
    assert m.tail != null ==> m.tail in m.spine;
    InitMemBlock(m, block, initSize);
  }

  // ---------- who has which batch ----------

  type Lists = set<L.LinkList>

  ghost function OwnedBy(tas: seq<ThreadAllocator>): (owned: seq<Lists>)
    reads tas
    ensures |owned| == |tas| && forall k :: 0 <= k < |tas| ==> owned[k] == tas[k].Lists()
  {
    seq(|tas|, k requires 0 <= k < |tas| reads tas => tas[k].Lists())
  }

  ghost function Union(owned: seq<Lists>): (all: Lists)
    ensures forall k, l :: 0 <= k < |owned| && l in owned[k] ==> l in all
    ensures forall l :: l in all ==> exists k :: 0 <= k < |owned| && l in owned[k]
  {
    if owned == [] then {} else owned[0] + Union(owned[1..])
  }

  ghost function CachesOf(tas: seq<ThreadAllocator>): (caches: seq<Cache>)
    reads tas, Union(OwnedBy(tas))
    ensures |caches| == |tas| && forall k :: 0 <= k < |caches| ==> caches[k] == tas[k].View()
  {
    seq(|tas|, k requires 0 <= k < |tas| reads tas, Union(OwnedBy(tas)) =>
      assert OwnedBy(tas)[k] == tas[k].Lists(); tas[k].View())
  }

  /** No batch is with two threads, or with a thread and in the central list. */
  ghost predicate Disjoint(central: seq<L.LinkList>, owned: seq<Lists>) {
    && NoRepeats(central)
    && (forall k :: 0 <= k < |owned| ==> owned[k] !! Members(central))
    && (forall j, k :: 0 <= j < k < |owned| ==> owned[j] !! owned[k])
  }

  /** The first central batch goes to a thread. */
  lemma TakenFromCentral(central: seq<L.LinkList>, owned: seq<Lists>, k: nat)
    requires Disjoint(central, owned) && central != [] && k < |owned|
    ensures central[0] !in owned[k] && central[0] in Members(central)
    ensures var owned' := owned[k := owned[k] + {central[0]}];
      Disjoint(central[1..], owned') && Members(central[1..]) + Union(owned') == Members(central) + Union(owned)
  {
    FirstBatch(central);
    assert central[0] in Members(central);
    UnionUpdate(owned, k, owned[k] + {central[0]});
  }

  /** A thread exchanges some of its batches for others that nobody has, and gives some to the central list. */
  lemma Exchanged(central: seq<L.LinkList>, owned: seq<Lists>, k: nat, mine: Lists, back: seq<L.LinkList>)
    requires Disjoint(central, owned) && k < |owned| && |back| <= 1
    requires mine !! Members(back) && owned[k] <= mine + Members(back)
    requires forall l :: l in mine + Members(back) && l !in owned[k] ==> l !in Members(central) + Union(owned)
    ensures Disjoint(central + back, owned[k := mine])
    ensures Members(central + back) + Union(owned[k := mine]) ==
            Members(central) + Union(owned) + (mine + Members(back))
  {
    SplitRepeats(central, back);
    UnionUpdate(owned, k, mine);
  }

  lemma UnionUpdate(owned: seq<Lists>, k: nat, mine: Lists)
    requires k < |owned|
    ensures owned[k] <= Union(owned) && mine <= Union(owned[k := mine])
    ensures forall l :: l in Union(owned[k := mine]) ==> l in Union(owned) || l in mine
    ensures forall l :: l in Union(owned) && l !in owned[k] ==> l in Union(owned[k := mine])
  {
    var owned' := owned[k := mine];
    forall l | l in Union(owned') ensures l in Union(owned) || l in mine {
      var j :| 0 <= j < |owned'| && l in owned'[j];
    }
    forall l | l in Union(owned) && l !in owned[k] ensures l in Union(owned') {
      var j :| 0 <= j < |owned| && l in owned[j];
      assert l in owned'[j];
    }
    assert owned'[k] == mine;
  }

  /** When one thread's batches have changed, those of all others are as they were. */
  lemma ThreadChanged(tas: seq<ThreadAllocator>, k: nat, owned: seq<Lists>)
    requires NoRepeats(tas) && k < |tas| == |owned|
    requires forall j :: 0 <= j < |tas| && tas[j] != tas[k] ==> tas[j].Lists() == owned[j]
    ensures OwnedBy(tas) == owned[k := tas[k].Lists()]
  {
  }

  /** The allocator shared by all threads; `live` and `peak` are history. */
  class BlockObjAllocator {
    const initSize: nat
    var freeList: seq<L.LinkList>
    var memoryBlocks: nat
    var threadAllocators: seq<ThreadAllocator>
    ghost var live: set<Obj>
    ghost var peak: nat

    /** The batches of all threads and of the central list. */
    ghost function AllLists(): Lists
      reads `freeList, `threadAllocators, threadAllocators
    {
      Members(freeList) + Union(OwnedBy(threadAllocators))
    }

    /** No batch is in two places. */
    ghost predicate Placed()
      reads `freeList, `threadAllocators, threadAllocators
    {
      && NoRepeats(threadAllocators)
      && (forall a :: a in threadAllocators ==> a.Distinct())
      && Disjoint(freeList, OwnedBy(threadAllocators))
    }

    /** Nor is an object in two batches. */
    ghost predicate Valid()
      reads `freeList, `threadAllocators, threadAllocators, AllLists(), NodesOf(AllLists())
    {
      Placed() && Apart(AllLists())
    }

    ghost function View(): State
      reads this, threadAllocators, AllLists()
    {
      State(initSize, memoryBlocks, BatchesOf(freeList), CachesOf(threadAllocators), live, peak)
    }

    /** What thread `k` has, nobody else has. */
    lemma OthersApart(k: nat)
      requires Placed() && k < |threadAllocators|
      ensures var a := threadAllocators[k];
        && a.Distinct() && a.Lists() <= AllLists()
        && (forall l :: l in a.Lists() ==> l !in freeList)
        && (forall l :: l in a.freeList ==> l in a.Lists())
        && forall j :: 0 <= j < |threadAllocators| && j != k ==>
             threadAllocators[j] != a && threadAllocators[j].Lists() !! a.Lists()
    {
      var owned := OwnedBy(threadAllocators);
      assert owned[k] == threadAllocators[k].Lists();
      forall j | 0 <= j < |threadAllocators| && j != k
        ensures threadAllocators[j].Lists() !! threadAllocators[k].Lists()
      {
        assert owned[j] == threadAllocators[j].Lists();
      }
      assert forall l :: l in owned[k] && l in freeList ==> l in Members(freeList);
    }

    constructor (initSize: nat)
      ensures Valid() && View() == State(initSize, 0, [], [], {}, 0)
      ensures threadAllocators == []
    {
      this.initSize := initSize;
      freeList, memoryBlocks, threadAllocators, live, peak := [], 0, [], {}, 0;
    }

    /** `central_get_memlist`: the first central batch, or a new block to be carved by the caller. */
    method CentralGetMemlist(k: nat, ghost world: Lists) returns (m: L.LinkList?, block: nat)
      requires Valid() && k < |threadAllocators| && world == AllLists()
      modifies this`freeList, this`memoryBlocks
      ensures Apart(world) && OwnedBy(threadAllocators) == old(OwnedBy(threadAllocators))
      ensures forall j :: 0 <= j < |threadAllocators| ==> threadAllocators[j].View() == old(threadAllocators[j].View())
      ensures NodesOf(threadAllocators[k].Lists()) == old(NodesOf(threadAllocators[k].Lists()))
      ensures NodesOf(world) == old(NodesOf(world))
      ensures if old(freeList) != [] then
                m == old(freeList)[0] && freeList == old(freeList)[1..] && memoryBlocks == old(memoryBlocks)
              else
                m == null && freeList == [] && block == old(memoryBlocks) && memoryBlocks == block + 1
    {
      hide Disjoint, NoRepeats, BatchOf, BatchesOf;
      m, block := null, 0;
      if freeList != [] {
        m, freeList := freeList[0], freeList[1..];
      } else {
        block := memoryBlocks;
        memoryBlocks := memoryBlocks + 1;
      }
    }

    /** The refill of an allocation from the central list. */
    method RefillFromCentral(k: nat, m: L.LinkList, ghost central: seq<L.LinkList>, ghost world: Lists)
      requires k < |threadAllocators| && NoRepeats(threadAllocators)
      requires forall a :: a in threadAllocators ==> a.Distinct()
      requires central != [] && m == central[0] && freeList == central[1..]
      requires Disjoint(central, OwnedBy(threadAllocators)) && Apart(world)
      requires world == Members(central) + Union(OwnedBy(threadAllocators))
      modifies threadAllocators[k]
      ensures Placed() && AllLists() == world && Apart(world)
      ensures forall j :: 0 <= j < |threadAllocators| && j != k ==>
                threadAllocators[j].View() == old(threadAllocators[j].View())
      ensures var c, b := old(threadAllocators[k].View()), BatchOf(m.spine);
        threadAllocators[k].View() == Cache(c.free + [b], c.empty, c.freeSize + |b|)
    {
      hide Apart, BatchesOf, BatchOf, Disjoint, Members, Union;
      var a := threadAllocators[k];
      ghost var owned := OwnedBy(threadAllocators);
      TakenFromCentral(central, owned, k);
      assert world + {m} == world;
      a.PushBatch(m, world);
      ThreadChanged(threadAllocators, k, owned);
    }

    /** What a refill from a new block does to the threads. */
    method RefillThread(k: nat, ghost block: nat, ghost world: Lists)
      requires Valid() && k < |threadAllocators| && world == AllLists()
      modifies threadAllocators[k], threadAllocators[k].Lists(), NodesOf(threadAllocators[k].Lists())
      ensures forall j :: 0 <= j < |threadAllocators| && j != k ==>
                threadAllocators[j].View() == old(threadAllocators[j].View())
      ensures OwnedBy(threadAllocators) == old(OwnedBy(threadAllocators))[k := threadAllocators[k].Lists()]
      ensures old(threadAllocators[k].Lists()) <= threadAllocators[k].Lists()
      ensures forall l :: l in threadAllocators[k].Lists() ==> l in old(threadAllocators[k].Lists()) || fresh(l)
      ensures forall a :: a in threadAllocators ==> a.Distinct()
      ensures Apart(world + threadAllocators[k].Lists())
      ensures var c := old(threadAllocators[k].View());
        var b := if c.empty != [] then c.empty[0] + Carve(block, initSize) else Carve(block, initSize);
        threadAllocators[k].View() ==
        Cache(c.free + [b], if c.empty != [] then c.empty[1..] else [], c.freeSize + |b|)
      ensures forall n :: n in NodesOf(world + threadAllocators[k].Lists()) ==> n in old(NodesOf(world)) || fresh(n)
    {
      hide Apart, BatchesOf, BatchOf, Disjoint, Union, NoRepeats, AllLists, ThreadAllocator.View, NodesOf;
      var a := threadAllocators[k];
      ghost var owned := OwnedBy(threadAllocators);
      OthersApart(k);
      a.RefillFromBlock(block, initSize, world);
      ThreadChanged(threadAllocators, k, owned);
      forall j | 0 <= j < |threadAllocators| && j != k
        ensures threadAllocators[j].View() == old(threadAllocators[j].View())
      {
        assert old(threadAllocators[j].Lists()) !! old(a.Lists());
      }
    }

    /** The refill of an allocation from a new block. */
    method RefillFromBlock(k: nat, ghost block: nat, ghost world: Lists)
      requires Valid() && k < |threadAllocators| && world == AllLists()
      modifies threadAllocators[k], threadAllocators[k].Lists(), NodesOf(threadAllocators[k].Lists())
      ensures Valid()
      ensures forall j :: 0 <= j < |threadAllocators| && j != k ==>
                threadAllocators[j].View() == old(threadAllocators[j].View())
      ensures var c := old(threadAllocators[k].View());
        var b := if c.empty != [] then c.empty[0] + Carve(block, initSize) else Carve(block, initSize);
        threadAllocators[k].View() ==
        Cache(c.free + [b], if c.empty != [] then c.empty[1..] else [], c.freeSize + |b|)
      ensures forall n :: n in NodesOf(AllLists()) ==> n in old(NodesOf(AllLists())) || fresh(n)
      ensures forall l :: l in AllLists() ==> l in world || fresh(l)
    {
      hide Apart, BatchesOf, BatchOf, Disjoint, Members, Union, NoRepeats;
      ghost var owned := OwnedBy(threadAllocators);
      RefillThread(k, block, world);
      NoBatches([]);
      Exchanged(freeList, owned, k, threadAllocators[k].Lists(), []);
      assert freeList + [] == freeList;
      assert AllLists() == world + threadAllocators[k].Lists();
    }

    /** The cache of thread `k` gets a batch: the first central one, or a new block carved into a spare one. */
    method Refill(k: nat, ghost world: Lists)
      requires Valid() && k < |threadAllocators| && world == AllLists()
      modifies this`freeList, this`memoryBlocks
      modifies threadAllocators[k], threadAllocators[k].Lists(), NodesOf(threadAllocators[k].Lists())
      ensures Valid()
      ensures forall j :: 0 <= j < |threadAllocators| && j != k ==>
                threadAllocators[j].View() == old(threadAllocators[j].View())
      ensures var a := threadAllocators[k];
        var r := GetBatch(initSize, old(a.View()).empty, old(BatchesOf(freeList)), old(memoryBlocks));
        a.View() == Refilled(old(a.View()), r) && BatchesOf(freeList) == r.central && memoryBlocks == r.blocks
      ensures forall n :: n in NodesOf(AllLists()) ==> n in old(NodesOf(AllLists())) || fresh(n)
      ensures forall l :: l in AllLists() ==> l in world || fresh(l)
    {
      hide Apart, BatchesOf, BatchOf, Disjoint, Members, Union, NoRepeats, ThreadAllocator.View;
      ghost var central := freeList;
      if central != [] {
        FirstBatch(central);
      }
      var m, block := CentralGetMemlist(k, world);
      if m != null {
        RefillFromCentral(k, m, central, world);
      } else {
        RefillFromBlock(k, block, world);
      }
    }

    /** What taking an object does to the threads. */
    method TakeThread(k: nat, i: nat, ghost world: Lists) returns (ptr: L.ListNode)
      requires Valid() && k < |threadAllocators| && world == AllLists()
      requires i < |threadAllocators[k].freeList| && threadAllocators[k].freeList[i].spine != []
      modifies threadAllocators[k], world, NodesOf(world)
      ensures forall j :: 0 <= j < |threadAllocators| && j != k ==>
                threadAllocators[j].View() == old(threadAllocators[j].View())
      ensures OwnedBy(threadAllocators) == old(OwnedBy(threadAllocators)) && Apart(world)
      ensures forall a :: a in threadAllocators ==> a.Distinct()
      ensures BatchesOf(freeList) == old(BatchesOf(freeList))
      ensures Got(ObjOf(ptr), threadAllocators[k].View(), BatchesOf(freeList), memoryBlocks) ==
              TakeFrom(old(threadAllocators[k].View()), i, BatchesOf(freeList), memoryBlocks)
      ensures ptr.next == null && ptr in old(NodesOf(world)) && NodesOf(world) == old(NodesOf(world)) - {ptr}
    {
      hide Apart, BatchOf, NoRepeats, Disjoint, Union, BatchesOf, AllLists, ThreadAllocator.View, NodesOf;
      var a := threadAllocators[k];
      ghost var owned, m := OwnedBy(threadAllocators), a.freeList[i];
      OthersApart(k);
      HeadKnown(a.freeList, a.emptyList, i, world);
      ptr := a.Take(i, world, BatchesOf(freeList), memoryBlocks);
      ThreadChanged(threadAllocators, k, owned);
      assert owned[k := a.Lists()] == owned;
      forall j | 0 <= j < |threadAllocators| && j != k
        ensures threadAllocators[j].View() == old(threadAllocators[j].View())
      {
        assert m !in old(threadAllocators[j].Lists());
      }
    }

    /** The end of an allocation: the object is taken from batch `i` of thread `k`. */
    method TakeObject(k: nat, i: nat, ghost world: Lists) returns (ptr: L.ListNode)
      requires Valid() && k < |threadAllocators| && world == AllLists()
      requires i < |threadAllocators[k].freeList| && threadAllocators[k].freeList[i].spine != []
      modifies threadAllocators[k], world, NodesOf(world)
      ensures Valid() && AllLists() == world
      ensures forall j :: 0 <= j < |threadAllocators| && j != k ==>
                threadAllocators[j].View() == old(threadAllocators[j].View())
      ensures BatchesOf(freeList) == old(BatchesOf(freeList))
      ensures Got(ObjOf(ptr), threadAllocators[k].View(), BatchesOf(freeList), memoryBlocks) ==
              TakeFrom(old(threadAllocators[k].View()), i, BatchesOf(freeList), memoryBlocks)
      ensures ptr.next == null && ptr in old(NodesOf(world)) && NodesOf(world) == old(NodesOf(world)) - {ptr}
    {
      hide Apart, BatchOf, NoRepeats, Disjoint, Union, BatchesOf, NodesOf;
      hide ThreadAllocator.View, ThreadAllocator.Distinct;
      ptr := TakeThread(k, i, world);
    }

    /** `thread_allocator_alloc` on the cache of thread `k`. */
    method ThreadAlloc(k: nat, ghost world: Lists) returns (ptr: L.ListNode)
      requires Valid() && k < |threadAllocators| && world == AllLists()
      requires AllocFrom(initSize, threadAllocators[k].View(), BatchesOf(freeList), memoryBlocks).Got?
      modifies this`freeList, this`memoryBlocks, threadAllocators[k], world, NodesOf(world)
      ensures Valid()
      ensures forall j :: 0 <= j < |threadAllocators| && j != k ==>
                threadAllocators[j].View() == old(threadAllocators[j].View())
      ensures Got(ObjOf(ptr), threadAllocators[k].View(), BatchesOf(freeList), memoryBlocks) ==
              AllocFrom(initSize, old(threadAllocators[k].View()), old(BatchesOf(freeList)), old(memoryBlocks))
      ensures ptr.next == null && ptr !in NodesOf(AllLists()) && (ptr in old(NodesOf(world)) || fresh(ptr))
      ensures forall n :: n in NodesOf(AllLists()) ==> n in old(NodesOf(world)) || fresh(n)
      ensures forall l :: l in AllLists() ==> l in world || fresh(l)
    {
      hide Apart, BatchesOf, BatchOf, Disjoint, Members, Union, NoRepeats;
      var i := 0;
      if threadAllocators[k].freeSize == 0 {
        i := |threadAllocators[k].freeList|;
        Refill(k, world);
      }
      ptr := TakeObject(k, i, AllLists());
    }

    /** History takes no part in the order of the lists. */
    ghost method Record(live': set<Obj>, peak': nat, world: Lists)
      requires Valid() && world == AllLists()
      modifies `live, `peak
      ensures live == live' && peak == peak' && Valid() && AllLists() == world && NodesOf(world) == old(NodesOf(world))
      ensures CachesOf(threadAllocators) == old(CachesOf(threadAllocators))
      ensures BatchesOf(freeList) == old(BatchesOf(freeList))
    {
      hide Disjoint, NoRepeats, BatchOf, BatchesOf, Placed, Union;
      live, peak := live', peak';
    }

    /** `block_obj_al_alloc` by the thread that owns cache `k`: the object is in no batch any more. */
    method Alloc(k: nat) returns (ptr: L.ListNode)
      requires Valid() && Enabled(View(), Action.Alloc(k))
      modifies this, threadAllocators[k], AllLists(), NodesOf(AllLists())
      ensures Valid() && View() == Do(old(View()), Action.Alloc(k))
      ensures threadAllocators == old(threadAllocators)
      ensures ObjOf(ptr) == AllocFrom(initSize, old(View()).caches[k], old(View()).central, old(memoryBlocks)).obj
      ensures ptr.next == null && ptr !in NodesOf(AllLists()) && (ptr in old(NodesOf(AllLists())) || fresh(ptr))
      ensures forall n :: n in NodesOf(AllLists()) ==> n in old(NodesOf(AllLists())) || fresh(n)
      ensures forall l :: l in AllLists() ==> l in old(AllLists()) || fresh(l)
    {
      hide AllocFrom, Valid, AllLists, NodesOf, BatchesOf, ThreadAllocator.View;
      ghost var caches := CachesOf(threadAllocators);
      ptr := ThreadAlloc(k, AllLists());
      ghost var live' := live + {ObjOf(ptr)};
      assert CachesOf(threadAllocators) == caches[k := threadAllocators[k].View()];
      Record(live', if peak < |live'| then |live'| else peak, AllLists());
    }

    /** What a free does to the threads. */
    method PutThread(k: nat, ptr: L.ListNode, ghost world: Lists) returns (back: seq<L.LinkList>)
      requires Valid() && k < |threadAllocators| && world == AllLists() && ptr !in NodesOf(world)
      modifies threadAllocators[k], threadAllocators[k].Lists(), NodesOf(threadAllocators[k].Lists()), ptr
      ensures forall j :: 0 <= j < |threadAllocators| && j != k ==>
                threadAllocators[j].View() == old(threadAllocators[j].View())
      ensures var mine := threadAllocators[k].Lists();
        && OwnedBy(threadAllocators) == old(OwnedBy(threadAllocators))[k := mine]
        && |back| <= 1 && mine !! Members(back) && old(threadAllocators[k].Lists()) <= mine + Members(back)
        && (forall l :: l in mine + Members(back) ==> l in old(threadAllocators[k].Lists()) || fresh(l))
        && Apart(world + (mine + Members(back)))
        && NodesOf(world + (mine + Members(back))) == old(NodesOf(world)) + if old(ptr.next) == null then {ptr} else {}
      ensures forall a :: a in threadAllocators ==> a.Distinct()
      ensures BatchesOf(freeList) == old(BatchesOf(freeList))
      ensures (threadAllocators[k].View(), BatchesOf(freeList) + BatchesOf(back)) ==
              DeallocTo(initSize, old(threadAllocators[k].View()), BatchesOf(freeList), ObjOf(ptr),
                        old(ptr.next) == null)
    {
      hide Apart, BatchesOf, BatchOf, Disjoint, Union, NoRepeats, AllLists, ThreadAllocator.View, NodesOf, DeallocTo;
      var a := threadAllocators[k];
      ghost var owned := OwnedBy(threadAllocators);
      OthersApart(k);
      back := a.Put(initSize, ptr, world, BatchesOf(freeList));
      ThreadChanged(threadAllocators, k, owned);
      forall j | 0 <= j < |threadAllocators| && j != k
        ensures threadAllocators[j].View() == old(threadAllocators[j].View())
      {
        assert old(threadAllocators[j].Lists()) !! old(a.Lists());
      }
    }

    /** `thread_allocator_dealloc` with `give_back_to_central`. */
    method ThreadDealloc(k: nat, ptr: L.ListNode, ghost world: Lists)
      requires Valid() && k < |threadAllocators| && world == AllLists() && ptr !in NodesOf(world)
      modifies `freeList, threadAllocators[k], threadAllocators[k].Lists(), NodesOf(threadAllocators[k].Lists()), ptr
      ensures Valid()
      ensures forall j :: 0 <= j < |threadAllocators| && j != k ==>
                threadAllocators[j].View() == old(threadAllocators[j].View())
      ensures (threadAllocators[k].View(), BatchesOf(freeList)) ==
              DeallocTo(initSize, old(threadAllocators[k].View()), old(BatchesOf(freeList)), ObjOf(ptr),
                        old(ptr.next) == null)
      ensures NodesOf(AllLists()) == old(NodesOf(world)) + if old(ptr.next) == null then {ptr} else {}
      ensures forall l :: l in AllLists() ==> l in world || fresh(l)
    {
      hide Apart, BatchesOf, BatchOf, Disjoint, Members, Union, NoRepeats, NodesOf, DeallocTo, ThreadAllocator.View;
      ghost var owned, central := OwnedBy(threadAllocators), freeList;
      var back := PutThread(k, ptr, world);
      Exchanged(central, owned, k, threadAllocators[k].Lists(), back);
      JoinBatches(central, back);
      GiveBackToCentral(k, back, world + (threadAllocators[k].Lists() + Members(back)));
    }

    /** `give_back_to_central`. */
    method GiveBackToCentral(k: nat, back: seq<L.LinkList>, ghost world: Lists)
      requires NoRepeats(threadAllocators) && forall a :: a in threadAllocators ==> a.Distinct()
      requires Disjoint(freeList + back, OwnedBy(threadAllocators)) && Apart(world)
      requires world == Members(freeList + back) + Union(OwnedBy(threadAllocators))
      modifies `freeList
      ensures Valid() && AllLists() == world && freeList == old(freeList) + back
      ensures forall j :: 0 <= j < |threadAllocators| ==> threadAllocators[j].View() == old(threadAllocators[j].View())
      ensures BatchesOf(freeList) == old(BatchesOf(freeList + back)) && NodesOf(world) == old(NodesOf(world))
    {
      hide Disjoint, Union, NoRepeats, BatchOf;
      freeList := freeList + back;
    }

    /** `block_obj_al_dealloc` by the thread that owns cache `k`, of an object that is in no batch. */
    method Dealloc(k: nat, ptr: L.ListNode)
      requires Valid() && ptr !in NodesOf(AllLists())
      requires Enabled(View(), Action.Dealloc(k, ObjOf(ptr), ptr.next == null))
      modifies this, threadAllocators[k], threadAllocators[k].Lists(), NodesOf(threadAllocators[k].Lists()), ptr
      ensures Valid() && View() == Do(old(View()), Action.Dealloc(k, ObjOf(ptr), old(ptr.next) == null))
      ensures threadAllocators == old(threadAllocators)
      ensures NodesOf(AllLists()) == old(NodesOf(AllLists())) + if old(ptr.next) == null then {ptr} else {}
      ensures forall l :: l in AllLists() ==> l in old(AllLists()) || fresh(l)
    {
      hide DeallocTo, Valid, AllLists, NodesOf, BatchesOf, ThreadAllocator.View;
      ghost var caches := CachesOf(threadAllocators);
      ThreadDealloc(k, ptr, AllLists());
      assert CachesOf(threadAllocators) == caches[k := threadAllocators[k].View()];
      Record(live - {ObjOf(ptr)}, peak, AllLists());
    }

    /** `create_thread_allocator`, on a thread's first use. */
    method CreateThreadAllocator()
      requires Valid()
      modifies this`threadAllocators
      ensures Valid() && View() == Do(old(View()), Join) && AllLists() == old(AllLists())
      ensures |threadAllocators| == |old(threadAllocators)| + 1 && fresh(threadAllocators[|threadAllocators| - 1])
      ensures old(threadAllocators) <= threadAllocators && NodesOf(AllLists()) == old(NodesOf(AllLists()))
    {
      hide Valid, AllLists, BatchesOf, CachesOf, NodesOf;
      AddThread(AllLists());
    }

    method AddThread(ghost world: Lists)
      requires Valid() && world == AllLists()
      modifies this`threadAllocators
      ensures Valid() && AllLists() == world && BatchesOf(freeList) == old(BatchesOf(freeList))
      ensures CachesOf(threadAllocators) == old(CachesOf(threadAllocators)) + [EMPTY_CACHE]
      ensures |threadAllocators| == |old(threadAllocators)| + 1 && fresh(threadAllocators[|threadAllocators| - 1])
      ensures old(threadAllocators) <= threadAllocators && NodesOf(world) == old(NodesOf(world))
    {
      hide BatchesOf, BatchOf, Union, Disjoint, NoRepeats, OwnedBy, CachesOf;
      hide ThreadAllocator.View, ThreadAllocator.Lists;
      var ta := new ThreadAllocator();
      OneMore(threadAllocators, ta, freeList);
      threadAllocators := threadAllocators + [ta];
    }
  }

  /** A thread without batches joins. */
  lemma OneMore(tas: seq<ThreadAllocator>, ta: ThreadAllocator, central: seq<L.LinkList>)
    requires ta.Lists() == {} && ta !in tas
    ensures OwnedBy(tas + [ta]) == OwnedBy(tas) + [{}]
    ensures Union(OwnedBy(tas + [ta])) == Union(OwnedBy(tas))
    ensures CachesOf(tas + [ta]) == CachesOf(tas) + [ta.View()]
    ensures NoRepeats(tas) ==> NoRepeats(tas + [ta])
    ensures Disjoint(central, OwnedBy(tas)) ==> Disjoint(central, OwnedBy(tas + [ta]))
  {
    hide Union, Members, BatchesOf;
    assert OwnedBy(tas + [ta]) == OwnedBy(tas) + [{}];
    UnionSame(OwnedBy(tas));
  }

  lemma UnionSame(owned: seq<Lists>)
    ensures Union(owned + [{}]) == Union(owned)
  {
    var longer := owned + [{}];
    forall l | l in Union(longer) ensures l in Union(owned) {
      var k :| 0 <= k < |longer| && l in longer[k];
      assert longer[k] == owned[k];
    }
    forall l | l in Union(owned) ensures l in Union(longer) {
      var k :| 0 <= k < |owned| && l in owned[k];
      assert l in longer[k];
    }
  }

  lemma JoinBatches(a: seq<L.LinkList>, b: seq<L.LinkList>)
    ensures BatchesOf(a + b) == BatchesOf(a) + BatchesOf(b)
  {
  }
}
