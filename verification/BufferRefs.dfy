/** Who keeps a buffer alive: reference counts, the cascade of `buffer_release`, and what it frees. */
module BufferRefs {
  import opened BufferChain

  ghost function Incoming(live: set<Buffer>, b: Buffer): set<Buffer>
    reads live
  {
    set c | c in live && c.next == b
  }

  /** Links stay among the live buffers and lead to younger ones, so chains are finite. */
  ghost predicate Linked(live: set<Buffer>)
    reads live
  {
    forall b :: b in live && b.next != null ==> b.next in live && b.stamp < b.next.stamp
  }

  /** Every count is the number of handles plus the number of links; `extra` has one more that is being given up. */
  ghost predicate Counted(live: set<Buffer>, handles: multiset<Buffer>, extra: Buffer?)
    reads live
  {
    && (forall b :: b in handles ==> b in live)
    && (forall b :: b in live ==> b.refcount == handles[b] + |Incoming(live, b)| + if b == extra then 1 else 0)
  }

  /** The buffers of a chain that die when the reference to its first one is given up. */
  ghost function Dying(chain: seq<Buffer>): set<Buffer>
    reads chain
  {
    if chain == [] || chain[0].refcount > 1 then {} else Dying(chain[1..]) + {chain[0]}
  }

  /** They are the longest stretch from the first one on that nothing else refers to. */
  lemma {:induction false} DyingIsPrefix(chain: seq<Buffer>, n: nat)
    requires n <= |chain|
    requires forall i :: 0 <= i < n ==> chain[i].refcount <= 1
    requires n < |chain| ==> chain[n].refcount > 1
    ensures Dying(chain) == set b | b in chain[..n]
  {
    if n > 0 {
      DyingIsPrefix(chain[1..], n - 1);
      assert chain[..n] == [chain[0]] + chain[1..][..n - 1];
    }
  }

  /** The links as a value, to compare the buffers before and after. */
  ghost function Graph(live: set<Buffer>): map<Buffer, Buffer?>
    reads live
  {
    map b | b in live :: b.next
  }

  /** A buffer that some handle leads to along the links of `graph`. */
  ghost predicate Reachable(graph: map<Buffer, Buffer?>, handles: multiset<Buffer>, b: Buffer)
    decreases b.stamp
  {
    b in handles || exists c :: c in graph && graph[c] == b && c.stamp < b.stamp && Reachable(graph, handles, c)
  }

  /** The buffers have the links of `graph`, and those that it does not know have none. */
  ghost predicate Extends(live: set<Buffer>, graph: map<Buffer, Buffer?>)
    reads live
  {
    forall c :: c in live ==> c.next == if c in graph then graph[c] else null
  }

  /**
  If a link or a handle is counted for every live buffer, the live ones are those that handles lead to, also along
  the links there were before some buffers were freed.
  */
  lemma {:induction false} LiveIffReachable(live: set<Buffer>, handles: multiset<Buffer>,
                                            graph: map<Buffer, Buffer?>, b: Buffer)
    requires Linked(live) && Counted(live, handles, null) && Held(live)
    requires Extends(live, graph)
    ensures b in live <==> Reachable(graph, handles, b)
    decreases b.stamp
  {
    if b !in handles {
      if b in live {
        var c :| c in Incoming(live, b);
        LiveIffReachable(live, handles, graph, c);
      } else if c :| c in graph && graph[c] == b && c.stamp < b.stamp && Reachable(graph, handles, c) {
        LiveIffReachable(live, handles, graph, c);
      }
    }
  }

  ghost predicate Held(live: set<Buffer>)
    reads live
  {
    forall c :: c in live ==> c.refcount >= 1
  }

  lemma FreedIffUnreachable(was: set<Buffer>, live: set<Buffer>, handles: multiset<Buffer>, graph: map<Buffer, Buffer?>)
    requires Linked(live) && Counted(live, handles, null) && Held(live)
    requires Extends(live, graph)
    ensures forall c :: c in was ==> (c in live <==> Reachable(graph, handles, c))
  {
    forall c | c in was ensures c in live <==> Reachable(graph, handles, c) {
      LiveIffReachable(live, handles, graph, c);
    }
  }

  /** Stamps grow along a chain, so no buffer comes twice. */
  ghost predicate Rising(chain: seq<Buffer>) {
    forall i, j :: 0 <= i < j < |chain| ==> chain[i].stamp < chain[j].stamp
  }

  lemma {:induction false} ChainFrom(live: set<Buffer>, b: Buffer?, bound: nat) returns (chain: seq<Buffer>)
    requires Linked(live) && (b != null ==> b in live && b.stamp < bound)
    requires forall c :: c in live ==> c.stamp < bound
    ensures IsChain(b, chain) && Rising(chain)
    ensures forall c :: c in chain ==> c in live && c.stamp >= b.stamp
    decreases if b == null then 0 else 1 + bound - b.stamp
  {
    if b == null {
      chain := [];
    } else {
      var rest := ChainFrom(live, b.next, bound);
      chain := [b] + rest;
    }
  }

  /** A buffer nobody refers to can go; the one it leads to then has a reference too many. */
  lemma CountedWithout(live: set<Buffer>, handles: multiset<Buffer>, b: Buffer)
    requires Linked(live) && Counted(live, handles, null) && b in live && b.refcount == 0
    ensures Linked(live - {b}) && Counted(live - {b}, handles, b.next)
  {
    assert forall x :: x in live && x.next == b ==> x in Incoming(live, b);
    forall x | x in live && x != b
      ensures |Incoming(live, x)| == |Incoming(live - {b}, x)| + if x == b.next then 1 else 0
    {
      if x == b.next {
        assert Incoming(live, x) == Incoming(live - {b}, x) + {b};
      } else {
        assert Incoming(live, x) == Incoming(live - {b}, x);
      }
    }
  }

  lemma DyingStep(chain: seq<Buffer>)
    requires chain != [] && Rising(chain)
    ensures Rising(chain[1..]) && chain[0] !in chain[1..]
    ensures Dying(chain) == if chain[0].refcount > 1 then {} else Dying(chain[1..]) + {chain[0]}
  {
  }

  lemma SetMinus<T>(a: set<T>, x: T, y: set<T>)
    ensures a - {x} - y == a - (y + {x})
  {
  }

  /** A new buffer changes nobody's count. */
  lemma CountedWith(live: set<Buffer>, handles: multiset<Buffer>, nb: Buffer)
    requires Linked(live) && Counted(live, handles, null)
    requires nb !in live && nb.refcount == 0 && nb.next == null && forall c :: c in live ==> c.next != nb
    ensures Linked(live + {nb}) && Counted(live + {nb}, handles, null)
  {
    assert forall c :: c in live ==> Incoming(live + {nb}, c) == Incoming(live, c);
    assert Incoming(live + {nb}, nb) == {};
  }

  lemma HandleGivenUp(live: set<Buffer>, handles: multiset<Buffer>, b: Buffer)
    requires Counted(live, handles, null) && b in handles
    ensures b in live && b.refcount >= 1 && Counted(live, handles - multiset{b}, b)
  {
  }

  /** The handle that a variable holding `b` is. */
  ghost function One(b: Buffer?): multiset<Buffer> {
    if b == null then multiset{} else multiset{b}
  }

  lemma HeldToo(live: set<Buffer>, b: Buffer)
    requires Held(live - {b}) && b.refcount >= 1
    ensures Held(live)
  {
  }

  lemma OneOf(b: Buffer?)
    ensures One(b) == if b == null then multiset{} else multiset{b}
  {
  }

  class Ledger {
    /** The buffers allocated and not freed, and the references held outside the links. */
    ghost var live: set<Buffer>
    ghost var handles: multiset<Buffer>
    ghost var clock: nat

    ghost predicate Ordered()
      reads this, live
    {
      Linked(live) && forall b :: b in live ==> b.stamp < clock
    }

    ghost predicate Valid()
      reads this, live
    {
      Ordered() && Counted(live, handles, null) && Held(live)
    }

    constructor ()
      ensures Valid() && live == {} && handles == multiset{}
    {
      live, handles, clock := {}, multiset{}, 0;
    }

    /** The counting half of `ref_decrease`. */
    method Decrement(b: Buffer)
      requires Linked(live) && Counted(live, handles, b) && Held(live) && b in live
      modifies b`refcount
      ensures Linked(live) && Counted(live, handles, null) && Held(live - {b})
      ensures 0 <= b.refcount == old(b.refcount) - 1
    {
      b.refcount := b.refcount - 1;
      assert forall c :: c in live ==> Incoming(live, c) == old(Incoming(live, c));
    }

    /** `ref_decrease`: the reference to `b` that is being given up; `chain` is what follows from `b`. */
    method Drop(b: Buffer, ghost chain: seq<Buffer>)
      requires Ordered() && Counted(live, handles, b) && Held(live)
      requires IsChain(b, chain) && Rising(chain) && forall c :: c in chain ==> c in live
      modifies `live, chain`refcount, chain`next
      ensures Valid()
      ensures live == old(live) - old(Dying(chain))
      ensures forall c :: c in live ==> c.next == old(c.next)
      decreases |chain|, 0
    {
      hide Counted, Linked, Held, Dying, Rising, IsChain;
      ChainHead(b, chain);
      DyingStep(chain);
      Decrement(b);
      if b.refcount <= 0 {
        CountedWithout(live, handles, b);
        live := live - {b};
        Destroy(b, chain[1..]);
        SetMinus(old(live), b, old(Dying(chain[1..])));
      } else {
        HeldToo(live, b);
      }
    }

    /** `buffer_destroy`: the memory goes, and with it the reference that the link was. */
    method Destroy(b: Buffer, ghost rest: seq<Buffer>)
      requires b !in live && b !in rest
      requires Ordered() && Counted(live, handles, b.next) && Held(live)
      requires IsChain(b.next, rest) && Rising(rest) && forall c :: c in rest ==> c in live
      modifies `live, rest`refcount, rest`next, b`next
      ensures Valid()
      ensures live == old(live) - old(Dying(rest))
      ensures forall c :: c in live ==> c.next == old(c.next)
      decreases |rest|, 1
    {
      hide Counted, Linked, Held, Dying, Rising, IsChain;
      ChainHead(b.next, rest);
      NoneDying();
      if b.next != null {
        Drop(b.next, rest);
        b.next := null;
      }
    }

    /** `buffer_release`: frees exactly the buffers that no handle leads to any more. */
    method Release(b: Buffer?) returns (r: Buffer?)
      requires Valid() && (b != null ==> b in handles)
      modifies `live, `handles, live`refcount, live`next
      ensures Valid() && r == null
      ensures handles == old(handles) - One(b)
      ensures live <= old(live) && forall c :: c in live ==> c.next == old(c.next)
      ensures forall c :: c in old(live) ==> (c in live <==> Reachable(old(Graph(live)), handles, c))
    {
      hide Linked, Counted, Dying, IsChain, Rising, Reachable, Held;
      ghost var was, graph := live, Graph(live);
      if b != null {
        HandleGivenUp(live, handles, b);
        ghost var chain := ChainFrom(live, b, clock);
        handles := handles - multiset{b};
        Drop(b, chain);
      }
      FreedIffUnreachable(was, live, handles, graph);
      r := null;
    }

    /** `ref_increase`. */
    method Increase(b: Buffer)
      requires Ordered() && Counted(live, handles, null) && Held(live - {b}) && b in live
      modifies `handles, b`refcount
      ensures Valid()
      ensures b.refcount == old(b.refcount) + 1 && handles == old(handles) + multiset{b}
    {
      b.refcount := b.refcount + 1;
      handles := handles + multiset{b};
      assert forall c :: c in live ==> Incoming(live, c) == old(Incoming(live, c));
    }

    /** `buffer_acquire`: trades a handle on `b1` for one on `b2`, which outlives the trade. */
    method Acquire(b1: Buffer?, b2: Buffer?) returns (r: Buffer?)
      requires Ordered() && Counted(live, handles, null)
      requires Held(if b2 == null then live else live - {b2})
      requires (b1 != null ==> b1 in handles) && (b2 != null ==> b2 in live)
      modifies `live, `handles, live`refcount, live`next
      ensures Valid() && r == b2 && (r != null ==> r in live)
      ensures b1 == b2 ==> handles == old(handles)
      ensures b1 == b2 || b1 == null ==> live == old(live)
      ensures b1 != b2 ==> handles == old(handles) + One(b2) - One(b1)
      ensures live <= old(live) && forall c :: c in live ==> c.next == old(c.next)
      ensures forall c :: c in old(live) ==> (c in live <==> Reachable(old(Graph(live)), handles, c))
    {
      hide Linked, Counted, Reachable, One, Held;
      ghost var was, graph := live, Graph(live);
      OneOf(b1);
      OneOf(b2);
      if b1 == b2 {
        if b1 != null {
          HandleGivenUp(live, handles, b1);
          HeldToo(live, b1);
        }
        FreedIffUnreachable(was, live, handles, graph);
        return b1;
      }
      if b2 != null {
        Increase(b2);
      }
      if b1 != null {
        var _ := Release(b1);
      }
      if b2 != null {
        HandleGivenUp(live, handles, b2);
      }
      FreedIffUnreachable(was, live, handles, graph);
      return b2;
    }

    /** `buffer_create`: the new buffer is referred to by nobody. */
    method Create(capacity: nat) returns (nb: Buffer)
      requires Valid()
      modifies this
      ensures fresh(nb) && nb.next == null && nb.stamp == old(clock) && nb.buf.Length == capacity && nb.size == 0
      ensures live == old(live) + {nb} && handles == old(handles)
      ensures Ordered() && Counted(live, handles, null) && Held(live - {nb})
    {
      hide Linked, Counted;
      nb := new Buffer(capacity, clock);
      clock := clock + 1;
      CountedWith(live, handles, nb);
      live := live + {nb};
    }

    /** `buffer_create_and_acquire`: trades a handle on `b` for one on a new buffer. */
    method CreateAndAcquire(b: Buffer?, capacity: nat) returns (nb: Buffer)
      requires Valid() && (b != null ==> b in handles)
      modifies this, live`refcount, live`next
      ensures Valid() && fresh(nb) && nb in live && nb.next == null && nb.buf.Length == capacity && nb.size == 0
      ensures nb.stamp == old(clock)
      ensures handles == old(handles) + multiset{nb} - One(b)
      ensures live <= old(live) + {nb} && forall c :: c in live && c != nb ==> c.next == old(c.next)
      ensures b == null ==> live == old(live) + {nb}
      ensures forall c :: c in old(live) ==> (c in live <==> Reachable(old(Graph(live)), handles, c))
    {
      hide Linked, Counted, Reachable, Held;
      ghost var was, graph := live, Graph(live);
      var made := Create(capacity);
      nb := Acquire(b, made);
      FreedIffUnreachable(was, live, handles, graph);
    }

    /** Growing a chain at its end: the handle on the new buffer becomes a link. */
    method Extend(b: Buffer, capacity: nat) returns (nb: Buffer)
      requires Valid() && b in live && b.next == null
      modifies this, live`refcount, live`next
      ensures Valid() && fresh(nb) && live == old(live) + {nb} && handles == old(handles)
      ensures nb.buf.Length == capacity && nb.size == 0
      ensures b.next == nb && nb.next == null && forall c :: c in old(live) && c != b ==> c.next == old(c.next)
    {
      hide Linked, Counted;
      nb := CreateAndAcquire(null, capacity);
      Attach(b, nb);
    }

    /** The assignment `b->next = nb`. */
    method Attach(b: Buffer, nb: Buffer)
      requires Valid() && b in live && b.next == null && nb in handles && b.stamp < nb.stamp
      modifies b`next, `handles
      ensures Valid() && b.next == nb && handles == old(handles) - multiset{nb}
    {
      hide Counted, Incoming;
      ghost var before := handles;
      ghost var links := Links(live, before);
      handles := handles - multiset{nb};
      b.next := nb;
      assert forall c :: c in live ==> c.refcount == before[c] + |links[c]|;
      Attached(live, before, b, links);
    }
  }

  lemma Links(live: set<Buffer>, handles: multiset<Buffer>) returns (links: map<Buffer, set<Buffer>>)
    requires Counted(live, handles, null)
    ensures forall c :: c in handles ==> c in live
    ensures forall c :: c in live ==> c in links && c.refcount == handles[c] + |links[c]|
    ensures forall c, d :: c in live ==> (d in links[c] <==> d in live && d.next == c)
  {
    links := map c | c in live :: Incoming(live, c);
  }

  /** `b` now leads to a buffer it did not lead to before, in exchange for a handle. */
  lemma Attached(live: set<Buffer>, handles: multiset<Buffer>, b: Buffer, links: map<Buffer, set<Buffer>>)
    requires b in live && b.next != null && b.next in handles && forall c :: c in handles ==> c in live
    requires forall c :: c in live ==> c in links && c.refcount == handles[c] + |links[c]|
    requires forall c, d :: c in live ==> (d in links[c] <==> d in live && d != b && d.next == c)
    ensures Counted(live, handles - multiset{b.next}, null)
  {
    forall c | c in live ensures |Incoming(live, c)| == |links[c]| + if c == b.next then 1 else 0 {
      assert Incoming(live, c) == links[c] + if c == b.next then {b} else {};
    }
  }

  lemma NoneDying()
    ensures Dying([]) == {}
  {
  }
}
