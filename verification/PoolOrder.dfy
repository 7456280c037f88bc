/**
In what order objects come back: allocations take the first of what is cached, then of what is central, then of new
blocks, and frees go to the end of the last batch that is not full.
*/
module PoolOrder {
  import opened Pool
  import opened Arith

  function Flat(batches: seq<Batch>): Batch {
    if batches == [] then [] else batches[0] + Flat(batches[1..])
  }

  lemma {:induction false} FlatConcat(a: seq<Batch>, b: seq<Batch>)
    ensures Flat(a + b) == Flat(a) + Flat(b)
  {
    if a == [] {
      assert a + b == b;
    } else {
      FlatConcat(a[1..], b);
      assert (a + b)[1..] == a[1..] + b;
    }
  }

  lemma FlatOne(b: Batch)
    ensures Flat([b]) == b
  {
    assert [b][1..] == [];
  }

  lemma FlatUpdate(batches: seq<Batch>, i: nat, b: Batch)
    requires i < |batches|
    ensures Flat(batches[i := b]) == Flat(batches[..i]) + b + Flat(batches[i + 1..])
    ensures Flat(RemoveAt(batches, i)) == Flat(batches[..i]) + Flat(batches[i + 1..])
  {
    FlatConcat(batches[..i], [b]);
    FlatConcat(batches[..i] + [b], batches[i + 1..]);
    FlatConcat(batches[..i], batches[i + 1..]);
    FlatOne(b);
    assert batches[i := b] == batches[..i] + [b] + batches[i + 1..];
  }

  /** Everything that a thread can get, in the order in which it would. */
  function Line(c: Cache, central: seq<Batch>): Batch {
    Flat(c.free) + Flat(central)
  }

  lemma TakesFirst(c: Cache, i: nat, central: seq<Batch>, blocks: nat)
    requires i < |c.free| && c.free[i] != [] && Flat(c.free[..i]) == []
    ensures var r := TakeFrom(c, i, central, blocks); r.Got? && [r.obj] + Flat(r.cache.free) == Flat(c.free)
  {
    var m := c.free[i];
    FlatUpdate(c.free, i, m);
    FlatUpdate(c.free, i, m[1..]);
    assert c.free[i := m] == c.free;
    assert [m[0]] + m[1..] == m;
    assert m[1..] == [] ==> Flat(RemoveAt(c.free, i)) == Flat(c.free[i := m[1..]]);
  }

  lemma FlatFirst(batches: seq<Batch>)
    requires batches != []
    ensures Flat(batches) == batches[0] + Flat(batches[1..]) && Flat(batches[..0]) == []
  {
  }

  /** An allocation takes the first object in line; a new block, in order, joins the line only when that is empty. */
  lemma AllocTakesFirst(n: nat, c: Cache, central: seq<Batch>, blocks: nat)
    requires n >= 1 && CacheOk(n, c) && CentralOk(n, central)
    ensures var r, line := AllocFrom(n, c, central, blocks), Line(c, central);
      && r.Got?
      && [r.obj] + Line(r.cache, r.central) == if line == [] then Carve(blocks, n) else line
  {
    EmptyCache(n, c);
    if c.freeSize != 0 {
      FlatFirst(c.free);
      TakesFirst(c, 0, central, blocks);
      assert c.free[0] != [];
    } else {
      RefillTakesFirst(n, c, central, blocks);
    }
    hide TakeFrom;
  }

  lemma Regroup(a: Batch, b: Batch, c: Batch, ab: Batch)
    requires a + b == ab
    ensures a + (b + c) == ab + c
  {
  }

  lemma BatchFirst(n: nat, empty: seq<Batch>, central: seq<Batch>, blocks: nat)
    requires n >= 1 && AllEmpty(empty) && CentralOk(n, central)
    ensures var g := GetBatch(n, empty, central, blocks);
      && g.batch != []
      && g.batch + Flat(g.central) == if Flat(central) == [] then Carve(blocks, n) else Flat(central)
  {
    assert [] + Carve(blocks, n) == Carve(blocks, n) && Carve(blocks, n) + [] == Carve(blocks, n);
    if central != [] {
      FlatFirst(central);
    }
  }

  lemma RefillTakesFirst(n: nat, c: Cache, central: seq<Batch>, blocks: nat)
    requires n >= 1 && CacheOk(n, c) && c.freeSize == 0 && CentralOk(n, central)
    ensures var r := AllocFrom(n, c, central, blocks);
      && r.Got? && c.free == []
      && [r.obj] + Line(r.cache, r.central) == if Flat(central) == [] then Carve(blocks, n) else Flat(central)
  {
    AllocFromEmpty(n, c, central, blocks, Obj(0, 0));
    BatchFirst(n, c.empty, central, blocks);
    hide GetBatch, AllocFrom, Carve, CacheOk, CentralOk, TakeFrom;
    var g := GetBatch(n, c.empty, central, blocks);
    var full := Refilled(c, g);
    assert full.free == [g.batch] && [g.batch][..0] == [];
    FlatOne(g.batch);
    hide Flat, Refilled;
    TakesFirst(full, 0, g.central, g.blocks);
    var r := AllocFrom(n, c, central, blocks);
    Regroup([r.obj], Flat(r.cache.free), Flat(g.central), g.batch);
  }

  /** Where in line a freed object goes: to the end, or before the last batch when only the one before it has room. */
  function Place(n: nat, free: seq<Batch>): nat {
    if |free| == 2 && |free[0]| < n <= |free[1]| then |free[0]| else |Flat(free)|
  }

  lemma FlatTwo(free: seq<Batch>)
    requires |free| <= 2
    ensures Flat(free) == (if |free| > 0 then free[0] else []) + (if |free| > 1 then free[1] else [])
  {
    if |free| == 2 {
      assert free[1..] == [free[1]];
      FlatOne(free[1]);
    } else if |free| == 1 {
      assert free == [free[0]];
      FlatOne(free[0]);
    }
  }

  /** Which batch gets a freed object, and what is in front of it and behind. */
  lemma Around(n: nat, c: Cache)
    requires n >= 1 && CacheOk(n, c)
    ensures var (room, i) := MakeRoom(n, c);
      && Flat(c.free) == Flat(room.free[..i]) + room.free[i] + Flat(room.free[i + 1..])
      && Place(n, c.free) == |Flat(room.free[..i])| + |room.free[i]|
  {
    var (room, i) := MakeRoom(n, c);
    RoomFor(n, c, Obj(0, 0));
    FlatUpdate(room.free, i, room.free[i]);
    assert room.free[i := room.free[i]] == room.free;
    FewBatches(c.free);
    FlatTwo(c.free);
    FlatTwo(room.free);
    FlatTwo(room.free[..i]);
    FlatTwo(room.free[i + 1..]);
    hide Flat, Total;
  }

  lemma Slices(a: Batch, m: Batch, b: Batch, obj: Obj)
    ensures var all, p := a + m + b, |a| + |m|;
      && all[..p] + [obj] + all[p..] == a + (m + [obj]) + b
      && all[p - |m|..p] == m && all[..p - |m|] + all[p..] == a + b
  {
    var all, p := a + m + b, |a| + |m|;
    assert all[..p] == a + m && all[p..] == b && all[..|a|] == a;
  }

  /**
  A free leaves what is cached in order. A batch that goes back is at the end of the central list, and the freed object
  the last in it.
  */
  lemma FreeKeepsOrder(n: nat, c: Cache, central: seq<Batch>, obj: Obj)
    requires n >= 1 && CacheOk(n, c)
    ensures var (cache, central') := DeallocTo(n, c, central, obj, true);
      var flat, p := Flat(c.free), Place(n, c.free);
      && p <= |flat|
      && if central' == central then Flat(cache.free) == flat[..p] + [obj] + flat[p..]
         else
           && p >= n - 1 && Flat(central') == Flat(central) + (flat[p - (n - 1)..p] + [obj])
           && Flat(cache.free) == flat[..p - (n - 1)] + flat[p..]
  {
    hide Flat, MakeRoom, Place, CacheOk;
    Around(n, c);
    var (room, i) := MakeRoom(n, c);
    var a, b, m := Flat(room.free[..i]), Flat(room.free[i + 1..]), room.free[i] + [obj];
    Slices(a, room.free[i], b, obj);
    var full := room.free[i := m];
    FlatUpdate(room.free, i, m);
    FlatUpdate(full, i, m);
    assert full[..i] == room.free[..i] && full[i + 1..] == room.free[i + 1..];
    FlatConcat(central, [m]);
    FlatOne(m);
    assert |central + [m]| != |central|;
  }

  /** The objects of a new block line up by address, from its start. */
  lemma CarveRises(block: nat, n: nat, objSize: nat, i: nat, j: nat)
    requires i < j < n
    ensures var b := Carve(block, n);
      Offset(b[0], objSize) == 0 && Offset(b[i], objSize) + objSize <= Offset(b[j], objSize)
  {
    MulOrder(objSize, i + 1, j);
    assert (i + 1) * objSize == i * objSize + objSize;
  }
}
