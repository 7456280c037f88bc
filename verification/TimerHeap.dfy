/** The array heap of timer.h, with its sifting, growth and lazy deletion. */
module TimerHeap {
  import opened TimerRuns

  class HeapTimer {
    const expire: int
    var callback: bool

    constructor (now: int, delay: int)
      ensures expire == now + delay && callback
    {
      expire, callback := now + delay, true;
    }
  }

  // ---------- heaps as sequences ----------

  function Key(t: HeapTimer?): int {
    if t == null then 0 else t.expire
  }

  predicate IsChild(p: int, c: int) {
    0 <= p && (c == 2 * p + 1 || c == 2 * p + 2)
  }

  /** Below position `lo` nothing is said; from there on no parent expires later than its child. */
  ghost predicate HeapFrom(s: seq<HeapTimer?>, lo: nat) {
    forall p, c {:trigger IsChild(p, c)} :: IsChild(p, c) && lo <= p && c < |s| ==> Key(s[p]) <= Key(s[c])
  }

  /** A heap except that the element at `hole` may be too large for its children. */
  ghost predicate SinkingAt(s: seq<HeapTimer?>, lo: nat, hole: nat) {
    && (forall p, c {:trigger IsChild(p, c)} :: IsChild(p, c) && lo <= p != hole && c < |s| ==> Key(s[p]) <= Key(s[c]))
    && (forall p, c {:trigger IsChild(p, hole), IsChild(hole, c)} ::
         IsChild(p, hole) && IsChild(hole, c) && lo <= p && c < |s| ==> Key(s[p]) <= Key(s[c]))
  }

  /** The child that expires first. */
  ghost predicate LeastChild(s: seq<HeapTimer?>, hole: nat, child: nat) {
    && IsChild(hole, child) && child < |s|
    && forall c :: IsChild(hole, c) && c < |s| ==> Key(s[child]) <= Key(s[c])
  }

  /** A heap except that the element at `hole` may be too small for its parent. */
  ghost predicate RisingAt(s: seq<HeapTimer?>, hole: nat) {
    && (forall p, c {:trigger IsChild(p, c)} :: IsChild(p, c) && c != hole && c < |s| ==> Key(s[p]) <= Key(s[c]))
    && (forall p, c {:trigger IsChild(p, hole), IsChild(hole, c)} ::
         IsChild(p, hole) && IsChild(hole, c) && c < |s| ==> Key(s[p]) <= Key(s[c]))
  }

  function Swap<T>(s: seq<T>, i: nat, j: nat): (r: seq<T>)
    requires i < |s| && j < |s|
    ensures |r| == |s| && forall k :: 0 <= k < |s| ==> r[k] == s[if k == i then j else if k == j then i else k]
  {
    s[i := s[j]][j := s[i]]
  }

  predicate Permuted<T(==)>(s: seq<T>, t: seq<T>) {
    multiset(s) == multiset(t)
  }

  lemma SwapKeeps<T>(s: seq<T>, i: nat, j: nat, t: seq<T>)
    requires i < |s| && j < |s| && Permuted(s, t)
    ensures Permuted(Swap(s, i, j), t)
  {
  }

  lemma PermutedSelf<T>(s: seq<T>)
    ensures Permuted(s, s)
  {
  }

  lemma PermutedMeans<T>(s: seq<T>, t: seq<T>)
    requires Permuted(s, t)
    ensures multiset(s) == multiset(t)
  {
  }

  lemma SinkStep(s: seq<HeapTimer?>, lo: nat, hole: nat, child: nat)
    requires SinkingAt(s, lo, hole) && lo <= hole && LeastChild(s, hole, child)
    requires Key(s[child]) < Key(s[hole])
    ensures SinkingAt(Swap(s, hole, child), lo, child)
  {
    var s' := Swap(s, hole, child);
    forall p, c {:trigger IsChild(p, c)} | IsChild(p, c) && lo <= p != child && c < |s'|
      ensures Key(s'[p]) <= Key(s'[c])
    {
      if c == hole { assert IsChild(hole, child); }
    }
  }

  /** Positions past the last parent have no children. */
  lemma HeapAboveParents(s: seq<HeapTimer?>)
    ensures HeapFrom(s, if s == [] then 0 else (|s| - 1) / 2 + 1)
  {
  }

  lemma SinkStart(s: seq<HeapTimer?>, lo: nat)
    requires HeapFrom(s, lo + 1)
    ensures SinkingAt(s, lo, lo)
  {
  }

  lemma SinkEnd(s: seq<HeapTimer?>, lo: nat, hole: nat, child: nat)
    requires SinkingAt(s, lo, hole)
    requires 2 * hole + 1 >= |s| || (LeastChild(s, hole, child) && Key(s[hole]) <= Key(s[child]))
    ensures HeapFrom(s, lo)
  {
  }

  lemma RiseStart(s: seq<HeapTimer?>, t: HeapTimer)
    requires HeapFrom(s, 0)
    ensures RisingAt(s + [t], |s|)
  {
  }

  lemma RiseEnd(s: seq<HeapTimer?>, hole: nat, parent: int)
    requires RisingAt(s, hole) && hole < |s|
    requires hole == 0 || (IsChild(parent, hole) && Key(s[parent]) <= Key(s[hole]))
    ensures HeapFrom(s, 0)
  {
  }

  lemma RiseStep(s: seq<HeapTimer?>, hole: nat, parent: nat)
    requires RisingAt(s, hole) && hole < |s| && IsChild(parent, hole) && Key(s[hole]) < Key(s[parent])
    ensures RisingAt(Swap(s, hole, parent), parent)
  {
    var s' := Swap(s, hole, parent);
    forall p, c {:trigger IsChild(p, c)} | IsChild(p, c) && c != parent && c < |s'| ensures Key(s'[p]) <= Key(s'[c]) {
      if p == hole { assert IsChild(parent, hole) && IsChild(hole, c); }
    }
  }

  /** The top of a heap is a minimum of all of it. */
  lemma {:induction false} TopIsLeast(s: seq<HeapTimer?>, i: nat)
    requires HeapFrom(s, 0) && i < |s|
    ensures Key(s[0]) <= Key(s[i])
    decreases i
  {
    if i > 0 {
      assert IsChild((i - 1) / 2, i);
      TopIsLeast(s, (i - 1) / 2);
    }
  }

  /** Every element is a timer, and none is there twice. */
  ghost predicate Distinct(s: seq<HeapTimer?>) {
    null !in s && forall t :: t in s ==> multiset(s)[t] == 1
  }

  lemma SameElements(s: seq<HeapTimer?>, s': seq<HeapTimer?>)
    requires multiset(s) == multiset(s')
    ensures Distinct(s) <==> Distinct(s')
    ensures forall t :: t in s <==> t in s'
  {
    forall t ensures t in s <==> t in s' {
      assert t in s <==> t in multiset(s);
      assert t in s' <==> t in multiset(s');
    }
  }

  lemma SameTimers(s: seq<HeapTimer?>, s': seq<HeapTimer?>)
    requires multiset(s) == multiset(s') && Distinct(s)
    ensures Distinct(s') && null !in s'
    ensures forall t :: t in s <==> t in s'
  {
    SameElements(s, s');
  }

  // ---------- the heap ----------

  /** Exactly these timers are there and have ever been, and no callback was made. */
  ghost function StartOf(given: seq<HeapTimer?>): Timers<HeapTimer?>
    requires null !in given
    reads given
  {
    Timers(map t: HeapTimer? | t in given :: Entry(Key(t), t.callback), [], set t | t in given)
  }

  /** The copying loops of the constructor and of `resize_heap`. */
  method CopyTimers(src: array<HeapTimer?>, dst: array<HeapTimer?>, n: nat)
    requires src != dst && n <= src.Length && n <= dst.Length
    modifies dst
    ensures dst[..n] == src[..n]
  {
    var i := 0;
    while i < n
      invariant 0 <= i <= n
      invariant forall k :: 0 <= k < i ==> dst[k] == src[k]
    {
      dst[i] := src[i];
      i := i + 1;
    }
  }

  class TimeHeap {
    var array_: array<HeapTimer?>
    var capacity: nat
    var curSize: nat
    var fired: seq<(HeapTimer?, int)>
    ghost var used: set<HeapTimer?>

    /** The part of the array in use. */
    function Elems(): seq<HeapTimer?>
      reads this, array_
      requires curSize <= array_.Length
    {
      array_[..curSize]
    }

    ghost predicate Sized()
      reads this, array_
    {
      0 < capacity == array_.Length && curSize <= capacity
    }

    ghost predicate Valid()
      reads this, array_
    {
      && Sized() && null !in Elems() && Distinct(Elems())
      && HeapFrom(Elems(), 0)
      && forall t :: t in Elems() ==> t in used
    }

    /** The timers in the heap with their state, and the callbacks made so far. */
    ghost function View(): Timers<HeapTimer?>
      reads this, array_, if curSize <= array_.Length then Elems() else []
      requires Sized() && null !in Elems()
    {
      Timers(map t: HeapTimer? | t in Elems() :: Entry(Key(t), t.callback), fired, used)
    }

    constructor (capacity: nat)
      requires capacity > 0
      ensures Valid() && fresh(array_) && View() == Timers(map[], [], {})
    {
      this.capacity, curSize := capacity, 0;
      array_ := new HeapTimer?[capacity](_ => null);
      fired, used := [], {};
    }

    /**
    Builds a heap from any timers, as a state in which none has called back. Only if none is named twice will each be
    removed and freed once.
    */
    constructor FromArray(init: array<HeapTimer?>, size: nat, capacity: nat)
      requires 0 < capacity && size <= capacity && size <= init.Length && null !in init[..size]
      ensures Sized() && fresh(array_) && curSize == size && HeapFrom(Elems(), 0)
      ensures multiset(Elems()) == multiset(init[..size])
      ensures Valid() <==> Distinct(init[..size])
      ensures null !in Elems()
      ensures View() == StartOf(init[..size])
    {
      this.capacity, curSize := capacity, size;
      array_ := new HeapTimer?[capacity](_ => null);
      fired, used := [], set t | t in init[..size];
      new;
      hide HeapFrom, Distinct;
      ghost var given := init[..size];
      CopyTimers(init, array_, size);
      if size != 0 {
        Heapify();
      } else {
        HeapAboveParents(Elems());
      }
      SameElements(given, Elems());
      SameStart(given, Elems());
      hide StartOf;
    }

    /** The loop of the constructor over all positions that can have children, from the last one down. */
    method Heapify()
      requires Sized() && curSize > 0
      modifies array_
      ensures HeapFrom(Elems(), 0)
      ensures multiset(Elems()) == old(multiset(Elems()))
    {
      hide HeapFrom;
      HeapAboveParents(Elems());
      var i := (curSize - 1) / 2;
      while i >= 0
        invariant -1 <= i <= (curSize - 1) / 2
        invariant HeapFrom(Elems(), (i + 1) as nat)
        invariant multiset(Elems()) == old(multiset(Elems()))
      {
        Percolate(i);
        i := i - 1;
      }
    }

    method SmallerChild(hole: nat, ghost s: seq<HeapTimer?>) returns (child: nat)
      requires Sized() && hole * 2 + 1 <= curSize - 1 && |s| == curSize
      requires forall i :: hole < i < curSize ==> array_[i] == s[i]
      ensures hole < child < curSize && LeastChild(s, hole, child)
    {
      child := hole * 2 + 1;
      if child < curSize - 1 && Key(array_[child + 1]) < Key(array_[child]) {
        child := child + 1;
      }
    }

    /** Sinks the timer at `lo` until no child expires earlier. */
    method Percolate(lo: nat)
      requires Sized() && (lo < curSize || lo == 0 == curSize)
      requires HeapFrom(Elems(), lo + 1)
      modifies array_
      ensures HeapFrom(Elems(), lo)
      ensures multiset(Elems()) == old(multiset(Elems()))
    {
      hide HeapFrom, SinkingAt, LeastChild, IsChild, Swap, Permuted;
      var tmp := array_[lo];
      var hole: nat, child: nat := lo, 0;
      ghost var v, was := Elems(), Elems();
      PermutedSelf(v);
      SinkStart(v, lo);
      while hole * 2 + 1 <= curSize - 1
        invariant lo <= hole && (hole < curSize || lo == hole == 0 == curSize)
        invariant |v| == curSize && (hole < curSize ==> v[hole] == tmp)
        invariant forall i :: 0 <= i < curSize && i != hole ==> array_[i] == v[i]
        invariant SinkingAt(v, lo, hole)
        invariant Permuted(v, was)
      {
        child := SmallerChild(hole, v);
        if Key(array_[child]) < Key(tmp) {
          SinkStep(v, lo, hole, child);
          SwapKeeps(v, hole, child, was);
          array_[hole] := array_[child];
          v := Swap(v, hole, child);
          hole := child;
        } else {
          break;
        }
      }
      SinkEnd(v, lo, hole, child);
      PermutedMeans(v, was);
      array_[hole] := tmp;
      assert Elems() == v;
    }

    /** Doubles the array, keeping the timers in place. */
    method ResizeHeap()
      requires Sized()
      modifies this`array_, this`capacity
      ensures Sized() && fresh(array_) && capacity == 2 * old(capacity)
      ensures Elems() == old(Elems())
    {
      var tmp := new HeapTimer?[capacity * 2](_ => null);
      CopyTimers(array_, tmp, curSize);
      capacity := capacity * 2;
      array_ := tmp;
    }

    /** The loop of `add_timer`: the last position is free, and the timer rises from there to its place. */
    method SiftUp(timer: HeapTimer)
      requires Sized() && curSize > 0 && HeapFrom(Elems()[..curSize - 1], 0)
      modifies array_
      ensures HeapFrom(Elems(), 0)
      ensures multiset(Elems()) == multiset(old(Elems()[..curSize - 1])) + multiset{timer}
    {
      hide HeapFrom, RisingAt, Swap, Permuted;
      var hole := curSize - 1;
      ghost var v := Elems()[..hole] + [timer];
      ghost var was := v;
      PermutedSelf(v);
      RiseStart(Elems()[..hole], timer);
      var parent := 0;
      while hole > 0
        invariant 0 <= hole < curSize
        invariant |v| == curSize && v[hole] == timer
        invariant forall i :: 0 <= i < curSize && i != hole ==> array_[i] == v[i]
        invariant RisingAt(v, hole)
        invariant Permuted(v, was)
      {
        parent := (hole - 1) / 2;
        assert IsChild(parent, hole);
        if Key(array_[parent]) <= timer.expire {
          break;
        }
        RiseStep(v, hole, parent);
        SwapKeeps(v, hole, parent, was);
        array_[hole] := array_[parent];
        v := Swap(v, hole, parent);
        hole := parent;
      }
      RiseEnd(v, hole, parent);
      PermutedMeans(v, was);
      array_[hole] := timer;
      assert Elems() == v;
    }

    /** Puts a timer into the heap, growing the array when it is full. */
    method Insert(timer: HeapTimer)
      requires Valid()
      modifies this`array_, this`capacity, this`curSize, array_
      ensures Sized() && HeapFrom(Elems(), 0) && null !in Elems()
      ensures Distinct(Elems()) <==> timer !in old(Elems())
      ensures array_ == old(array_) || fresh(array_)
      ensures multiset(Elems()) == old(multiset(Elems())) + multiset{timer}
      ensures forall t :: t in Elems() <==> t in old(Elems()) || t == timer
    {
      hide HeapFrom, Distinct;
      ghost var was := Elems();
      if capacity <= curSize {
        ResizeHeap();
      }
      curSize := curSize + 1;
      assert Elems()[..curSize - 1] == was;
      SiftUp(timer);
      AddElement(was, Elems(), timer);
    }

    /** A timer that is in the heap already would be there twice, and be freed twice. */
    method AddTimer(timer: HeapTimer)
      requires Valid()
      modifies this, array_
      ensures Valid() <==> timer !in old(Elems())
      ensures Sized() && null !in Elems() && HeapFrom(Elems(), 0) && (array_ == old(array_) || fresh(array_))
      ensures timer !in old(used) ==> Adds(old(View()), View(), timer, Entry(timer.expire, timer.callback))
    {
      hide HeapFrom, Distinct;
      Insert(timer);
      used := used + {timer};
    }

    /** Lazy deletion: the timer, if it is in this heap, stays there without its callback. */
    method DeleteTimer(timer: HeapTimer)
      requires Valid()
      modifies timer`callback
      ensures Valid() && !timer.callback
      ensures if timer in Elems() then Deletes(old(View()), View(), timer) else View() == old(View())
    {
      timer.callback := false;
    }

    /** The timer that expires first, if there is one. */
    method GetTop() returns (top: HeapTimer?)
      requires Valid()
      ensures curSize == 0 <==> top == null
      ensures top != null ==> top in Elems() && forall t :: t in Elems() ==> Key(top) <= Key(t)
    {
      if curSize == 0 {
        return null;
      }
      top := array_[0];
      TopOfAll(Elems());
    }

    /** Takes the top out of the heap: the last timer replaces it and sinks. */
    method RemoveFirst()
      requires Valid() && curSize > 0
      modifies this`curSize, array_
      ensures Sized() && HeapFrom(Elems(), 0) && null !in Elems() && Distinct(Elems()) && curSize == old(curSize) - 1
      ensures multiset(Elems()) == old(multiset(Elems())) - multiset{old(array_[0])}
      ensures forall t :: t in Elems() <==> t in old(Elems()) && t != old(array_[0])
    {
      hide HeapFrom, Distinct;
      ghost var was := Elems();
      curSize := curSize - 1;
      array_[0] := array_[curSize];
      ghost var s := Elems();
      RemoveTop(was, s);
      Percolate(0);
      SameTimers(s, Elems());
    }

    /** What the view of a heap in order says about its top. */
    lemma TopView()
      requires Valid()
      ensures curSize == 0 ==> View().pending == map[]
      ensures curSize > 0 ==> array_[0] != null && array_[0] in View().pending
      ensures curSize > 0 ==> View().pending[array_[0]] == Entry(Key(array_[0]), array_[0].callback)
      ensures forall u :: curSize > 0 && u in View().pending ==> Key(array_[0]) <= View().pending[u].expire
    {
      if curSize > 0 {
        TopOfAll(Elems());
        assert array_[0] == Elems()[0];
      }
    }

    /** Removes the timer that expires first; its callback is not made. */
    method PopTimer()
      requires Valid()
      modifies this`curSize, array_
      ensures Valid()
      ensures curSize == if old(curSize) == 0 then 0 else old(curSize) - 1
      ensures if old(curSize) == 0 then View() == old(View()) else Pops(old(View()), View(), old(array_[0]))
    {
      if curSize == 0 {
        return;
      }
      TopView();
      if array_[0] != null {
        ghost var before, top := View(), array_[0];
        hide HeapFrom, Distinct, Pops;
        RemoveFirst();
        assert View().pending == before.pending - {top};
        PopsIntro(before, View(), top);
      }
    }

    /** One turn of the loop of `tick`: the top calls back, unless its callback is gone, and is removed. */
    method FireTop(now: int)
      requires Valid() && curSize > 0
      modifies this`curSize, this`fired, array_
      ensures Valid()
      ensures Fires(old(View()), View(), old(array_[0]), now) && curSize == old(curSize) - 1
    {
      hide HeapFrom, Distinct;
      TopView();
      if array_[0].callback {
        fired := fired + [(array_[0], now)];
      }
      PopTimer();
    }

    /** Removes every timer that is due by `now`, which is the clock sampled once, and makes the callbacks. */
    method Tick(now: int) returns (ghost removed: seq<HeapTimer?>)
      requires Valid()
      modifies this`curSize, this`fired, array_
      ensures Valid()
      ensures Ticks(old(View()), View(), now, removed)
    {
      hide HeapFrom, Distinct, Progress, Fires, Ticks, View;
      removed := [];
      ghost var start := View();
      ProgressStart(start, now);
      var tmp := array_[0];
      while curSize != 0
        invariant Valid()
        invariant curSize != 0 ==> tmp == array_[0]
        invariant Progress(start, View(), now, removed)
        decreases curSize
      {
        TopView();
        if tmp == null || Key(tmp) > now {
          break;
        }
        ghost var before := View();
        FireTop(now);
        ProgressStep(start, before, View(), now, removed, tmp);
        removed := removed + [tmp];
        tmp := array_[0];
      }
      TopView();
      ProgressEnd(start, View(), now, removed);
    }
  }

  lemma PopsIntro<T>(s: Timers<T>, s': Timers<T>, t: T)
    requires t in s.pending && (forall u :: u in s.pending ==> s.pending[t].expire <= s.pending[u].expire)
    requires s' == s.(pending := s.pending - {t})
    ensures Pops(s, s', t)
  {
  }

  /** The earliest timer leaves, calling back if it is armed. */
  ghost predicate Fires<T>(s: Timers<T>, s': Timers<T>, top: T, now: int) {
    && top in s.pending
    && (forall u :: u in s.pending ==> s.pending[top].expire <= s.pending[u].expire)
    && s' == Timers(s.pending - {top}, s.fired + (if s.pending[top].armed then [(top, now)] else []), s.used)
  }

  /** A tick in progress: so far the due timers `removed` are gone, in order, and their callbacks made. */
  ghost predicate Progress<T>(start: Timers<T>, s: Timers<T>, now: int, removed: seq<T>) {
    && Sorted(start.pending, removed)
    && (forall t :: t in removed ==> start.pending[t].expire <= now)
    && (forall t, u :: t in removed && u in s.pending ==> start.pending[t].expire <= s.pending[u].expire)
    && s.pending == start.pending - (set t | t in removed)
    && s.fired == start.fired + Firings(start.pending, removed, now)
    && s.used == start.used
  }

  lemma ProgressStart<T>(start: Timers<T>, now: int)
    ensures Progress(start, start, now, [])
  {
  }

  lemma ProgressStep<T>(start: Timers<T>, s: Timers<T>, s': Timers<T>, now: int, removed: seq<T>, top: T)
    requires Progress(start, s, now, removed)
    requires Fires(s, s', top, now) && s.pending[top].expire <= now
    ensures Progress(start, s', now, removed + [top])
  {
    assert (removed + [top])[..|removed|] == removed;
  }

  lemma ProgressEnd<T>(start: Timers<T>, s: Timers<T>, now: int, removed: seq<T>)
    requires Progress(start, s, now, removed)
    requires forall u :: u in s.pending ==> s.pending[u].expire > now
    ensures Ticks(start, s, now, removed)
  {
    forall t | t in start.pending ensures t in removed <==> start.pending[t].expire <= now {
      if t !in removed {
        assert t in s.pending;
      }
    }
  }

  lemma SameStart(s: seq<HeapTimer?>, s': seq<HeapTimer?>)
    requires null !in s && forall t :: t in s <==> t in s'
    ensures StartOf(s) == StartOf(s')
  {
  }

  lemma TopOfAll(s: seq<HeapTimer?>)
    requires HeapFrom(s, 0) && s != []
    ensures forall t :: t in s ==> Key(s[0]) <= Key(t)
  {
    forall t | t in s ensures Key(s[0]) <= Key(t) {
      var i :| 0 <= i < |s| && s[i] == t;
      TopIsLeast(s, i);
    }
  }

  /** Moving the last element to the top and dropping the last position removes just the top. */
  lemma RemoveTop(was: seq<HeapTimer?>, s: seq<HeapTimer?>)
    requires HeapFrom(was, 0) && Distinct(was) && |was| == |s| + 1
    requires forall i :: 0 <= i < |s| ==> s[i] == was[if i == 0 then |s| else i]
    ensures HeapFrom(s, 1) && Distinct(s)
    ensures multiset(s) == multiset(was) - multiset{was[0]}
    ensures forall t :: t in s <==> t in was && t != was[0]
  {
    var n := |was| - 1;
    if n > 0 {
      assert s == [was[n]] + was[1..n];
      assert was == [was[0]] + was[1..n] + [was[n]];
      assert multiset(was) == multiset{was[0]} + multiset(was[1..n]) + multiset{was[n]};
      assert multiset(s) == multiset{was[n]} + multiset(was[1..n]);
    } else {
      assert was == [was[0]];
    }
    forall t ensures t in s <==> t in was && t != was[0] {
      assert t in s <==> t in multiset(s);
      assert t in was <==> t in multiset(was);
      assert was[0] in multiset(was);
    }
  }

  lemma AddElement(was: seq<HeapTimer?>, s: seq<HeapTimer?>, timer: HeapTimer)
    requires Distinct(was) && multiset(s) == multiset(was) + multiset{timer}
    ensures Distinct(s) <==> timer !in was
    ensures null !in s
    ensures forall t :: t in s <==> t in was || t == timer
  {
    forall t ensures t in s <==> t in was || t == timer {
      assert t in s <==> t in multiset(s);
      assert t in was <==> t in multiset(was);
    }
  }
}
