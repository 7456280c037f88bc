/**
The linked queue over reused slots of lockfreeQueue.c, with one thread pushing and one thread popping.

Every shared load, store, compare-and-swap and fetch-and-add of `lock_fQueue_push` and `lock_fQueue_pop`
is a step of its own, and `memcpy` moves one byte a step, so a run is any interleaving of the two calls.
*/
module SpscQueue {
  import opened Runs
  import opened Arith

  type Payload = seq<bv8>

  const LIST_END := -1
  const QUEUE_HEAD_BYTES := 28
  const UNIT_HEAD_BYTES := 8
  const INT32_MAX := 0x7FFF_FFFF

  /** The test at the top of pop as it is written, and the one the header's return codes describe. */
  datatype Guard = Printed | Documented

  predicate Refuses(guard: Guard, rLen: int) {
    match guard
    case Printed => rLen >= 0
    case Documented => rLen <= 0
  }

  /** The program counter and locals of the pushing thread; each name is the shared access that comes next. */
  datatype Producer =
    | Idle
    | LoadWLen(v: Payload)
    | CasWLen(v: Payload, seen: int)
    | LoadWTail(v: Payload)
    | CasWTail(v: Payload, seen: int)
    | TestUseFlag(v: Payload, slot: int)
    | ClearNext(v: Payload, slot: int)
    | SetUseFlag(v: Payload, slot: int)
    | CopyIn(v: Payload, slot: int, k: nat)
    | LoadPTail(v: Payload, slot: int, tries: nat)
    | Walk(v: Payload, slot: int, tries: nat, tail: int, cur: int)
    | CasNext(v: Payload, slot: int, tries: nat, tail: int, cur: int)
    | CasPTail(v: Payload, slot: int, tail: int)
    | AddRLen(v: Payload, slot: int)

  /** The program counter and locals of the popping thread. */
  datatype Consumer =
    | Resting
    | LoadRLen
    | CasRLen(seen: int)
    | LoadPHead
    | LoadHeadNext(head: int)
    | CasPHead(head: int, following: int)
    | LoadSource(head: int)
    | CopyOut(head: int, source: int, out: Payload)
    | LoadFreed(head: int, out: Payload)
    | ClearUseFlag(freed: int, out: Payload)
    | SubWLen(out: Payload)

  /**
  The units are three columns, `next` and `useFlag` of the unit heads and the unit data, with offset -1 first.
  The last three fields are history. `sent` lists the units whose push returned 0, `got` the bytes every
  successful pop handed out, and `slots` the slots taken by pushes in order, after that of the initial dummy.
  */
  datatype State = State(
    guard: Guard, unitSize: nat, max: nat,
    pHead: int, pTail: int, wTail: int, wLen: int, rLen: int,
    next: seq<int>, useFlag: seq<bool>, data: seq<Payload>,
    prod: Producer, cons: Consumer,
    sent: seq<Payload>, got: seq<Payload>, slots: seq<int>)
  {
    predicate IsOffset(offset: int) {
      LIST_END <= offset <= max && |next| == |useFlag| == |data| == max + 2
    }
  }

  datatype Action = CallPush(v: Payload) | StepPush | CallPop | StepPop

  datatype InitResult = Refused(code: int) | Ready(queue: State)

  /** `lock_fQueue_init` on fresh zeroed memory; a negative `unit_size` fails the unsigned comparison. */
  function InitQueue(guard: Guard, unitSize: int, max: nat): InitResult {
    if unitSize == 0 || max == 0 then Refused(-2)
    else if unitSize < 0 || unitSize > INT32_MAX - UNIT_HEAD_BYTES then Refused(-3)
    else
      var zero := seq(unitSize, i => 0 as bv8);
      Ready(State(guard, unitSize, max, LIST_END, LIST_END, 0, 0, 0,
                  seq(max + 2, i => if i == 0 then LIST_END else 0), seq(max + 2, i => false), seq(max + 2, i => zero),
                  Idle, Resting, [], [], [LIST_END]))
  }

  /** The step can be taken without touching memory outside the units. */
  predicate Enabled(s: State, a: Action) {
    match a
    case CallPush(v) => s.prod.Idle? && |v| == s.unitSize
    case CallPop => s.cons.Resting?
    case StepPush => (
      match s.prod
      case Idle => false
      case TestUseFlag(_, slot) => s.IsOffset(slot)
      case ClearNext(_, slot) => s.IsOffset(slot)
      case SetUseFlag(_, slot) => s.IsOffset(slot)
      case CopyIn(v, slot, k) => s.IsOffset(slot) && k <= |v| && |s.data[slot + 1]| == |v|
      case Walk(_, _, _, _, cur) => s.IsOffset(cur)
      case CasNext(_, _, _, _, cur) => s.IsOffset(cur)
      case _ => true)
    case StepPop => (
      match s.cons
      case Resting => false
      case LoadHeadNext(head) => s.IsOffset(head)
      case LoadSource(head) => s.IsOffset(head)
      case CopyOut(_, source, out) => s.IsOffset(source) && |out| <= s.unitSize == |s.data[source + 1]|
      case LoadFreed(head, _) => s.IsOffset(head)
      case ClearUseFlag(freed, _) => s.IsOffset(freed)
      case _ => true)
  }

  function Do(s: State, a: Action): State
    requires Enabled(s, a)
  {
    match a
    case CallPush(v) => s.(prod := LoadWLen(v))
    case CallPop => s.(cons := LoadRLen)
    case StepPush => PushStep(s)
    case StepPop => PopStep(s)
  }

  function PushStep(s: State): State
    requires Enabled(s, StepPush)
  {
    match s.prod
    case LoadWLen(v) => s.(prod := if s.wLen >= s.max then Idle else CasWLen(v, s.wLen))
    case CasWLen(v, seen) =>
      if s.wLen == seen then s.(wLen := seen + 1, prod := LoadWTail(v)) else s.(prod := LoadWLen(v))
    case LoadWTail(v) => s.(prod := CasWTail(v, s.wTail))
    case CasWTail(v, seen) =>
      var slot := seen % (s.max + 1);
      if s.wTail == seen then s.(wTail := slot + 1, prod := TestUseFlag(v, slot), slots := s.slots + [slot])
      else s.(prod := LoadWTail(v))
    case TestUseFlag(v, slot) =>
      s.(prod := if s.useFlag[slot + 1] then LoadWTail(v) else ClearNext(v, slot))
    case ClearNext(v, slot) => s.(next := s.next[slot + 1 := LIST_END], prod := SetUseFlag(v, slot))
    case SetUseFlag(v, slot) => s.(useFlag := s.useFlag[slot + 1 := true], prod := CopyIn(v, slot, 0))
    case CopyIn(v, slot, k) =>
      if k == |v| then s.(prod := LoadPTail(v, slot, 0))
      else
        s.(data := s.data[slot + 1 := s.data[slot + 1][k := v[k]]], prod := CopyIn(v, slot, k + 1))
    case LoadPTail(v, slot, tries) =>
      if tries + 1 >= 3 then s.(prod := Walk(v, slot, tries + 1, s.pTail, s.pTail))
      else s.(prod := CasNext(v, slot, tries + 1, s.pTail, s.pTail))
    case Walk(v, slot, tries, tail, cur) =>
      if s.next[cur + 1] != LIST_END then s.(prod := Walk(v, slot, tries, tail, s.next[cur + 1]))
      else s.(prod := CasNext(v, slot, tries, tail, cur))
    case CasNext(v, slot, tries, tail, cur) =>
      if s.next[cur + 1] == LIST_END then s.(next := s.next[cur + 1 := slot], prod := CasPTail(v, slot, tail))
      else s.(prod := LoadPTail(v, slot, tries))
    case CasPTail(v, slot, tail) =>
      s.(pTail := if s.pTail == tail then slot else s.pTail, prod := AddRLen(v, slot))
    case AddRLen(v, _) => s.(rLen := s.rLen + 1, prod := Idle, sent := s.sent + [v])
  }

  function PopStep(s: State): State
    requires Enabled(s, StepPop)
  {
    match s.cons
    case LoadRLen => s.(cons := if Refuses(s.guard, s.rLen) then Resting else CasRLen(s.rLen))
    case CasRLen(seen) =>
      if s.rLen == seen then s.(rLen := seen - 1, cons := LoadPHead) else s.(cons := LoadRLen)
    case LoadPHead => s.(cons := LoadHeadNext(s.pHead))
    case LoadHeadNext(head) => s.(cons := CasPHead(head, s.next[head + 1]))
    case CasPHead(head, following) =>
      if s.pHead == head then s.(pHead := following, cons := LoadSource(head)) else s.(cons := LoadPHead)
    case LoadSource(head) => s.(cons := CopyOut(head, s.next[head + 1], []))
    case CopyOut(head, source, out) =>
      if |out| == s.unitSize then s.(cons := LoadFreed(head, out))
      else s.(cons := CopyOut(head, source, out + [s.data[source + 1][|out|]]))
    case LoadFreed(head, out) => s.(cons := ClearUseFlag(s.next[head + 1], out))
    case ClearUseFlag(freed, out) => s.(useFlag := s.useFlag[freed + 1 := false], cons := SubWLen(out))
    case SubWLen(out) => s.(wLen := s.wLen - 1, cons := Resting, got := s.got + [out])
  }

  ghost predicate Init(s: State) {
    exists guard, unitSize, max: nat :: InitQueue(guard, unitSize, max) == Ready(s)
  }

  ghost predicate Next(s: State, s': State) {
    exists a :: Enabled(s, a) && s' == Do(s, a)
  }

  // ---------- where the threads are ----------

  /** How far the push has come, as the number of shared accesses that are behind it on the straight path. */
  function PushStage(p: Producer): nat {
    match p
    case Idle => 0
    case LoadWLen(_) => 1
    case CasWLen(_, _) => 2
    case LoadWTail(_) => 3
    case CasWTail(_, _) => 4
    case TestUseFlag(_, _) => 5
    case ClearNext(_, _) => 6
    case SetUseFlag(_, _) => 7
    case CopyIn(_, _, _) => 8
    case LoadPTail(_, _, _) => 9
    case Walk(_, _, _, _, _) => 10
    case CasNext(_, _, _, _, _) => 11
    case CasPTail(_, _, _) => 12
    case AddRLen(_, _) => 13
  }

  /** The push has counted itself in `w_len`. */
  predicate Reserved(p: Producer) { PushStage(p) >= 3 }

  /** The push owns a slot. */
  predicate HasSlot(p: Producer) { PushStage(p) >= 5 }

  predicate Terminated(p: Producer) { PushStage(p) >= 7 }

  predicate Flagged(p: Producer) { PushStage(p) >= 8 }

  predicate Copied(p: Producer) { PushStage(p) >= 9 }

  /** The new unit hangs off the previous tail. */
  predicate Linked(p: Producer) { PushStage(p) >= 12 }

  function PopStage(c: Consumer): nat {
    match c
    case Resting => 0
    case LoadRLen => 1
    case CasRLen(_) => 2
    case LoadPHead => 3
    case LoadHeadNext(_) => 4
    case CasPHead(_, _) => 5
    case LoadSource(_) => 6
    case CopyOut(_, _, _) => 7
    case LoadFreed(_, _) => 8
    case ClearUseFlag(_, _) => 9
    case SubWLen(_) => 10
  }

  /** The pop has taken a unit off `r_len`. */
  predicate Claimed(c: Consumer) { PopStage(c) >= 3 }

  /** The pop has moved `p_head` past the old dummy. */
  predicate Moved(c: Consumer) { PopStage(c) >= 6 }

  // ---------- the invariant ----------

  /** What pops handed out is what was pushed, in order, up to now. */
  ghost predicate Delivered(got: seq<Payload>, sent: seq<Payload>) {
    got <= sent
  }

  ghost predicate Counters(s: State) {
    var sent, got := |s.sent|, |s.got|;
    && s.max > 0
    && |s.next| == |s.useFlag| == |s.data| == s.max + 2
    && |s.slots| == 1 + sent + One(HasSlot(s.prod))
    && (forall i :: 0 <= i < |s.slots| ==> LIST_END <= s.slots[i] <= s.max)
    && got + One(Claimed(s.cons)) <= sent
    && s.wLen == sent + One(Reserved(s.prod)) - got <= s.max
    && s.rLen == sent - got - One(Claimed(s.cons))
    && Delivered(s.got, s.sent)
  }

  /** The three cursors stand on the slot taken last, on the dummy and on the last linked unit. */
  ghost predicate Pointers(s: State, head: nat, tail: nat)
    requires head < |s.slots| && tail < |s.slots|
  {
    && s.wTail == s.slots[|s.slots| - 1] + 1
    && s.pHead == s.slots[head]
    && s.pTail == s.slots[tail]
  }

  ghost predicate Sized(unitSize: nat, payloads: seq<Payload>) {
    forall i :: 0 <= i < |payloads| ==> |payloads[i]| == unitSize
  }

  /** The slots were handed out by a counter that wraps after `n`. */
  ghost predicate Cyclic(slots: seq<int>, n: nat) {
    if |slots| <= 1 then slots == [LIST_END]
    else
      var last := |slots| - 1;
      && Cyclic(slots[..last], n)
      && 0 <= slots[last] < n
      && slots[last] == if slots[last - 1] + 1 == n then 0 else slots[last - 1] + 1
  }

  /** From position `i` on, walking the links meets the slots in push order and finds what was pushed there. */
  ghost predicate Chain(next: seq<int>, data: seq<Payload>, slots: seq<int>, sent: seq<Payload>, i: nat)
    decreases |sent| - i
  {
    i < |sent| ==>
      && i + 1 < |slots|
      && 0 <= slots[i] + 1 < |next|
      && 0 <= slots[i + 1] + 1 < |data|
      && next[slots[i] + 1] == slots[i + 1]
      && data[slots[i + 1] + 1] == sent[i]
      && Chain(next, data, slots, sent, i + 1)
  }

  /** Exactly the slots in this window have their flag set. */
  ghost predicate FlagsExact(useFlag: seq<bool>, window: seq<int>) {
    forall k :: 0 <= k < |useFlag| ==> (useFlag[k] <==> k - 1 in window)
  }

  /** The first `k` bytes of the unit are copied. */
  ghost predicate Filled(have: Payload, v: Payload, k: nat) {
    k <= |v| == |have| && have[..k] == v[..k]
  }

  ghost predicate Prefix(out: Payload, unit: Payload) {
    out <= unit
  }

  /** What the locals of a push in progress mean, and what it has already written to its slot. */
  ghost predicate ProducerOk(p: Producer, unitSize: nat, max: nat, wTail: int, pTail: int, next: seq<int>,
                             data: seq<Payload>, slots: seq<int>, sent: nat)
    requires |slots| == 1 + sent + One(HasSlot(p))
    requires |next| == |data| == max + 2
    requires forall i :: 0 <= i < |slots| ==> LIST_END <= slots[i] <= max
  {
    && (!p.Idle? ==> |p.v| == unitSize)
    && (p.CasWLen? ==> p.seen < max)
    && (p.CasWTail? ==> p.seen == wTail)
    && (HasSlot(p) ==> p.slot == slots[sent + 1])
    && next[slots[sent] + 1] == (if Linked(p) then p.slot else LIST_END)
    && (Terminated(p) ==> next[p.slot + 1] == LIST_END)
    && (p.CopyIn? ==> Filled(data[p.slot + 1], p.v, p.k))
    && (Copied(p) ==> data[p.slot + 1] == p.v)
    && (p.LoadPTail? ==> p.tries == 0)
    && !p.Walk?
    && (p.CasNext? ==> p.tries == 1 && p.tail == p.cur == pTail)
    && (p.CasPTail? ==> p.tail == pTail)
  }

  /** What the locals of a pop in progress mean. */
  ghost predicate ConsumerOk(c: Consumer, guard: Guard, slots: seq<int>, sent: seq<Payload>, got: nat)
    requires |sent| < |slots| && got + One(Claimed(c)) <= |sent|
  {
    && (c.CasRLen? ==> !Refuses(guard, c.seen))
    && (4 <= PopStage(c) <= 8 ==> c.head == slots[got])
    && (c.CasPHead? ==> c.following == slots[got + 1])
    && (c.CopyOut? ==> c.source == slots[got + 1] && Prefix(c.out, sent[got]))
    && (PopStage(c) >= 8 ==> c.out == sent[got])
    && (c.ClearUseFlag? ==> c.freed == slots[got + 1])
  }

  ghost predicate Inv(s: State) {
    && Counters(s)
    && Pointers(s, |s.got| + One(Moved(s.cons)), |s.sent| + One(s.prod.AddRLen?))
    && Sized(s.unitSize, s.sent)
    && Sized(s.unitSize, s.data)
    && Cyclic(s.slots, s.max + 1)
    && Chain(s.next, s.data, s.slots, s.sent, |s.got|)
    && FlagsExact(s.useFlag, s.slots[|s.got| + 1 + One(s.cons.SubWLen?)..|s.sent| + 1 + One(Flagged(s.prod))])
    && ProducerOk(s.prod, s.unitSize, s.max, s.wTail, s.pTail, s.next, s.data, s.slots, |s.sent|)
    && ConsumerOk(s.cons, s.guard, s.slots, s.sent, |s.got|)
  }

  // ---------- slots ----------

  /** After a push the counter needs a full turn of `n` pushes to come back to its slot. */
  lemma {:induction false} CyclicDistance(slots: seq<int>, n: nat, i: nat, d: nat)
    requires Cyclic(slots, n)
    requires i + d < |slots| && 0 < d < n
    ensures slots[i] != slots[i + d]
    ensures LIST_END <= slots[i + d] < n
    ensures if i == 0 then slots[i + d] == d - 1
            else slots[i + d] == slots[i] + d || slots[i + d] == slots[i] + d - n
    decreases d
  {
    CyclicPrefix(slots, n, i + d + 1);
    CyclicPrefix(slots, n, i + 1);
    if d > 1 {
      CyclicDistance(slots, n, i, d - 1);
    }
  }

  lemma {:induction false} CyclicPrefix(slots: seq<int>, n: nat, k: nat)
    requires Cyclic(slots, n) && 0 < k <= |slots|
    ensures Cyclic(slots[..k], n)
  {
    if k < |slots| {
      var last := |slots| - 1;
      CyclicPrefix(slots[..last], n, k);
      assert slots[..last][..k] == slots[..k];
    } else {
      assert slots[..k] == slots;
    }
  }

  /** No two of the slots from the dummy on coincide: not the dummy, not an unread unit, not the one being filled. */
  lemma SlotsApart(s: State, j: nat)
    requires Inv(s) && |s.got| <= j < |s.slots|
    ensures forall i :: |s.got| <= i < j ==> s.slots[i] != s.slots[j]
  {
    forall i | |s.got| <= i < j ensures s.slots[i] != s.slots[j] {
      CyclicDistance(s.slots, s.max + 1, i, j - i);
    }
  }

  /** Writes to links and data that the chain does not use leave it alone. */
  lemma {:induction false} ChainFrame(next: seq<int>, data: seq<Payload>, next': seq<int>, data': seq<Payload>,
                                      slots: seq<int>, sent: seq<Payload>, i: nat)
    requires Chain(next, data, slots, sent, i)
    requires |sent| < |slots| && |next| == |next'| && |data| == |data'|
    requires forall k :: i <= k < |sent| && 0 <= slots[k] + 1 < |next| ==> next'[slots[k] + 1] == next[slots[k] + 1]
    requires forall k :: i < k <= |sent| && 0 <= slots[k] + 1 < |data| ==> data'[slots[k] + 1] == data[slots[k] + 1]
    ensures Chain(next', data', slots, sent, i)
    decreases |sent| - i
  {
    if i < |sent| {
      ChainFrame(next, data, next', data', slots, sent, i + 1);
    }
  }

  lemma {:induction false} ChainSlots(next: seq<int>, data: seq<Payload>, slots: seq<int>, slots': seq<int>,
                                      sent: seq<Payload>, i: nat)
    requires Chain(next, data, slots, sent, i)
    requires |sent| < |slots| && slots <= slots'
    ensures Chain(next, data, slots', sent, i)
    decreases |sent| - i
  {
    if i < |sent| {
      ChainSlots(next, data, slots, slots', sent, i + 1);
    }
  }

  /** Linking a filled unit behind the last one makes the chain one longer. */
  lemma {:induction false} ChainGrow(next: seq<int>, data: seq<Payload>, slots: seq<int>, sent: seq<Payload>,
                                     i: nat, v: Payload)
    requires Chain(next, data, slots, sent, i)
    requires i <= |sent| && |slots| == |sent| + 2
    requires 0 <= slots[|sent|] + 1 < |next| && next[slots[|sent|] + 1] == slots[|sent| + 1]
    requires 0 <= slots[|sent| + 1] + 1 < |data| && data[slots[|sent| + 1] + 1] == v
    ensures Chain(next, data, slots, sent + [v], i)
    decreases |sent| - i
  {
    if i < |sent| {
      ChainGrow(next, data, slots, sent, i + 1, v);
    } else {
      assert (sent + [v])[i] == v;
    }
  }

  lemma FlagsGrow(useFlag: seq<bool>, useFlag': seq<bool>, window: seq<int>, window': seq<int>)
    requires FlagsExact(useFlag, window) && |useFlag'| == |useFlag|
    requires forall k :: 0 <= k < |useFlag| && (useFlag[k] <==> k - 1 in window) ==> (useFlag'[k] <==> k - 1 in window')
    ensures FlagsExact(useFlag', window')
  {
  }

  lemma Fill(have: Payload, v: Payload, k: nat)
    ensures |have| == |v| ==> Filled(have, v, 0)
    ensures Filled(have, v, k) && k < |v| ==> Filled(have[k := v[k]], v, k + 1)
    ensures Filled(have, v, k) && k == |v| ==> have == v
  {
  }

  lemma Extract(out: Payload, unit: Payload)
    ensures Prefix([], unit)
    ensures Prefix(out, unit) && |out| < |unit| ==> Prefix(out + [unit[|out|]], unit)
    ensures Prefix(out, unit) && |out| == |unit| ==> out == unit
  {
  }

  // ---------- the invariant is kept ----------

  /** The part of the invariant on counters and cursors. */
  ghost predicate CursorsOk(s: State) {
    Counters(s) && Pointers(s, |s.got| + One(Moved(s.cons)), |s.sent| + One(s.prod.AddRLen?))
  }

  ghost predicate PushLocalsOk(s: State)
    requires Counters(s)
  {
    ProducerOk(s.prod, s.unitSize, s.max, s.wTail, s.pTail, s.next, s.data, s.slots, |s.sent|)
  }

  ghost predicate PopLocalsOk(s: State)
    requires Counters(s)
  {
    ConsumerOk(s.cons, s.guard, s.slots, s.sent, |s.got|)
  }

  ghost predicate FlagsOk(s: State)
    requires Counters(s)
  {
    FlagsExact(s.useFlag, s.slots[|s.got| + 1 + One(s.cons.SubWLen?)..|s.sent| + 1 + One(Flagged(s.prod))])
  }

  /** The dummy links to the oldest unread unit, which holds what was pushed. */
  lemma OldestUnit(s: State)
    requires Inv(s) && |s.got| < |s.sent|
    ensures s.next[s.slots[|s.got|] + 1] == s.slots[|s.got| + 1]
    ensures s.data[s.slots[|s.got| + 1] + 1] == s.sent[|s.got|]
    ensures |s.sent[|s.got|]| == s.unitSize
    ensures Chain(s.next, s.data, s.slots, s.sent, |s.got| + 1)
  {
  }

  lemma InitInv(s: State)
    requires Init(s)
    ensures Inv(s)
  {
  }

  lemma KeepLoadWLen(s: State)
    requires Inv(s) && s.prod.LoadWLen? && Enabled(s, StepPush)
    ensures Inv(PushStep(s))
  {
    hide Cyclic, Sized, Chain, FlagsExact, Delivered, ConsumerOk;
  }

  lemma KeepCasWLen(s: State)
    requires Inv(s) && s.prod.CasWLen? && Enabled(s, StepPush)
    ensures Inv(PushStep(s))
  {
    hide Cyclic, Sized, Chain, FlagsExact, Delivered, ConsumerOk;
  }

  lemma KeepLoadWTail(s: State)
    requires Inv(s) && s.prod.LoadWTail? && Enabled(s, StepPush)
    ensures Inv(PushStep(s))
  {
    hide Cyclic, Sized, Chain, FlagsExact, Delivered, ConsumerOk;
  }

  lemma CyclicGrow(slots: seq<int>, max: nat)
    requires slots != [] && Cyclic(slots, max + 1) && LIST_END <= slots[|slots| - 1] <= max
    ensures Cyclic(slots + [(slots[|slots| - 1] + 1) % (max + 1)], max + 1)
  {
    var last := slots[|slots| - 1];
    var slots' := slots + [(last + 1) % (max + 1)];
    assert slots'[..|slots|] == slots;
    Wrap(last + 1, max + 1);
  }

  lemma TakeSlot(s: State)
    requires Inv(s) && s.prod.CasWTail? && Enabled(s, StepPush) && s.wTail == s.prod.seen
    ensures var slots := PushStep(s).slots;
      && Cyclic(slots, s.max + 1)
      && Chain(s.next, s.data, slots, s.sent, |s.got|)
      && ConsumerOk(s.cons, s.guard, slots, s.sent, |s.got|)
  {
    hide Cyclic, Chain, FlagsExact, Sized, Delivered;
    CyclicGrow(s.slots, s.max);
    ChainSlots(s.next, s.data, s.slots, PushStep(s).slots, s.sent, |s.got|);
  }

  lemma CasWTailCursors(s: State)
    requires Inv(s) && s.prod.CasWTail? && Enabled(s, StepPush)
    ensures CursorsOk(PushStep(s))
  {
    hide Cyclic, Sized, Chain, FlagsExact, Delivered, ConsumerOk;
  }

  lemma CasWTailLocals(s: State)
    requires Inv(s) && s.prod.CasWTail? && Enabled(s, StepPush) && Counters(PushStep(s))
    ensures PushLocalsOk(PushStep(s)) && FlagsOk(PushStep(s))
  {
    hide Cyclic, Sized, Chain, FlagsExact, Delivered, ConsumerOk;
    var lo := |s.got| + 1 + One(s.cons.SubWLen?);
    assert PushStep(s).slots[lo..|s.sent| + 1] == s.slots[lo..|s.sent| + 1];
  }

  lemma KeepCasWTail(s: State)
    requires Inv(s) && s.prod.CasWTail? && Enabled(s, StepPush)
    ensures Inv(PushStep(s))
  {
    hide Cyclic, Sized, Chain, FlagsExact, Delivered, ConsumerOk, ProducerOk, Counters, Pointers;
    CasWTailCursors(s);
    CasWTailLocals(s);
    if s.wTail == s.prod.seen {
      TakeSlot(s);
    }
  }

  lemma SlotIsFree(s: State)
    requires Inv(s) && s.prod.TestUseFlag? && Enabled(s, StepPush)
    ensures !s.useFlag[s.prod.slot + 1]
  {
    SlotsApart(s, |s.sent| + 1);
  }

  lemma KeepTestUseFlag(s: State)
    requires Inv(s) && s.prod.TestUseFlag? && Enabled(s, StepPush)
    ensures Inv(PushStep(s))
  {
    hide Cyclic, Sized, Chain, FlagsExact, Delivered, ConsumerOk;
    SlotIsFree(s);
  }

  lemma ClearNextOffChain(s: State)
    requires Inv(s) && s.prod.ClearNext? && Enabled(s, StepPush)
    ensures Chain(PushStep(s).next, s.data, s.slots, s.sent, |s.got|)
    ensures s.prod.slot != s.slots[|s.sent|]
  {
    SlotsApart(s, |s.sent| + 1);
    ChainFrame(s.next, s.data, PushStep(s).next, s.data, s.slots, s.sent, |s.got|);
  }

  lemma KeepClearNext(s: State)
    requires Inv(s) && s.prod.ClearNext? && Enabled(s, StepPush)
    ensures Inv(PushStep(s))
  {
    hide Cyclic, Sized, Chain, FlagsExact, Delivered, ConsumerOk;
    ClearNextOffChain(s);
  }

  lemma RaiseFlag(s: State)
    requires Inv(s) && s.prod.SetUseFlag? && Enabled(s, StepPush)
    ensures FlagsExact(PushStep(s).useFlag, s.slots[|s.got| + 1 + One(s.cons.SubWLen?)..|s.sent| + 2])
    ensures |s.data[s.prod.slot + 1]| == |s.prod.v|
  {
    var lo := |s.got| + 1 + One(s.cons.SubWLen?);
    assert s.slots[lo..|s.sent| + 2] == s.slots[lo..|s.sent| + 1] + [s.prod.slot];
    FlagsGrow(s.useFlag, PushStep(s).useFlag, s.slots[lo..|s.sent| + 1], s.slots[lo..|s.sent| + 2]);
  }

  lemma KeepSetUseFlag(s: State)
    requires Inv(s) && s.prod.SetUseFlag? && Enabled(s, StepPush)
    ensures Inv(PushStep(s))
  {
    hide Cyclic, Sized, Chain, FlagsExact, Delivered, ConsumerOk, Filled;
    RaiseFlag(s);
    Fill(s.data[s.prod.slot + 1], s.prod.v, 0);
  }

  lemma CopyInOffChain(s: State)
    requires Inv(s) && s.prod.CopyIn? && Enabled(s, StepPush)
    ensures Chain(s.next, PushStep(s).data, s.slots, s.sent, |s.got|)
    ensures Sized(s.unitSize, PushStep(s).data)
  {
    SlotsApart(s, |s.sent| + 1);
    ChainFrame(s.next, s.data, s.next, PushStep(s).data, s.slots, s.sent, |s.got|);
  }

  lemma CopyInCursors(s: State)
    requires Inv(s) && s.prod.CopyIn? && Enabled(s, StepPush)
    ensures CursorsOk(PushStep(s))
  {
    hide Cyclic, Sized, Chain, FlagsExact, Delivered, ConsumerOk, Filled;
  }

  lemma KeepCopyIn(s: State)
    requires Inv(s) && s.prod.CopyIn? && Enabled(s, StepPush)
    ensures Inv(PushStep(s))
  {
    hide Cyclic, Sized, Chain, FlagsExact, Delivered, ConsumerOk, Filled, Counters, Pointers;
    CopyInCursors(s);
    CopyInOffChain(s);
    Fill(s.data[s.prod.slot + 1], s.prod.v, s.prod.k);
  }

  lemma KeepLoadPTail(s: State)
    requires Inv(s) && s.prod.LoadPTail? && Enabled(s, StepPush)
    ensures Inv(PushStep(s))
  {
    hide Cyclic, Sized, Chain, FlagsExact, Delivered, ConsumerOk;
  }

  lemma LinkBehindChain(s: State)
    requires Inv(s) && s.prod.CasNext? && Enabled(s, StepPush)
    ensures Chain(PushStep(s).next, s.data, s.slots, s.sent, |s.got|)
    ensures s.prod.slot != s.slots[|s.sent|]
  {
    SlotsApart(s, |s.sent|);
    SlotsApart(s, |s.sent| + 1);
    ChainFrame(s.next, s.data, PushStep(s).next, s.data, s.slots, s.sent, |s.got|);
  }

  lemma CasNextCursors(s: State)
    requires Inv(s) && s.prod.CasNext? && Enabled(s, StepPush)
    ensures CursorsOk(PushStep(s))
  {
    hide Cyclic, Sized, Chain, FlagsExact, Delivered, ConsumerOk;
  }

  lemma CasNextLocals(s: State)
    requires Inv(s) && s.prod.CasNext? && Enabled(s, StepPush) && Counters(PushStep(s))
    ensures PushLocalsOk(PushStep(s))
  {
    hide Cyclic, Sized, Chain, FlagsExact, Delivered, ConsumerOk;
    LinkBehindChain(s);
  }

  lemma KeepCasNext(s: State)
    requires Inv(s) && s.prod.CasNext? && Enabled(s, StepPush)
    ensures Inv(PushStep(s))
  {
    hide Cyclic, Sized, Chain, FlagsExact, Delivered, ConsumerOk, ProducerOk, Counters, Pointers;
    CasNextCursors(s);
    LinkBehindChain(s);
    CasNextLocals(s);
  }

  lemma KeepCasPTail(s: State)
    requires Inv(s) && s.prod.CasPTail? && Enabled(s, StepPush)
    ensures Inv(PushStep(s))
  {
    hide Cyclic, Sized, Chain, FlagsExact, Delivered, ConsumerOk;
  }

  lemma AppendUnit(s: State)
    requires Inv(s) && s.prod.AddRLen? && Enabled(s, StepPush)
    ensures var sent' := PushStep(s).sent;
      && Chain(s.next, s.data, s.slots, sent', |s.got|)
      && Sized(s.unitSize, sent')
      && Delivered(s.got, sent')
      && ConsumerOk(s.cons, s.guard, s.slots, sent', |s.got|)
  {
    ChainGrow(s.next, s.data, s.slots, s.sent, |s.got|, s.prod.v);
  }

  lemma KeepAddRLen(s: State)
    requires Inv(s) && s.prod.AddRLen? && Enabled(s, StepPush)
    ensures Inv(PushStep(s))
  {
    hide Cyclic, Sized, Chain, FlagsExact, Delivered, ConsumerOk;
    AppendUnit(s);
  }

  lemma KeepLoadRLen(s: State)
    requires Inv(s) && s.cons.LoadRLen? && Enabled(s, StepPop)
    ensures Inv(PopStep(s))
  {
    hide Cyclic, Sized, Chain, FlagsExact, Delivered, ProducerOk;
  }

  lemma KeepCasRLen(s: State)
    requires Inv(s) && s.cons.CasRLen? && Enabled(s, StepPop)
    ensures Inv(PopStep(s))
  {
    hide Cyclic, Sized, Chain, FlagsExact, Delivered, ProducerOk;
  }

  lemma KeepLoadPHead(s: State)
    requires Inv(s) && s.cons.LoadPHead? && Enabled(s, StepPop)
    ensures Inv(PopStep(s))
  {
    hide Cyclic, Sized, Chain, FlagsExact, Delivered, ProducerOk;
  }

  lemma KeepLoadHeadNext(s: State)
    requires Inv(s) && s.cons.LoadHeadNext? && Enabled(s, StepPop)
    ensures Inv(PopStep(s))
  {
    hide Cyclic, Sized, Chain, FlagsExact, Delivered, ProducerOk;
    OldestUnit(s);
  }

  lemma KeepCasPHead(s: State)
    requires Inv(s) && s.cons.CasPHead? && Enabled(s, StepPop)
    ensures Inv(PopStep(s))
  {
    hide Cyclic, Sized, Chain, FlagsExact, Delivered, ProducerOk;
  }

  lemma KeepLoadSource(s: State)
    requires Inv(s) && s.cons.LoadSource? && Enabled(s, StepPop)
    ensures Inv(PopStep(s))
  {
    hide Cyclic, Sized, Chain, FlagsExact, Delivered, ProducerOk, Prefix;
    OldestUnit(s);
    Extract([], s.sent[|s.got|]);
  }

  lemma CopyOutCursors(s: State)
    requires Inv(s) && s.cons.CopyOut? && Enabled(s, StepPop)
    ensures CursorsOk(PopStep(s))
  {
    hide Cyclic, Sized, Chain, FlagsExact, Delivered, ProducerOk, Prefix;
  }

  lemma CopyOutLocals(s: State)
    requires Inv(s) && s.cons.CopyOut? && Enabled(s, StepPop) && Counters(PopStep(s))
    ensures PopLocalsOk(PopStep(s))
  {
    hide Cyclic, Sized, Chain, FlagsExact, Delivered, ProducerOk, Prefix;
    OldestUnit(s);
    Extract(s.cons.out, s.sent[|s.got|]);
  }

  lemma KeepCopyOut(s: State)
    requires Inv(s) && s.cons.CopyOut? && Enabled(s, StepPop)
    ensures Inv(PopStep(s))
  {
    hide Cyclic, Sized, Chain, FlagsExact, Delivered, ProducerOk, ConsumerOk, Counters, Pointers;
    CopyOutCursors(s);
    CopyOutLocals(s);
  }

  lemma KeepLoadFreed(s: State)
    requires Inv(s) && s.cons.LoadFreed? && Enabled(s, StepPop)
    ensures Inv(PopStep(s))
  {
    hide Cyclic, Sized, Chain, FlagsExact, Delivered, ProducerOk;
    OldestUnit(s);
  }

  lemma LowerFlag(s: State)
    requires Inv(s) && s.cons.ClearUseFlag? && Enabled(s, StepPop)
    ensures FlagsExact(PopStep(s).useFlag, s.slots[|s.got| + 2..|s.sent| + 1 + One(Flagged(s.prod))])
  {
    var hi := |s.sent| + 1 + One(Flagged(s.prod));
    assert s.slots[|s.got| + 1..hi] == [s.cons.freed] + s.slots[|s.got| + 2..hi];
    forall j | |s.got| + 2 <= j < hi ensures s.slots[j] != s.cons.freed {
      SlotsApart(s, j);
    }
    FlagsGrow(s.useFlag, PopStep(s).useFlag, s.slots[|s.got| + 1..hi], s.slots[|s.got| + 2..hi]);
  }

  lemma KeepClearUseFlag(s: State)
    requires Inv(s) && s.cons.ClearUseFlag? && Enabled(s, StepPop)
    ensures Inv(PopStep(s))
  {
    hide Cyclic, Sized, Chain, FlagsExact, Delivered, ProducerOk;
    LowerFlag(s);
  }

  lemma HandOut(s: State)
    requires Inv(s) && s.cons.SubWLen? && Enabled(s, StepPop)
    ensures var s' := PopStep(s);
      && Chain(s.next, s.data, s.slots, s.sent, |s'.got|)
      && Delivered(s'.got, s.sent)
  {
  }

  lemma KeepSubWLen(s: State)
    requires Inv(s) && s.cons.SubWLen? && Enabled(s, StepPop)
    ensures Inv(PopStep(s))
  {
    hide Cyclic, Sized, Chain, FlagsExact, Delivered, ProducerOk;
    HandOut(s);
  }

  lemma PushStepInv(s: State)
    requires Inv(s) && Enabled(s, StepPush)
    ensures Inv(PushStep(s))
  {
    hide Inv;
    match s.prod
    case LoadWLen(_) => KeepLoadWLen(s);
    case CasWLen(_, _) => KeepCasWLen(s);
    case LoadWTail(_) => KeepLoadWTail(s);
    case CasWTail(_, _) => KeepCasWTail(s);
    case TestUseFlag(_, _) => KeepTestUseFlag(s);
    case ClearNext(_, _) => KeepClearNext(s);
    case SetUseFlag(_, _) => KeepSetUseFlag(s);
    case CopyIn(_, _, _) => KeepCopyIn(s);
    case LoadPTail(_, _, _) => KeepLoadPTail(s);
    case Walk(_, _, _, _, _) => NeverWalks(s);
    case CasNext(_, _, _, _, _) => KeepCasNext(s);
    case CasPTail(_, _, _) => KeepCasPTail(s);
    case AddRLen(_, _) => KeepAddRLen(s);
  }

  lemma NeverWalks(s: State)
    requires Inv(s)
    ensures !s.prod.Walk?
  {
    hide Cyclic, Sized, Chain, FlagsExact, Delivered, ConsumerOk;
  }

  lemma PopStepInv(s: State)
    requires Inv(s) && Enabled(s, StepPop)
    ensures Inv(PopStep(s))
  {
    hide Inv;
    match s.cons
    case LoadRLen => KeepLoadRLen(s);
    case CasRLen(_) => KeepCasRLen(s);
    case LoadPHead => KeepLoadPHead(s);
    case LoadHeadNext(_) => KeepLoadHeadNext(s);
    case CasPHead(_, _) => KeepCasPHead(s);
    case LoadSource(_) => KeepLoadSource(s);
    case CopyOut(_, _, _) => KeepCopyOut(s);
    case LoadFreed(_, _) => KeepLoadFreed(s);
    case ClearUseFlag(_, _) => KeepClearUseFlag(s);
    case SubWLen(_) => KeepSubWLen(s);
  }

  lemma CallInv(s: State, a: Action)
    requires Inv(s) && Enabled(s, a) && (a.CallPush? || a.CallPop?)
    ensures Inv(Do(s, a))
  {
    hide Cyclic, Sized, Chain, FlagsExact, Delivered;
  }

  lemma StepInv(s: State, a: Action)
    requires Inv(s) && Enabled(s, a)
    ensures Inv(Do(s, a))
  {
    hide Inv;
    match a
    case StepPush => PushStepInv(s);
    case StepPop => PopStepInv(s);
    case _ => CallInv(s, a);
  }

  lemma RunInv(run: seq<State>)
    requires IsRun(Init, Next, run)
    ensures forall i :: 0 <= i < |run| ==> Inv(run[i])
  {
    forall s | Init(s) ensures Inv(s) { InitInv(s); }
    forall s, s' | Inv(s) && Next(s, s') ensures Inv(s') {
      var a :| Enabled(s, a) && s' == Do(s, a);
      StepInv(s, a);
    }
    Invariance(Init, Next, Inv, run);
  }

  // ---------- main results ----------

  /**
  A bounded first-in first-out queue whose removal is in two steps: the oldest unit is claimed, and later
  handed out.
  */
  datatype Fifo = Fifo(capacity: nat, waiting: seq<Payload>, claimed: seq<Payload>, delivered: seq<Payload>)

  predicate Enqueues(q: Fifo, q': Fifo, v: Payload) {
    && |q.waiting| + |q.claimed| < q.capacity
    && q' == q.(waiting := q.waiting + [v])
  }

  predicate Claims(q: Fifo, q': Fifo) {
    && q.claimed == [] && q.waiting != []
    && q' == q.(waiting := q.waiting[1..], claimed := [q.waiting[0]])
  }

  predicate Delivers(q: Fifo, q': Fifo) {
    && |q.claimed| == 1
    && q' == q.(claimed := [], delivered := q.delivered + q.claimed)
  }

  predicate HasView(s: State) {
    |s.got| + One(Claimed(s.cons)) <= |s.sent|
  }

  function Abs(s: State): Fifo
    requires HasView(s)
  {
    AbsOf(s.max, s.sent, s.got, |s.got| + One(Claimed(s.cons)))
  }

  function AbsOf(max: nat, sent: seq<Payload>, got: seq<Payload>, taken: nat): Fifo
    requires |got| <= taken <= |sent|
  {
    Fifo(max, sent[taken..], sent[|got|..taken], got)
  }

  lemma EnqueueView(max: nat, sent: seq<Payload>, got: seq<Payload>, taken: nat, v: Payload)
    requires |got| <= taken <= |sent| < |got| + max
    ensures Enqueues(AbsOf(max, sent, got, taken), AbsOf(max, sent + [v], got, taken), v)
  {
    assert (sent + [v])[taken..] == sent[taken..] + [v];
    assert (sent + [v])[|got|..taken] == sent[|got|..taken];
  }

  lemma ClaimView(max: nat, sent: seq<Payload>, got: seq<Payload>)
    requires |got| < |sent|
    ensures Claims(AbsOf(max, sent, got, |got|), AbsOf(max, sent, got, |got| + 1))
  {
    assert sent[|got|..|got| + 1] == [sent[|got|..][0]];
    assert sent[|got|..][1..] == sent[|got| + 1..];
  }

  lemma DeliverView(max: nat, sent: seq<Payload>, got: seq<Payload>)
    requires |got| < |sent|
    ensures Delivers(AbsOf(max, sent, got, |got| + 1), AbsOf(max, sent, got + [sent[|got|]], |got| + 1))
  {
    assert sent[|got|..|got| + 1] == [sent[|got|]];
  }

  /** Until the increment of `r_len` a push shows nothing. */
  lemma PushHistory(s: State)
    requires Enabled(s, StepPush)
    ensures var s' := PushStep(s);
      && s'.got == s.got && s'.cons == s.cons && s'.max == s.max
      && s'.sent == s.sent + if s.prod.AddRLen? then [s.prod.v] else []
  {
  }

  /** What the refinement needs of the invariant. */
  lemma ViewFacts(s: State)
    requires Inv(s)
    ensures |s.got| + One(Claimed(s.cons)) <= |s.sent|
    ensures s.prod.AddRLen? ==> |s.sent| < |s.got| + s.max
    ensures s.cons.CasRLen? && s.cons.seen == s.rLen ==> |s.got| < |s.sent|
    ensures s.cons.SubWLen? ==> s.cons.out == s.sent[|s.got|]
  {
    hide Cyclic, Sized, Chain, FlagsExact, ProducerOk, Delivered;
  }

  lemma PushRefinesFifo(s: State)
    requires Inv(s) && Enabled(s, StepPush)
    ensures var s' := PushStep(s);
      HasView(s') && if s.prod.AddRLen? then Enqueues(Abs(s), Abs(s'), s.prod.v) else Abs(s') == Abs(s)
  {
    PushHistory(s);
    ViewFacts(s);
    hide Inv, PushStep, Enabled, AbsOf, Enqueues;
    if s.prod.AddRLen? {
      EnqueueView(s.max, s.sent, s.got, |s.got| + One(Claimed(s.cons)), s.prod.v);
    }
  }

  /** A pop shows when it takes `r_len` down and when it hands out the unit. */
  lemma PopHistory(s: State)
    requires Enabled(s, StepPop)
    ensures var s' := PopStep(s);
      && s'.sent == s.sent && s'.max == s.max
      && s'.got == s.got + (if s.cons.SubWLen? then [s.cons.out] else [])
      && (Claimed(s'.cons) <==> (Claimed(s.cons) && !s.cons.SubWLen?) || (s.cons.CasRLen? && s.cons.seen == s.rLen))
  {
  }

  lemma PopRefinesFifo(s: State)
    requires Inv(s) && Enabled(s, StepPop)
    ensures var s' := PopStep(s);
      HasView(s') &&
      if s.cons.CasRLen? && s.cons.seen == s.rLen then Claims(Abs(s), Abs(s'))
      else if s.cons.SubWLen? then Delivers(Abs(s), Abs(s'))
      else Abs(s') == Abs(s)
  {
    PopHistory(s);
    ViewFacts(s);
    hide Inv, PopStep, Enabled, AbsOf, Claims, Delivers, Refuses;
    if s.cons.CasRLen? && s.cons.seen == s.rLen {
      ClaimView(s.max, s.sent, s.got);
    } else if s.cons.SubWLen? {
      DeliverView(s.max, s.sent, s.got);
    }
  }

  /**
  Every step of every interleaving is a step of the bounded queue: the increment of `r_len` appends the pushed
  unit, its decrement claims the oldest one, the decrement of `w_len` hands out exactly the claimed bytes
  although they were copied after `p_head` had moved on, and all other steps are invisible.
  */
  lemma StepRefinesFifo(s: State, a: Action)
    requires Inv(s) && Enabled(s, a)
    ensures var s' := Do(s, a);
      HasView(s') &&
      if a.StepPush? && s.prod.AddRLen? then Enqueues(Abs(s), Abs(s'), s.prod.v)
      else if a.StepPop? && s.cons.CasRLen? && s.cons.seen == s.rLen then Claims(Abs(s), Abs(s'))
      else if a.StepPop? && s.cons.SubWLen? then Delivers(Abs(s), Abs(s'))
      else Abs(s') == Abs(s)
  {
    View(s);
    hide Inv, Enqueues, Claims, Delivers;
    match a
    case StepPush => PushRefinesFifo(s);
    case StepPop => PopRefinesFifo(s);
    case _ =>
  }

  lemma View(s: State)
    requires Inv(s)
    ensures HasView(s) && s.got <= s.sent
  {
    hide Cyclic, Sized, Chain, FlagsExact, ProducerOk, ConsumerOk;
  }

  /** The queue is ready, of the size asked for and empty, for sizes from 1 to what 32 bits can address with a head. */
  lemma InitAnswer(guard: Guard, unitSize: int, max: nat)
    ensures var r := InitQueue(guard, unitSize, max);
      && (r.Ready? <==> unitSize > 0 && unitSize + UNIT_HEAD_BYTES <= INT32_MAX && max > 0)
      && (r.Refused? ==> r.code == if unitSize == 0 || max == 0 then -2 else -3)
      && (r.Ready? ==> Init(r.queue) && r.queue.guard == guard && r.queue.unitSize == unitSize &&
                       HasView(r.queue) && Abs(r.queue) == Fifo(max, [], [], []))
  {
    var r := InitQueue(guard, unitSize, max);
    assert r.Ready? ==> InitQueue(guard, r.queue.unitSize, max) == Ready(r.queue);
  }

  ghost predicate FifoNext(q: Fifo, q': Fifo) {
    q' == q || (exists v :: Enqueues(q, q', v)) || Claims(q, q') || Delivers(q, q')
  }

  /** Whole runs: pops deliver a prefix of what was pushed, and the queue in between is a bounded queue's. */
  lemma RunRefinesFifo(run: seq<State>)
    requires IsRun(Init, Next, run)
    ensures forall i :: 0 <= i < |run| ==> HasView(run[i]) && run[i].got <= run[i].sent
    ensures Abs(run[0]) == Fifo(run[0].max, [], [], [])
    ensures forall i, j :: 0 <= i && i + 1 == j < |run| ==> FifoNext(Abs(run[i]), Abs(run[j]))
  {
    RunInv(run);
    hide Inv, Enqueues, Claims, Delivers;
    forall i | 0 <= i < |run| ensures HasView(run[i]) && run[i].got <= run[i].sent {
      View(run[i]);
    }
    forall i, j | 0 <= i && i + 1 == j < |run| ensures FifoNext(Abs(run[i]), Abs(run[j])) {
      assert Next(run[i], run[i + 1]);
      var a :| Enabled(run[i], a) && run[i + 1] == Do(run[i], a);
      StepRefinesFifo(run[i], a);
    }
  }

  /** A call in progress can always take its next step: no slot, link or copy ever leaves the units. */
  lemma NeverOutOfBounds(s: State)
    requires Inv(s)
    ensures !s.prod.Idle? ==> Enabled(s, StepPush)
    ensures !s.cons.Resting? ==> Enabled(s, StepPop)
  {
    hide Cyclic, FlagsExact;
  }

  /**
  What a push writes to belongs to nobody else: its slot is neither the dummy, nor the retired dummy that a
  pop still reads `next` from, nor a slot being read or waiting to be read.
  */
  lemma PushWritesAlone(s: State)
    requires Inv(s) && HasSlot(s.prod)
    ensures s.prod.slot != s.pHead
    ensures !s.prod.AddRLen? ==> s.prod.slot != s.pTail
    ensures s.cons.LoadSource? || s.cons.CopyOut? || s.cons.LoadFreed? ==> s.prod.slot != s.cons.head
    ensures s.cons.CopyOut? ==> s.prod.slot != s.cons.source
    ensures s.cons.ClearUseFlag? ==> s.prod.slot != s.cons.freed
    ensures s.prod.slot !in s.slots[|s.got|..|s.sent| + 1]
  {
    SlotsApart(s, |s.sent| + 1);
    hide Cyclic, Chain, FlagsExact, Sized, Delivered;
  }

  /** The flag of a unit is set exactly from its filling until its bytes have been copied out. */
  lemma FlagTellsUse(s: State, slot: int)
    requires Inv(s) && s.IsOffset(slot)
    ensures s.useFlag[slot + 1] <==>
      slot in s.slots[|s.got| + 1 + One(s.cons.SubWLen?)..|s.sent| + 1 + One(Flagged(s.prod))]
  {
    hide Cyclic, Chain, Sized, Delivered, ConsumerOk, ProducerOk;
  }

  /** The search for an unused slot and the compare-and-swap on the tail's link succeed at the first try. */
  lemma PushNeverRetries(s: State)
    requires Inv(s)
    ensures s.prod.TestUseFlag? ==> !s.useFlag[s.prod.slot + 1]
    ensures s.prod.CasNext? ==> s.prod.tries == 1 && s.IsOffset(s.prod.cur) && s.next[s.prod.cur + 1] == LIST_END
    ensures !s.prod.Walk?
  {
    if s.prod.TestUseFlag? {
      NeverOutOfBounds(s);
      SlotIsFree(s);
    }
    hide Cyclic, Chain, FlagsExact, Sized, Delivered, ConsumerOk;
  }

  /** The counters stay in order, and a push answers "full" exactly when waiting and claimed units fill the queue. */
  lemma CountersBound(s: State)
    requires Inv(s)
    ensures 0 <= s.rLen <= s.wLen <= s.max
    ensures s.rLen == |Abs(s).waiting|
    ensures s.prod.LoadWLen? ==>
      (PushStep(s).prod.Idle? <==> |Abs(s).waiting| + |Abs(s).claimed| == s.max)
  {
    hide Cyclic, Chain, FlagsExact, Sized, Delivered, ConsumerOk, ProducerOk;
  }

  /** The answer of a pop that reads `r_len` now: does it give up with -1, the header's code for empty? */
  predicate PopAnswersEmpty(s: State)
    requires s.cons.LoadRLen?
  {
    PopStep(s).cons.Resting?
  }

  /** With the documented guard a pop answers "empty" exactly when the queue is; the printed one always does. */
  lemma PopAnswer(s: State)
    requires Inv(s) && s.cons.LoadRLen?
    ensures s.guard.Documented? ==> (PopAnswersEmpty(s) <==> Abs(s).waiting == [])
    ensures s.guard.Printed? ==> PopAnswersEmpty(s)
    ensures s.guard.Printed? ==> ((PopAnswersEmpty(s) <==> Abs(s).waiting == []) <==> s.rLen == 0)
  {
    CountersBound(s);
  }

  ghost predicate NothingPopped(s: State) {
    Inv(s) && (s.guard.Printed? ==> s.got == [] && !Claimed(s.cons))
  }

  lemma PrintedNeverClaims(s: State)
    requires Inv(s) && s.guard.Printed? && s.cons.CasRLen?
    ensures s.rLen != s.cons.seen
  {
    hide Cyclic, Sized, Chain, FlagsExact, ProducerOk, Delivered;
  }

  lemma PrintedStep(s: State, a: Action)
    requires NothingPopped(s) && Enabled(s, a)
    ensures NothingPopped(Do(s, a))
  {
    hide Inv;
    StepInv(s, a);
    if s.guard.Printed? && s.cons.CasRLen? {
      PrintedNeverClaims(s);
    }
  }

  /** With the guard as printed nothing is ever popped, in any run. */
  lemma PrintedGuardNeverPops(run: seq<State>)
    requires IsRun(Init, Next, run)
    ensures forall i :: 0 <= i < |run| && run[i].guard.Printed? ==> run[i].got == [] && !Claimed(run[i].cons)
  {
    forall s | Init(s) ensures NothingPopped(s) { InitInv(s); }
    forall s, s' | NothingPopped(s) && Next(s, s') ensures NothingPopped(s') {
      var a :| Enabled(s, a) && s' == Do(s, a);
      PrintedStep(s, a);
    }
    Invariance(Init, Next, NothingPopped, run);
  }

  // ---------- layout ----------

  function UnitAddress(unitSize: nat, offset: int): int {
    QUEUE_HEAD_BYTES + (offset + 1) * (unitSize + UNIT_HEAD_BYTES)
  }

  function MemSize(unitSize: nat, max: nat): nat {
    QUEUE_HEAD_BYTES + (unitSize + UNIT_HEAD_BYTES) * (max + 2)
  }

  /** The unit that a byte after the queue head belongs to. */
  function UnitOfByte(unitSize: nat, address: int): int {
    (address - QUEUE_HEAD_BYTES) / (unitSize + UNIT_HEAD_BYTES) - 1
  }

  /** The units at offsets -1 to `max` tile the memory after the queue head: every byte is in exactly one of them. */
  lemma UnitsTile(unitSize: nat, max: nat, address: int, offset: int)
    requires QUEUE_HEAD_BYTES <= address < MemSize(unitSize, max) && LIST_END <= offset <= max
    ensures LIST_END <= UnitOfByte(unitSize, address) <= max
    ensures UnitAddress(unitSize, offset) <= address < UnitAddress(unitSize, offset + 1)
        <==> offset == UnitOfByte(unitSize, address)
    ensures QUEUE_HEAD_BYTES <= UnitAddress(unitSize, offset) < UnitAddress(unitSize, offset + 1)
    ensures UnitAddress(unitSize, offset + 1) <= MemSize(unitSize, max)
  {
    var u, a := unitSize + UNIT_HEAD_BYTES, address - QUEUE_HEAD_BYTES;
    assert UnitAddress(unitSize, offset + 1) == UnitAddress(unitSize, offset) + u;
    DivRange(a, u, offset + 1);
    UnitsInside(u, max, offset + 1);
    assert 0 <= a / u < max + 2 by {
      DivRange(a, u, a / u);
      QuotientBound(u, max, a / u);
    }
  }

  lemma UnitsInside(u: nat, max: nat, k: nat)
    requires k <= max + 1
    ensures 0 <= k * u && k * u + u <= u * (max + 2)
  {
    MulOrder(u, 0, k);
    MulOrder(u, k + 1, max + 2);
    assert (k + 1) * u == k * u + u;
  }

  lemma QuotientBound(u: nat, max: nat, q: int)
    requires 0 < q * u + u && q * u < u * (max + 2)
    ensures 0 <= q < max + 2
  {
    assert (q + 1) * u == q * u + u;
    if q >= max + 2 {
      MulOrder(u, max + 2, q);
    }
    if q < 0 {
      MulOrder(u, q + 1, 0);
    }
  }
}
