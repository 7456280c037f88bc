/**
The batched message queue of mq.c for any number of threads. A thread's own lists are touched by nobody else,
so a step is what a thread does between two lock operations: filling its push list, one critical section, a
signal after it, or taking from its pop list. A wait can end by a signal, by its timeout or for no reason.
*/
module MessageQueue {
  import opened Runs
  import opened Sequences

  /** `sender` records which thread pushed the message. */
  datatype Msg = Msg(sender: nat, body: int)

  /** What a thread is in the middle of; `all` tells mq_push_list, which takes everything, from mq_pop. */
  datatype Pc =
    | Idle
    | Syncing
    | Signalling(u: nat)
    | Popping(timeout: nat, all: bool)
    | Waiting(all: bool)
    | Taking(all: bool)

  /** A message handed to a push, and whether it was linked then: a message followed by another is not taken. */
  datatype Sent = Sent(msg: Msg, linked: bool)

  /** A pop is called, takes over what is shared, maybe after its wait has timed out, and returns. */
  datatype Event =
    | Called(timeout: nat, all: bool)
    | Took(msgs: seq<Msg>, timedOut: bool)
    | Returned(all: bool, msgs: seq<Msg>)

  /** `pushed` and `history` are history: the messages handed to pushes, and what pops did. */
  datatype Local =
    Local(pushQ: seq<Msg>, popQ: seq<Msg>, pc: Pc, associated: bool, pushed: seq<Sent>, history: seq<Event>)

  const NEW_LOCAL := Local([], [], Idle, false, [], [])

  /**
  `blocks` lists the threads linked as blocked, `signalled` the waiting ones whose condition has been signalled.
  The last two fields are history: for a thread that was unlinked to be signalled, who is about to do that; and
  which thread took which stretch of the shared list, in order.
  */
  datatype Queue = Queue(pushSize: nat, share: seq<Msg>, blocks: seq<nat>, signalled: set<nat>, locals: seq<Local>,
                         promised: map<nat, nat>, taken: seq<(nat, seq<Msg>)>)
  {
    function With(t: nat, l: Local): Queue
      requires t < |locals|
    {
      this.(locals := locals[t := l])
    }
  }

  /** `double_link_push` leaves a linked node alone, and `double_link_remove` an unlinked one. */
  function Link(blocks: seq<nat>, t: nat): seq<nat> {
    if t in blocks then blocks else blocks + [t]
  }

  function Unlink(blocks: seq<nat>, t: nat): seq<nat> {
    if blocks == [] then [] else if blocks[0] == t then Unlink(blocks[1..], t) else [blocks[0]] + Unlink(blocks[1..], t)
  }

  /** The critical section of `mq_sync_push`: if the list was empty, one blocked thread is unlinked, to be signalled. */
  function ShareAll(q: Queue, t: nat): Queue
    requires t < |q.locals|
  {
    var l := q.locals[t];
    var shared := q.(share := q.share + l.pushQ);
    if q.share == [] && q.blocks != []
    then
      shared.(blocks := q.blocks[1..], promised := q.promised[q.blocks[0] := t])
      .With(t, l.(pushQ := [], pc := Signalling(q.blocks[0])))
    else shared.With(t, l.(pushQ := [], pc := Idle))
  }

  /** The end of `mq_sync_pop`: the thread takes over the whole shared list. */
  function TakeOver(q: Queue, t: nat, all: bool, timedOut: bool): Queue
    requires t < |q.locals|
  {
    var l := q.locals[t];
    q.(share := [], taken := q.taken + [(t, q.share)],
       locals := q.locals[t := l.(popQ := l.popQ + q.share, pc := Taking(all),
                                  history := l.history + [Took(q.share, timedOut)])])
  }

  datatype Action =
    | Push(t: nat, body: int, linked: bool, now: bool)
    | SyncPush(t: nat)
    | Signal(t: nat)
    | ForceSync(t: nat)
    | Pop(t: nat, timeout: nat, all: bool)
    | SyncPop(t: nat)
    | Wake(t: nat)
    | TimeOut(t: nat)
    | Take(t: nat)

  predicate Enabled(q: Queue, a: Action) {
    && a.t < |q.locals|
    && var pc := q.locals[a.t].pc;
       match a
       case Push(_, _, _, _) => pc.Idle?
       case SyncPush(_) => pc.Syncing?
       case Signal(_) => pc.Signalling?
       case ForceSync(_) => pc.Idle?
       case Pop(_, _, _) => pc.Idle?
       case SyncPop(_) => pc.Popping?
       case Wake(_) => pc.Waiting?
       case TimeOut(_) => pc.Waiting?
       case Take(_) => pc.Taking?
  }

  predicate IsWaiting(q: Queue, t: nat) {
    t < |q.locals| && q.locals[t].pc.Waiting?
  }

  function Do(q: Queue, a: Action): Queue
    requires Enabled(q, a)
  {
    var t := a.t;
    var l := q.locals[t];
    match a
    case Push(_, body, linked, now) =>
      var pushQ := if linked then l.pushQ else l.pushQ + [Msg(t, body)];
      q.With(t, l.(pushQ := pushQ, pushed := l.pushed + [Sent(Msg(t, body), linked)], associated := true,
                   pc := if now || |pushQ| >= q.pushSize then Syncing else Idle))
    case SyncPush(_) => ShareAll(q, t)
    case Signal(_) =>
      q.(signalled := if IsWaiting(q, l.pc.u) then q.signalled + {l.pc.u} else q.signalled,
         promised := q.promised - {l.pc.u}).With(t, l.(pc := Idle))
    case ForceSync(_) => if l.pushQ == [] then q else ShareAll(q, t)
    case Pop(_, timeout, all) =>
      q.With(t, l.(pc := if l.popQ == [] then Popping(timeout, all) else Taking(all),
                   history := l.history + [Called(timeout, all)]))
    case SyncPop(_) =>
      if q.share == [] && l.pc.timeout > 0
      then q.(blocks := Link(q.blocks, t)).With(t, l.(pc := Waiting(l.pc.all)))
      else TakeOver(q, t, l.pc.all, false)
    case Wake(_) =>
      var q' := q.(signalled := q.signalled - {t});
      if q.share == [] then q'.(blocks := Link(q.blocks, t)) else TakeOver(q', t, l.pc.all, false)
    case TimeOut(_) =>
      TakeOver(q.(signalled := q.signalled - {t}, blocks := Unlink(q.blocks, t)), t, l.pc.all, true)
    case Take(_) =>
      var msgs := if l.pc.all || l.popQ == [] then l.popQ else [l.popQ[0]];
      q.With(t, l.(pc := Idle, popQ := l.popQ[|msgs|..], history := l.history + [Returned(l.pc.all, msgs)]))
  }

  ghost predicate Init(q: Queue) {
    && q == Queue(q.pushSize, [], [], {}, q.locals, map[], [])
    && forall t :: 0 <= t < |q.locals| ==> q.locals[t] == NEW_LOCAL
  }

  ghost predicate Next(q: Queue, q': Queue) {
    exists a :: Enabled(q, a) && q' == Do(q, a)
  }

  // ---------- history ----------

  function Flat(taken: seq<(nat, seq<Msg>)>): seq<Msg> {
    if taken == [] then [] else Flat(taken[..|taken| - 1]) + taken[|taken| - 1].1
  }

  /** Everything ever put on the shared list, in order. */
  function Shared(q: Queue): seq<Msg> {
    Flat(q.taken) + q.share
  }

  /** The messages of one sender, in order. */
  function From(s: seq<Msg>, sender: nat): seq<Msg> {
    if s == [] then []
    else
      var last := s[|s| - 1];
      From(s[..|s| - 1], sender) + if last.sender == sender then [last] else []
  }

  /** The messages that pushes took, in order. */
  function Kept(pushed: seq<Sent>): seq<Msg> {
    if pushed == [] then []
    else
      var last := pushed[|pushed| - 1];
      Kept(pushed[..|pushed| - 1]) + if last.linked then [] else [last.msg]
  }

  /** The stretches that one thread took, in order. */
  function TakenBy(taken: seq<(nat, seq<Msg>)>, t: nat): seq<Msg> {
    if taken == [] then []
    else
      var last := taken[|taken| - 1];
      TakenBy(taken[..|taken| - 1], t) + if last.0 == t then last.1 else []
  }

  /** The messages that a thread's pops took over, and those that they returned, in order. */
  function Stretches(history: seq<Event>): seq<Msg> {
    if history == [] then []
    else
      var last := history[|history| - 1];
      Stretches(history[..|history| - 1]) + if last.Took? then last.msgs else []
  }

  function Delivered(history: seq<Event>): seq<Msg> {
    if history == [] then []
    else
      var last := history[|history| - 1];
      Delivered(history[..|history| - 1]) + if last.Returned? then last.msgs else []
  }

  /**
  How pops may cut what they take over: each call takes over once if and only if nothing is left from before, and takes
  nothing only if it may not wait or has waited for its whole time; then mq_push_list returns all that is left, and
  mq_pop the first message, or none if and only if there is none.
  */
  predicate Cut(history: seq<Event>, left: seq<Msg>) {
    if history == [] then left == []
    else
      var front, last := history[..|history| - 1], history[|history| - 1];
      match last
      case Called(_, _) => Ended(front) && Cut(front, left)
      case Took(msgs, timedOut) =>
        && EndsInCall(front) && Cut(front, []) && left == msgs
        && (msgs == [] ==> front[|front| - 1].timeout == 0 || timedOut)
      case Returned(all, msgs) =>
        && InCall(front, all) && Cut(front, msgs + left)
        && (EndsInCall(front) ==> msgs + left != [])
        && if all || msgs == [] then left == [] else |msgs| == 1
  }

  /** No call is in progress; one is, and has not taken over; one of this kind is. */
  predicate Ended(history: seq<Event>) {
    history == [] || history[|history| - 1].Returned?
  }

  predicate EndsInCall(history: seq<Event>) {
    history != [] && history[|history| - 1].Called?
  }

  predicate InCall(history: seq<Event>, all: bool) {
    && history != []
    && var last := history[|history| - 1];
       if last.Took? then InCall(history[..|history| - 1], all) else last.Called? && last.all == all
  }

  /** The history goes with what the thread is in the middle of. */
  predicate CallOk(pc: Pc, popQ: seq<Msg>, history: seq<Event>) {
    match pc
    case Popping(timeout, all) => popQ == [] && EndsInCall(history) && history[|history| - 1] == Called(timeout, all)
    case Waiting(all) =>
      popQ == [] && InCall(history, all) && EndsInCall(history) && history[|history| - 1].timeout > 0
    case Taking(all) => InCall(history, all) && (EndsInCall(history) ==> popQ != [])
    case _ => Ended(history)
  }

  predicate SentBy(s: seq<Msg>, t: nat) {
    forall i :: 0 <= i < |s| ==> s[i].sender == t
  }

  // ---------- the invariant ----------

  /** What a thread pushed, but for linked messages, is its share of the log, then its push list. */
  predicate ProducerOk(shared: seq<Msg>, t: nat, l: Local) {
    Kept(l.pushed) == From(shared, t) + l.pushQ && SentBy(l.pushQ, t)
  }

  /** What a thread got is cut from what it took, up to its pop list. */
  predicate ConsumerOk(taken: seq<(nat, seq<Msg>)>, t: nat, l: Local) {
    Cut(l.history, l.popQ) && Stretches(l.history) == TakenBy(taken, t)
  }

  predicate LagOk(pushSize: nat, l: Local) {
    && CallOk(l.pc, l.popQ, l.history)
    && (!l.pc.Syncing? && pushSize >= 1 ==> |l.pushQ| < pushSize)
    && (l.pushed != [] ==> l.associated)
  }

  ghost predicate ThreadsOk(q: Queue) {
    forall t :: 0 <= t < |q.locals| ==> ThreadOk(q, t)
  }

  /** A waiting thread is linked as blocked, or about to be signalled, or signalled. */
  ghost predicate BlocksOk(q: Queue) {
    && NoRepeats(q.blocks)
    && (forall t :: t in q.blocks <==> IsWaiting(q, t) && t !in q.signalled && t !in q.promised)
    && (forall t :: t in q.signalled ==> IsWaiting(q, t) && t !in q.promised)
    && PromisesOk(q)
  }

  ghost predicate PromisesOk(q: Queue) {
    && (forall t :: t in q.promised ==>
         IsWaiting(q, t) && q.promised[t] < |q.locals| && q.locals[q.promised[t]].pc == Signalling(t))
    && (forall p :: 0 <= p < |q.locals| && q.locals[p].pc.Signalling? ==>
         q.locals[p].pc.u in q.promised && q.promised[q.locals[p].pc.u] == p)
  }

  ghost predicate NoneStranded(q: Queue) {
    q.share != [] && q.blocks != [] ==> q.signalled != {} || q.promised != map[]
  }

  ghost predicate TakersOk(q: Queue) {
    forall i :: 0 <= i < |q.taken| ==> q.taken[i].0 < |q.locals|
  }

  ghost predicate Inv(q: Queue) {
    ThreadsOk(q) && TakersOk(q)
  }

  ghost predicate QuietInv(q: Queue) {
    BlocksOk(q) && NoneStranded(q)
  }

  // ---------- lemmas on histories ----------

  lemma {:induction false} FromConcat(a: seq<Msg>, b: seq<Msg>, t: nat)
    ensures From(a + b, t) == From(a, t) + From(b, t)
  {
    if b == [] {
      assert a + b == a;
    } else {
      FromConcat(a, b[..|b| - 1], t);
      assert (a + b)[..|a + b| - 1] == a + b[..|b| - 1];
    }
  }

  lemma {:induction false} FromOne(s: seq<Msg>, sender: nat, t: nat)
    requires SentBy(s, sender)
    ensures From(s, t) == if t == sender then s else []
  {
    if s != [] {
      FromOne(s[..|s| - 1], sender, t);
      assert s == s[..|s| - 1] + [s[|s| - 1]];
    }
  }

  lemma {:induction false} UnlinkKeeps(blocks: seq<nat>, t: nat)
    ensures forall u :: u in Unlink(blocks, t) <==> u in blocks && u != t
    ensures NoRepeats(blocks) ==> NoRepeats(Unlink(blocks, t))
  {
    if blocks != [] {
      UnlinkKeeps(blocks[1..], t);
      assert forall u :: u in blocks <==> u == blocks[0] || u in blocks[1..];
      if NoRepeats(blocks) {
        assert blocks[0] !in blocks[1..];
        assert NoRepeats(blocks[1..]);
      }
    }
  }

  // ---------- every step ----------

  predicate ThreadOk(q: Queue, t: nat)
    requires t < |q.locals|
  {
    ProducerOk(Shared(q), t, q.locals[t]) && ConsumerOk(q.taken, t, q.locals[t]) && LagOk(q.pushSize, q.locals[t])
  }

  lemma ShareEffect(q: Queue, t: nat)
    requires t < |q.locals|
    ensures var q' := ShareAll(q, t);
      && q'.locals == q.locals[t := q.locals[t].(pushQ := [], pc := q'.locals[t].pc)]
      && (q'.locals[t].pc.Idle? || q'.locals[t].pc.Signalling?)
      && q'.taken == q.taken && q'.pushSize == q.pushSize
      && Shared(q') == Shared(q) + q.locals[t].pushQ
  {
    hide Flat;
    assert Flat(q.taken) + (q.share + q.locals[t].pushQ) == Flat(q.taken) + q.share + q.locals[t].pushQ;
  }

  lemma SharedFrom(shared: seq<Msg>, pushQ: seq<Msg>, t: nat, u: nat)
    requires SentBy(pushQ, t)
    ensures From(shared + pushQ, u) == if u == t then From(shared, u) + pushQ else From(shared, u)
  {
    FromConcat(shared, pushQ, u);
    FromOne(pushQ, t, u);
    hide From;
    assert From(shared, u) + [] == From(shared, u);
  }

  /** The thread that shares moves its push list into the log. */
  lemma ShareOwn(pushSize: nat, shared: seq<Msg>, taken: seq<(nat, seq<Msg>)>, t: nat, l: Local, pc: Pc)
    requires ProducerOk(shared, t, l) && ConsumerOk(taken, t, l) && LagOk(pushSize, l) && (pc.Idle? || pc.Signalling?)
    requires l.pc.Idle? || l.pc.Syncing?
    ensures var l' := l.(pushQ := [], pc := pc);
      ProducerOk(shared + l.pushQ, t, l') && ConsumerOk(taken, t, l') && LagOk(pushSize, l')
  {
    SharedFrom(shared, l.pushQ, t, t);
    hide From, TakenBy;
    assert From(shared + l.pushQ, t) + [] == From(shared + l.pushQ, t);
  }

  lemma ShareOther(shared: seq<Msg>, pushQ: seq<Msg>, t: nat, u: nat, l: Local)
    requires u != t && SentBy(pushQ, t) && ProducerOk(shared, u, l)
    ensures ProducerOk(shared + pushQ, u, l)
  {
    SharedFrom(shared, pushQ, t, u);
  }

  lemma ShareThread(q: Queue, t: nat, u: nat)
    requires t < |q.locals| && u < |q.locals| && ThreadOk(q, t) && ThreadOk(q, u)
    requires q.locals[t].pc.Idle? || q.locals[t].pc.Syncing?
    ensures ThreadOk(ShareAll(q, t), u)
  {
    var l := q.locals[t];
    ShareEffect(q, t);
    ShareOwn(q.pushSize, Shared(q), q.taken, t, l, ShareAll(q, t).locals[t].pc);
    if u != t {
      ShareOther(Shared(q), l.pushQ, t, u, q.locals[u]);
    }
    hide From, Flat, TakenBy, Kept, Shared, ShareAll, ProducerOk, ConsumerOk, LagOk;
  }

  lemma CutTaken(history: seq<Event>, share: seq<Msg>, all: bool, timedOut: bool)
    requires Cut(history, []) && EndsInCall(history) && InCall(history, all)
    requires share == [] ==> history[|history| - 1].timeout == 0 || timedOut
    ensures var longer := history + [Took(share, timedOut)];
      && Cut(longer, share) && Stretches(longer) == Stretches(history) + share
      && InCall(longer, all) && !EndsInCall(longer)
  {
    assert (history + [Took(share, timedOut)])[..|history|] == history;
  }

  predicate MayTake(q: Queue, t: nat, all: bool, timedOut: bool)
    requires t < |q.locals|
  {
    match q.locals[t].pc
    case Popping(timeout, a) => a == all && (q.share == [] ==> timeout == 0)
    case Waiting(a) => a == all && (q.share == [] ==> timedOut)
    case _ => false
  }

  /** The thread that takes over cuts what it took. */
  lemma TakeOwn(q: Queue, t: nat, all: bool, timedOut: bool)
    requires t < |q.locals| && ThreadOk(q, t) && MayTake(q, t, all, timedOut)
    ensures var l := TakeOver(q, t, all, timedOut).locals[t];
      && Cut(l.history, l.popQ) && LagOk(q.pushSize, l)
      && Stretches(l.history) == TakenBy(q.taken, t) + q.share
  {
    var l := q.locals[t];
    assert InCall(l.history, all) && [] + q.share == q.share;
    hide From, Flat, TakenBy, Kept, Cut, Stretches, InCall;
    CutTaken(l.history, q.share, all, timedOut);
  }

  lemma TakeThread(q: Queue, t: nat, all: bool, timedOut: bool, u: nat)
    requires t < |q.locals| && u < |q.locals| && ThreadOk(q, t) && ThreadOk(q, u) && MayTake(q, t, all, timedOut)
    ensures ThreadOk(TakeOver(q, t, all, timedOut), u)
  {
    var q' := TakeOver(q, t, all, timedOut);
    assert q'.taken[..|q'.taken| - 1] == q.taken;
    assert Shared(q') == Shared(q);
    assert TakenBy(q'.taken, u) == TakenBy(q.taken, u) + if u == t then q.share else [];
    TakeOwn(q, t, all, timedOut);
    hide From, Flat, TakenBy, Kept, Shared, Cut, Stretches, LagOk;
  }

  lemma PushThread(q: Queue, a: Action)
    requires Enabled(q, a) && a.Push? && ThreadOk(q, a.t)
    ensures ThreadOk(Do(q, a), a.t)
  {
    hide From, Flat, TakenBy;
  }

  lemma CutOff(history: seq<Event>, popQ: seq<Msg>, all: bool, msgs: seq<Msg>)
    requires Cut(history, popQ) && CallOk(Taking(all), popQ, history)
    requires msgs == if all || popQ == [] then popQ else [popQ[0]]
    ensures var longer := history + [Returned(all, msgs)];
      Cut(longer, popQ[|msgs|..]) && Stretches(longer) == Stretches(history) && Ended(longer)
  {
    assert (history + [Returned(all, msgs)])[..|history|] == history && msgs + popQ[|msgs|..] == popQ;
    assert Stretches(history) + [] == Stretches(history);
  }

  /** What is taken over is returned, or left. */
  lemma {:induction false} CutConserves(history: seq<Event>, left: seq<Msg>)
    requires Cut(history, left)
    ensures Delivered(history) + left == Stretches(history)
  {
    if history != [] {
      var front, last := history[..|history| - 1], history[|history| - 1];
      match last
      case Called(_, _) => CutConserves(front, left);
      case Took(_, _) => CutConserves(front, []);
      case Returned(_, msgs) => CutConserves(front, msgs + left);
    }
  }

  lemma TakeOneThread(q: Queue, a: Action)
    requires Enabled(q, a) && a.Take? && ThreadOk(q, a.t)
    ensures ThreadOk(Do(q, a), a.t)
  {
    hide From, Flat, TakenBy, Kept, Cut, Stretches, InCall;
    var l := q.locals[a.t];
    CutOff(l.history, l.popQ, l.pc.all, if l.pc.all || l.popQ == [] then l.popQ else [l.popQ[0]]);
  }

  /** The step only moves the program counter of its thread, or is the call of a pop. */
  predicate OnlyMoves(q: Queue, a: Action)
    requires Enabled(q, a)
  {
    match a
    case Signal(_) => true
    case Pop(_, _, _) => true
    case SyncPop(t) => q.share == [] && q.locals[t].pc.timeout > 0
    case Wake(_) => q.share == []
    case _ => false
  }

  lemma CutCalled(history: seq<Event>, popQ: seq<Msg>, timeout: nat, all: bool)
    requires Cut(history, popQ) && Ended(history)
    ensures var longer := history + [Called(timeout, all)];
      Cut(longer, popQ) && Stretches(longer) == Stretches(history) && EndsInCall(longer) && InCall(longer, all)
  {
    assert (history + [Called(timeout, all)])[..|history|] == history;
    assert Stretches(history) + [] == Stretches(history);
  }

  lemma PopThread(q: Queue, a: Action)
    requires Enabled(q, a) && a.Pop? && ThreadOk(q, a.t)
    ensures ThreadOk(Do(q, a), a.t)
  {
    var l := q.locals[a.t];
    hide From, Flat, TakenBy, Kept, Link, Cut, Stretches, InCall;
    CutCalled(l.history, l.popQ, a.timeout, a.all);
  }

  lemma MoveThread(q: Queue, a: Action)
    requires Enabled(q, a) && OnlyMoves(q, a) && !a.Pop? && ThreadOk(q, a.t)
    ensures ThreadOk(Do(q, a), a.t)
  {
    var l := q.locals[a.t];
    assert EndsInCall(l.history) ==> InCall(l.history, l.history[|l.history| - 1].all);
    hide From, Flat, TakenBy, Kept, Link, Cut, Stretches, InCall;
  }

  lemma OtherThread(q: Queue, a: Action, u: nat)
    requires Enabled(q, a) && (a.Push? || a.Take? || OnlyMoves(q, a)) && u < |q.locals| && u != a.t && ThreadOk(q, u)
    ensures ThreadOk(Do(q, a), u)
  {
    hide From, Flat, TakenBy, Kept, Link, ProducerOk, ConsumerOk, LagOk;
  }

  lemma StepThread(q: Queue, a: Action, u: nat)
    requires Enabled(q, a) && u < |q.locals| && ThreadOk(q, u) && ThreadOk(q, a.t)
    ensures ThreadOk(Do(q, a), u)
  {
    var t := a.t;
    hide ThreadOk, ShareAll, TakeOver, Unlink, Link;
    if (a.Push? || a.Take? || OnlyMoves(q, a)) && u != t {
      OtherThread(q, a, u);
    } else {
      match a {
        case Push(_, _, _, _) => PushThread(q, a);
        case SyncPush(_) => ShareThread(q, t, u);
        case ForceSync(_) => ShareThread(q, t, u);
        case SyncPop(_) =>
          if OnlyMoves(q, a) {
            MoveThread(q, a);
          } else {
            TakeThread(q, t, q.locals[t].pc.all, false, u);
          }
        case Wake(_) =>
          if OnlyMoves(q, a) {
            MoveThread(q, a);
          } else {
            TakeSignalled(q, q.signalled - {t}, q.blocks, t, q.locals[t].pc.all, false, u);
          }
        case TimeOut(_) => TakeSignalled(q, q.signalled - {t}, Unlink(q.blocks, t), t, q.locals[t].pc.all, true, u);
        case Take(_) => TakeOneThread(q, a);
        case Signal(_) => MoveThread(q, a);
        case Pop(_, _, _) => PopThread(q, a);
      }
    }
  }

  lemma TakeSignalled(q: Queue, signalled: set<nat>, blocks: seq<nat>, t: nat, all: bool, timedOut: bool, u: nat)
    requires t < |q.locals| && u < |q.locals| && ThreadOk(q, t) && ThreadOk(q, u) && MayTake(q, t, all, timedOut)
    ensures ThreadOk(TakeOver(q.(signalled := signalled, blocks := blocks), t, all, timedOut), u)
  {
    var q' := q.(signalled := signalled, blocks := blocks);
    assert ThreadOk(q', t) && ThreadOk(q', u) by {
      hide ProducerOk, ConsumerOk, LagOk, From, Flat, TakenBy;
    }
    hide ThreadOk, TakeOver;
    TakeThread(q', t, all, timedOut, u);
  }

  lemma StepThreads(q: Queue, a: Action)
    requires ThreadsOk(q) && Enabled(q, a)
    ensures ThreadsOk(Do(q, a))
  {
    forall u | 0 <= u < |Do(q, a).locals| ensures ThreadOk(Do(q, a), u) {
      StepThread(q, a, u);
    }
    hide ThreadOk;
  }

  lemma StepTakers(q: Queue, a: Action)
    requires TakersOk(q) && Enabled(q, a)
    ensures TakersOk(Do(q, a))
  {
    hide Unlink, Link;
  }

  lemma StepInv(q: Queue, a: Action)
    requires Inv(q) && Enabled(q, a)
    ensures Inv(Do(q, a))
  {
    hide ThreadsOk, TakersOk, Do;
    StepThreads(q, a);
    StepTakers(q, a);
  }

  // ---------- blocked threads ----------

  /**
  A step that leaves the bookkeeping of blocked threads alone: a thread does not time out between being unlinked
  and being signalled, and it does not wake up by itself then or to find a message.
  */
  predicate Undisturbed(q: Queue, a: Action) {
    && (a.Wake? ==> a.t in q.signalled || (a.t in q.blocks && q.share == []))
    && (a.TimeOut? ==> a.t !in q.promised)
  }

  ghost predicate QuietNext(q: Queue, q': Queue) {
    exists a :: Enabled(q, a) && Undisturbed(q, a) && q' == Do(q, a)
  }

  lemma LocalBlocks(q: Queue, t: nat, l: Local)
    requires BlocksOk(q) && t < |q.locals|
    requires !q.locals[t].pc.Waiting? && !q.locals[t].pc.Signalling? && !l.pc.Waiting? && !l.pc.Signalling?
    ensures BlocksOk(q.With(t, l))
  {
    hide NoRepeats;
  }

  lemma FirstOfBlocks(blocks: seq<nat>)
    requires NoRepeats(blocks) && blocks != []
    ensures NoRepeats(blocks[1..]) && forall u :: u in blocks[1..] <==> u in blocks && u != blocks[0]
  {
    assert blocks == [blocks[0]] + blocks[1..];
  }

  /** The first blocked thread is unlinked, and promised a signal by thread `t`. */
  lemma PromiseBlocks(q: Queue, t: nat, l: Local)
    requires BlocksOk(q) && q.blocks != [] && t < |q.locals| && l.pc == Signalling(q.blocks[0])
    requires !q.locals[t].pc.Waiting? && !q.locals[t].pc.Signalling?
    ensures BlocksOk(q.(blocks := q.blocks[1..], promised := q.promised[q.blocks[0] := t]).With(t, l))
  {
    FirstOfBlocks(q.blocks);
    assert q.blocks[0] in q.blocks;
    NewPromise(q, q.blocks[1..], t, q.blocks[0], l);
    hide NoRepeats, PromisesOk;
  }

  lemma NewPromise(q: Queue, blocks: seq<nat>, t: nat, u: nat, l: Local)
    requires PromisesOk(q) && IsWaiting(q, u) && u !in q.promised && t < |q.locals| && l.pc == Signalling(u)
    requires !q.locals[t].pc.Waiting? && !q.locals[t].pc.Signalling?
    ensures PromisesOk(q.(blocks := blocks, promised := q.promised[u := t]).With(t, l))
  {
  }

  lemma BlocksOnly(q: Queue, share: seq<Msg>)
    requires BlocksOk(q)
    ensures BlocksOk(q.(share := share))
  {
    hide NoRepeats;
  }

  lemma ShareBlocks(q: Queue, t: nat)
    requires BlocksOk(q) && t < |q.locals| && !q.locals[t].pc.Waiting? && !q.locals[t].pc.Signalling?
    ensures BlocksOk(ShareAll(q, t))
  {
    BlocksOnly(q, q.share + q.locals[t].pushQ);
    hide BlocksOk;
    var shared, l := q.(share := q.share + q.locals[t].pushQ), ShareAll(q, t).locals[t];
    if q.share == [] && q.blocks != [] {
      PromiseBlocks(shared, t, l);
    } else {
      LocalBlocks(shared, t, l);
    }
  }

  lemma LeaveBlocks(q: Queue, t: nat, all: bool)
    requires t < |q.locals| && BlocksOk(q) && !q.locals[t].pc.Signalling?
    requires t !in q.blocks && t !in q.promised
    ensures BlocksOk(TakeOver(q.(signalled := q.signalled - {t}), t, all, false))
  {
  }

  lemma TimeOutBlocks(q: Queue, t: nat, all: bool)
    requires t < |q.locals| && BlocksOk(q) && q.locals[t].pc.Waiting? && t !in q.promised
    ensures BlocksOk(TakeOver(q.(signalled := q.signalled - {t}, blocks := Unlink(q.blocks, t)), t, all, true))
  {
    UnlinkKeeps(q.blocks, t);
    hide Unlink;
  }

  lemma SignalBlocks(q: Queue, t: nat, u: nat, l: Local)
    requires BlocksOk(q) && t < |q.locals| && q.locals[t].pc == Signalling(u) && l.pc.Idle?
    ensures IsWaiting(q, u)
    ensures BlocksOk(q.(signalled := q.signalled + {u}, promised := q.promised - {u}).With(t, l))
  {
    hide NoRepeats;
  }

  /** A thread that finds nothing is linked and waits, or goes on waiting. */
  lemma WaitBlocks(q: Queue, t: nat, all: bool)
    requires BlocksOk(q) && t < |q.locals| && !q.locals[t].pc.Signalling? && t !in q.blocks && t !in q.promised
    ensures var q' := q.(signalled := q.signalled - {t}, blocks := Link(q.blocks, t));
      BlocksOk(q'.With(t, q.locals[t].(pc := Waiting(all))))
  {
  }

  lemma StepBlocks(q: Queue, a: Action)
    requires BlocksOk(q) && Enabled(q, a) && Undisturbed(q, a)
    ensures BlocksOk(Do(q, a))
  {
    var t, l := a.t, q.locals[a.t];
    match a {
      case SyncPush(_) => ShareBlocks(q, t);
      case ForceSync(_) => ShareBlocks(q, t);
      case Signal(_) => SignalBlocks(q, t, l.pc.u, l.(pc := Idle));
      case SyncPop(_) =>
        LeaveBlocks(q, t, l.pc.all);
        WaitBlocks(q, t, l.pc.all);
        assert q.signalled - {t} == q.signalled;
      case Wake(_) =>
        assert q.locals[t := l.(pc := Waiting(l.pc.all))] == q.locals;
        if t in q.signalled {
          LeaveBlocks(q, t, l.pc.all);
          WaitBlocks(q, t, l.pc.all);
        } else {
          assert q.signalled - {t} == q.signalled;
        }
      case TimeOut(_) => TimeOutBlocks(q, t, l.pc.all);
      case _ => OtherBlocks(q, a);
    }
    hide Unlink, TakeOver, ShareAll, BlocksOk;
  }

  lemma OtherBlocks(q: Queue, a: Action)
    requires BlocksOk(q) && Enabled(q, a) && (a.Push? || a.Pop? || a.Take?)
    ensures BlocksOk(Do(q, a))
  {
    hide BlocksOk;
    var l := Do(q, a).locals[a.t];
    assert Do(q, a) == q.With(a.t, l) && !l.pc.Waiting? && !l.pc.Signalling?;
    LocalBlocks(q, a.t, l);
  }

  lemma StepStranded(q: Queue, a: Action)
    requires NoneStranded(q) && BlocksOk(q) && Enabled(q, a) && Undisturbed(q, a)
    ensures NoneStranded(Do(q, a))
  {
    hide Unlink, Link, NoRepeats;
    var q' := Do(q, a);
    if a.Signal? {
      assert q.locals[a.t].pc.u in q'.signalled;
    } else if (a.SyncPush? || a.ForceSync?) && q.share == [] && q.blocks != [] {
      assert q'.share == [] || q.blocks[0] in q'.promised;
    }
  }

  lemma StepQuiet(q: Queue, a: Action)
    requires QuietInv(q) && Enabled(q, a) && Undisturbed(q, a)
    ensures QuietInv(Do(q, a))
  {
    hide BlocksOk, NoneStranded, Do;
    StepBlocks(q, a);
    StepStranded(q, a);
  }

  /** These are exactly the steps that do: any other leaves a link or a promise for a thread that no longer waits. */
  lemma BookkeepingKept(q: Queue, a: Action)
    requires BlocksOk(q) && Enabled(q, a)
    ensures BlocksOk(Do(q, a)) <==> Undisturbed(q, a)
  {
    if Undisturbed(q, a) {
      StepBlocks(q, a);
    } else {
      var q' := Do(q, a);
      assert a.t in q.promised || a.t in q.blocks;
      assert a.t in q.promised ==> a.t in q'.promised && (a.t in q'.blocks || !IsWaiting(q', a.t));
      assert a.t !in q.promised ==> a.t in q'.blocks && !IsWaiting(q', a.t);
      hide Do, NoRepeats;
    }
  }

  // ---------- main results ----------

  lemma InitInv(q: Queue)
    requires Init(q)
    ensures Inv(q)
  {
    assert Shared(q) == [];
  }

  lemma RunInv(run: seq<Queue>)
    requires IsRun(Init, Next, run)
    ensures forall i :: 0 <= i < |run| ==> Inv(run[i])
  {
    forall q | Init(q) ensures Inv(q) { InitInv(q); }
    forall q, q' | Inv(q) && Next(q, q') ensures Inv(q') {
      var a :| Enabled(q, a) && q' == Do(q, a);
      StepInv(q, a);
    }
    Invariance(Init, Next, Inv, run);
  }

  /**
  Over all interleavings of any number of threads, against the log of everything ever shared: what a thread
  pushed, but for linked messages, is its part of the log followed by its push list, and what it got so far followed
  by its pop list is exactly the stretches of the log that it took, which, in order, make up the log before the shared
  list.
  */
  lemma RunRefinesLog(run: seq<Queue>, i: nat, t: nat)
    requires IsRun(Init, Next, run) && i < |run| && t < |run[i].locals|
    ensures var q := run[i];
      && Kept(q.locals[t].pushed) == From(Shared(q), t) + q.locals[t].pushQ
      && Delivered(q.locals[t].history) + q.locals[t].popQ == TakenBy(q.taken, t)
      && Shared(q) == Flat(q.taken) + q.share
  {
    RunInv(run);
    hide TakersOk, From, TakenBy, Flat;
    assert ThreadOk(run[i], t);
    CutConserves(run[i].locals[t].history, run[i].locals[t].popQ);
  }

  /**
  Over all interleavings: the pops of a thread cut the stretches of the log that it took, in order. A call takes over
  if and only if nothing is left of what was taken before, and comes away with nothing only if it may not wait or its
  wait has timed out. Then every mq_push_list returns all that is left, and every mq_pop the first message, or none if
  and only if there is none.
  */
  lemma PopsCutLog(run: seq<Queue>, i: nat, t: nat)
    requires IsRun(Init, Next, run) && i < |run| && t < |run[i].locals|
    ensures var q := run[i];
      && Cut(q.locals[t].history, q.locals[t].popQ)
      && Stretches(q.locals[t].history) == TakenBy(q.taken, t)
  {
    RunInv(run);
    hide TakersOk, From, TakenBy, Flat, Cut, Stretches;
    assert ThreadOk(run[i], t);
  }

  /** A pop that is called with timeout 0 never waits. */
  lemma PollNeverWaits(run: seq<Queue>, i: nat, t: nat)
    requires IsRun(Init, Next, run) && i < |run| && IsWaiting(run[i], t)
    ensures var history := run[i].locals[t].history;
      history != [] && history[|history| - 1].Called? && history[|history| - 1].timeout > 0
  {
    RunInv(run);
    hide TakersOk, From, TakenBy, Flat, Cut, Stretches;
    assert ThreadOk(run[i], t);
  }

  lemma StepLog(q: Queue, a: Action)
    requires Enabled(q, a)
    ensures Shared(q) <= Shared(Do(q, a))
  {
    if a.SyncPush? || a.ForceSync? {
      ShareEffect(q, a.t);
    } else {
      var taken := Do(q, a).taken;
      assert taken != q.taken ==> taken[..|taken| - 1] == q.taken;
    }
  }

  /** What has been shared is never taken back or reordered: the log only grows at its end. */
  lemma {:induction false} LogOnlyGrows(run: seq<Queue>, i: nat, j: nat)
    requires IsRun(Init, Next, run) && i <= j < |run|
    ensures Shared(run[i]) <= Shared(run[j])
    decreases j - i
  {
    if i < j {
      assert Next(run[i], run[i + 1]);
      var a :| Enabled(run[i], a) && run[i + 1] == Do(run[i], a);
      StepLog(run[i], a);
      LogOnlyGrows(run, i + 1, j);
    }
  }

  /** Between operations a thread holds back fewer than `push_size` messages. */
  lemma BoundedLag(run: seq<Queue>, i: nat, t: nat)
    requires IsRun(Init, Next, run) && i < |run| && t < |run[i].locals|
    ensures run[i].locals[t].pc.Idle? && run[i].pushSize >= 1 ==> |run[i].locals[t].pushQ| < run[i].pushSize
  {
    RunInv(run);
    hide TakersOk, From, TakenBy, Flat;
    assert ThreadOk(run[i], t);
  }

  /**
  In an undisturbed run, whenever messages are shared while threads are linked as blocked, another waiting thread
  has been signalled and can take them all, or is about to be.
  */
  lemma NoMessageStranded(run: seq<Queue>, i: nat)
    requires IsRun(Init, QuietNext, run) && i < |run| && run[i].share != [] && run[i].blocks != []
    ensures var q := run[i];
      || (exists t :: t in q.signalled && t !in q.blocks && Enabled(q, Wake(t)) && Do(q, Wake(t)).share == [])
      || (exists t :: t in q.promised && t !in q.blocks && Enabled(q, Signal(q.promised[t])) &&
                      t in Do(q, Signal(q.promised[t])).signalled)
  {
    forall q, q' | QuietInv(q) && QuietNext(q, q') ensures QuietInv(q') {
      var a :| Enabled(q, a) && Undisturbed(q, a) && q' == Do(q, a);
      StepQuiet(q, a);
    }
    Invariance(Init, QuietNext, QuietInv, run);
    var q := run[i];
    hide Unlink, Link;
    if q.signalled != {} {
      var t :| t in q.signalled;
      assert IsWaiting(q, t);
    } else {
      var t :| t in q.promised;
      assert IsWaiting(q, t);
    }
  }

  // ---------- nothing lost, nothing doubled ----------

  function Count<T(==)>(s: seq<T>, m: T): nat {
    if s == [] then 0 else Count(s[..|s| - 1], m) + (if s[|s| - 1] == m then 1 else 0)
  }

  /** Occurrences of a message on the receiving side of the first `n` threads. */
  function Received(locals: seq<Local>, n: nat, m: Msg): nat
    requires n <= |locals|
  {
    if n == 0 then 0 else Received(locals, n - 1, m) + Count(Delivered(locals[n - 1].history) + locals[n - 1].popQ, m)
  }

  function CountTaken(taken: seq<(nat, seq<Msg>)>, n: nat, m: Msg): nat {
    if n == 0 then 0 else CountTaken(taken, n - 1, m) + Count(TakenBy(taken, n - 1), m)
  }

  lemma {:induction false} CountConcat(a: seq<Msg>, b: seq<Msg>, m: Msg)
    ensures Count(a + b, m) == Count(a, m) + Count(b, m)
  {
    if b == [] {
      assert a + b == a;
    } else {
      CountConcat(a, b[..|b| - 1], m);
      assert (a + b)[..|a + b| - 1] == a + b[..|b| - 1];
    }
  }

  lemma {:induction false} CountFrom(s: seq<Msg>, m: Msg)
    ensures Count(From(s, m.sender), m) == Count(s, m)
  {
    if s != [] {
      var last := s[|s| - 1];
      CountFrom(s[..|s| - 1], m);
      CountConcat(From(s[..|s| - 1], m.sender), if last.sender == m.sender then [last] else [], m);
      assert Count([last], m) == Count([last][..0], m) + (if last == m then 1 else 0);
    }
  }

  /** What pushes took of a message are those occurrences that were not linked. */
  lemma {:induction false} CountKept(pushed: seq<Sent>, m: Msg)
    ensures Count(Kept(pushed), m) == Count(pushed, Sent(m, false))
  {
    if pushed != [] {
      var last := pushed[|pushed| - 1];
      CountKept(pushed[..|pushed| - 1], m);
      CountConcat(Kept(pushed[..|pushed| - 1]), if last.linked then [] else [last.msg], m);
      assert Count([last.msg], m) == Count([last.msg][..0], m) + (if last.msg == m then 1 else 0);
    }
  }

  /** One more stretch counts for its taker alone. */
  lemma {:induction false} CountTakenStep(taken: seq<(nat, seq<Msg>)>, n: nat, m: Msg)
    requires taken != []
    ensures var last := taken[|taken| - 1];
      CountTaken(taken, n, m) == CountTaken(taken[..|taken| - 1], n, m) + if last.0 < n then Count(last.1, m) else 0
  {
    if n > 0 {
      var last := taken[|taken| - 1];
      CountTakenStep(taken, n - 1, m);
      CountConcat(TakenBy(taken[..|taken| - 1], n - 1), if last.0 == n - 1 then last.1 else [], m);
    }
  }

  lemma {:induction false} CountTakenNone(n: nat, m: Msg)
    ensures CountTaken([], n, m) == 0
  {
    if n > 0 {
      CountTakenNone(n - 1, m);
    }
  }

  lemma {:induction false} CountFlat(taken: seq<(nat, seq<Msg>)>, n: nat, m: Msg)
    requires forall i :: 0 <= i < |taken| ==> taken[i].0 < n
    ensures Count(Flat(taken), m) == CountTaken(taken, n, m)
  {
    if taken == [] {
      CountTakenNone(n, m);
    } else {
      CountFlat(taken[..|taken| - 1], n, m);
      CountTakenStep(taken, n, m);
      CountConcat(Flat(taken[..|taken| - 1]), taken[|taken| - 1].1, m);
    }
  }

  lemma {:induction false} CountReceived(q: Queue, n: nat, m: Msg)
    requires ThreadsOk(q) && n <= |q.locals|
    ensures Received(q.locals, n, m) == CountTaken(q.taken, n, m)
  {
    if n > 0 {
      CountReceived(q, n - 1, m);
      assert ThreadOk(q, n - 1);
      CutConserves(q.locals[n - 1].history, q.locals[n - 1].popQ);
    }
  }

  /**
  Every occurrence of a message among the pushes, unless it was linked then, is in exactly one place: its sender's
  push list, the shared list, or some thread's pop list or deliveries; and nothing else is in any of them.
  */
  lemma NothingLostOrDoubled(run: seq<Queue>, i: nat, m: Msg)
    requires IsRun(Init, Next, run) && i < |run| && m.sender < |run[i].locals|
    ensures var q := run[i];
      Count(q.locals[m.sender].pushed, Sent(m, false)) ==
        Count(q.locals[m.sender].pushQ, m) + Count(q.share, m) + Received(q.locals, |q.locals|, m)
  {
    RunInv(run);
    var q := run[i];
    hide Count, From, Flat, TakenBy, Received, CountTaken, Kept;
    assert ThreadOk(q, m.sender);
    CountKept(q.locals[m.sender].pushed, m);
    CountConcat(From(Shared(q), m.sender), q.locals[m.sender].pushQ, m);
    CountFrom(Shared(q), m);
    CountConcat(Flat(q.taken), q.share, m);
    CountFlat(q.taken, |q.locals|, m);
    CountReceived(q, |q.locals|, m);
  }
}
