/** src/queue/queue.c under concurrency: any number of threads push, pop, try to
    pop, drain and ask for the size, one atomic action (lock, load, store, unlock)
    at a time, in any order. A ticket numbers every push and every pop, so the
    index in `tail` is the number of tasks ever pushed modulo the capacity and
    `head` the number of tasks ever taken modulo the capacity. */
module Ring {
  import opened Common
  import opened Bits
  import opened Queue

  /** The three ways to take a task out; Drain carries what it has so far. */
  datatype Op = Pop | TryPop | Drain(max: nat, out: seq<Task>)

  /** Where a thread is; each constructor is named after its next action. */
  datatype Pc =
    | Idle
    | PushLock(task: Task)
    | PushTail(task: Task)
    | PushHead(task: Task, tail: int, next: int)
    | PushWrite(task: Task, tail: int, next: int)
    | PushStore(task: Task, next: int)
    | PushUnlock(st: Status)
    | PushReturn(st: Status)
    | PopLock(op: Op)
    | PopHead(op: Op)
    | PopTail(op: Op, head: int)
    | PopRead(op: Op, head: int)
    | PopStore(op: Op, head: int, taken: Option<Task>)
    | PopUnlock(op: Op, st: Status, taken: Option<Task>)
    | PopReturn(op: Op, st: Status, taken: Option<Task>)
    | SizeHead
    | SizeTail(head: int, h0: nat, t0: nat)
    | SizeReturn(size: nat, h0: nat, t0: nat, t1: nat)

  /** The shared words of fq_queue_t, the threads, and the ticket history:
      `pushed` lists every task in ticket order, `popped` counts the tickets taken
      and `got` says which thread took which. */
  datatype State = State(
    lg: nat,
    buf: seq<Option<Task>>,
    head: int,
    tail: int,
    pushLock: Option<nat>,
    popLock: Option<nat>,
    pcs: seq<Pc>,
    pushed: seq<Task>,
    popped: nat,
    got: seq<seq<nat>>)
  {
    function Cap(): nat { Pow2(lg) }
    function Mask(): nat { Pow2(lg) - 1 }
    /** The tasks pushed and not yet taken. */
    ghost function Items(): seq<Task> {
      if popped <= |pushed| then pushed[popped..] else []
    }
  }

  datatype Action = Start(t: nat, first: Pc) | Step(t: nat)

  predicate Entry(pc: Pc) {
    pc.PushLock? || pc.SizeHead? || (pc.PopLock? && (pc.op.Drain? ==> pc.op.out == [] && pc.op.max > 0))
  }

  predicate Enabled(s: State, a: Action) {
    && a.t < |s.pcs|
    && match a
       case Start(t, first) => s.pcs[t] == Idle && Entry(first)
       case Step(t) =>
         && s.pcs[t] != Idle
         && (s.pcs[t].PushLock? ==> s.pushLock == None)
         && (s.pcs[t].PopLock? && s.pcs[t].op != TryPop ==> s.popLock == None)
  }

  function At(s: State, t: nat, pc: Pc): State
    requires t < |s.pcs|
  {
    s.(pcs := s.pcs[t := pc])
  }

  /** The effect of one action. */
  function Apply(s: State, a: Action): (s': State)
    requires Enabled(s, a) && |s.got| == |s.pcs|
    ensures |s'.pcs| == |s'.got| == |s.pcs|
  {
    match a
    case Start(t, first) => At(s, t, first)
    case Step(t) =>
      if InPush(s.pcs[t]) then StepPush(s, t)
      else if InSize(s.pcs[t]) then StepSize(s, t)
      else StepPop(s, t)
  }

  predicate InPush(pc: Pc) {
    pc.PushLock? || HoldsPushLock(pc) || pc.PushReturn?
  }

  predicate InPop(pc: Pc) {
    pc.PopLock? || HoldsPopLock(pc) || pc.PopReturn?
  }

  predicate InSize(pc: Pc) {
    pc.SizeHead? || pc.SizeTail? || pc.SizeReturn?
  }

  predicate HoldsPushLock(pc: Pc) {
    pc.PushTail? || pc.PushHead? || pc.PushWrite? || pc.PushStore? || pc.PushUnlock?
  }

  predicate HoldsPopLock(pc: Pc) {
    pc.PopHead? || pc.PopTail? || pc.PopRead? || pc.PopStore? || pc.PopUnlock?
  }

  function StepPush(s: State, t: nat): (s': State)
    requires t < |s.pcs|
    ensures |s'.pcs| == |s.pcs| && s'.got == s.got
  {
    match s.pcs[t]
    case PushLock(task) => At(s, t, PushTail(task)).(pushLock := Some(t))
    case PushTail(task) => At(s, t, PushHead(task, s.tail, MaskInt(s.tail + 1, s.Mask())))
    case PushHead(task, tail, next) =>
      if next == s.head then At(s, t, PushUnlock(Overflow)) else At(s, t, PushWrite(task, tail, next))
    case PushWrite(task, tail, next) =>
      var s' := At(s, t, PushStore(task, next));
      if 0 <= tail < |s.buf| then s'.(buf := s.buf[tail := Some(task)]) else s'
    case PushStore(task, next) => At(s, t, PushUnlock(OK)).(tail := next, pushed := s.pushed + [task])
    case PushUnlock(st) => At(s, t, PushReturn(st)).(pushLock := None)
    case _ => At(s, t, Idle)
  }

  function StepPop(s: State, t: nat): (s': State)
    requires t < |s.pcs| == |s.got|
    ensures |s'.pcs| == |s.pcs| == |s'.got|
  {
    match s.pcs[t]
    case PopLock(op) =>
      if s.popLock == None then At(s, t, PopHead(op)).(popLock := Some(t))
      else At(s, t, PopReturn(op, Busy, None))
    case PopHead(op) => At(s, t, PopTail(op, s.head))
    case PopTail(op, head) =>
      if head == s.tail then At(s, t, PopUnlock(op, Busy, None)) else At(s, t, PopRead(op, head))
    case PopRead(op, head) =>
      At(s, t, PopStore(op, head, if 0 <= head < |s.buf| then s.buf[head] else None))
    case PopStore(op, head, taken) =>
      At(s, t, PopUnlock(op, OK, taken)).(
        head := MaskInt(head + 1, s.Mask()),
        popped := s.popped + 1,
        got := s.got[t := s.got[t] + [s.popped]])
    case PopUnlock(op, st, taken) => At(s, t, PopReturn(op, st, taken)).(popLock := None)
    case PopReturn(op, st, taken) => At(s, t, AfterPop(op, st, taken))
    case _ => s
  }

  /** What the caller of a pop does with the answer: fq_queue_drain goes round. */
  function AfterPop(op: Op, st: Status, taken: Option<Task>): Pc {
    if op.Drain? && st == OK && taken.Some? && |op.out| + 1 < op.max
    then PopLock(Drain(op.max, op.out + [taken.value]))
    else Idle
  }

  function StepSize(s: State, t: nat): (s': State)
    requires t < |s.pcs|
    ensures |s'.pcs| == |s.pcs| && s'.got == s.got
  {
    match s.pcs[t]
    case SizeHead => At(s, t, SizeTail(s.head, s.popped, |s.pushed|))
    case SizeTail(head, h0, t0) =>
      At(s, t, SizeReturn(MaskInt(s.tail - head, s.Mask()), h0, t0, |s.pushed|))
    case _ => At(s, t, Idle)
  }

  ghost predicate Legal(s: State, acts: seq<Action>)
    decreases |acts|
  {
    && |s.got| == |s.pcs|
    && (acts != [] ==> Enabled(s, acts[0]) && Legal(Apply(s, acts[0]), acts[1..]))
  }

  ghost function Run(s: State, acts: seq<Action>): State
    requires Legal(s, acts)
    decreases |acts|
  {
    if acts == [] then s else Run(Apply(s, acts[0]), acts[1..])
  }

  /** A created queue with `n` threads about to use it. */
  function Initial(lg: nat, n: nat): State {
    State(lg, seq(Pow2(lg), _ => None), 0, 0, None, None, seq(n, _ => Idle), [], 0, seq(n, _ => []))
  }

  // ---- the invariant ----

  /** What the shared words mean. */
  ghost predicate Shared(s: State) {
    && 1 <= s.lg <= 31
    && |s.buf| == s.Cap()
    && s.popped <= |s.pushed| < s.popped + s.Cap()
    && s.head == Rem(s.popped, s.Cap())
    && s.tail == Rem(|s.pushed|, s.Cap())
    && s.tail == Slot(s.head, |s.pushed| - s.popped, s.Cap())
    && Holds(s.buf, s.head, s.Items())
    && |s.got| == |s.pcs|
  }

  ghost predicate Locks(s: State) {
    && (forall t :: 0 <= t < |s.pcs| ==> (HoldsPushLock(s.pcs[t]) <==> s.pushLock == Some(t)))
    && (forall t :: 0 <= t < |s.pcs| ==> (HoldsPopLock(s.pcs[t]) <==> s.popLock == Some(t)))
    && (s.pushLock.Some? ==> s.pushLock.value < |s.pcs|)
    && (s.popLock.Some? ==> s.popLock.value < |s.pcs|)
  }

  lemma {:induction false} RemNext(ticket: nat, p: nat)
    requires p > 0
    ensures Rem(ticket + 1, p) == Slot(Rem(ticket, p), 1, p)
  {
    if ticket >= p {
      RemNext(ticket - p, p);
    }
  }

  /** The masked difference of two indices is the slot of the ticket difference. */
  lemma {:induction false} RemDifference(h: nat, t: nat, p: nat)
    requires h <= t && p > 0
    ensures var i, j := Rem(h, p), Rem(t, p);
            Rem(t - h, p) == if i <= j then j - i else j - i + p
    decreases t
  {
    if t >= p {
      if h <= t - p {
        RemDifference(h, t - p, p);
      } else if h >= p {
        RemDifference(h - p, t - p, p);
      }
    }
  }

  /** What a thread's stale snapshots still guarantee. */
  ghost predicate Snapshot(s: State, pc: Pc)
    requires Shared(s)
  {
    match pc
    case PushHead(_, tail, next) => tail == s.tail && next == Slot(tail, 1, s.Cap())
    case PushWrite(_, tail, next) => tail == s.tail && next == Slot(tail, 1, s.Cap()) && Room(s)
    case PushStore(task, next) => next == Slot(s.tail, 1, s.Cap()) && Room(s) && s.buf[s.tail] == Some(task)
    case PopTail(_, head) => head == s.head
    case PopRead(_, head) => head == s.head && s.popped < |s.pushed|
    case PopStore(_, head, taken) =>
      head == s.head && s.popped < |s.pushed| && taken == Some(s.pushed[s.popped])
    case PopUnlock(_, st, taken) => st == OK <==> taken.Some?
    case PopReturn(_, st, taken) => st == OK <==> taken.Some?
    case SizeTail(head, h0, t0) =>
      head == Rem(h0, s.Cap()) && h0 <= s.popped && h0 <= t0 <= |s.pushed| && t0 < h0 + s.Cap()
    case SizeReturn(size, h0, t0, t1) =>
      h0 <= t0 <= t1 <= |s.pushed| && h0 <= s.popped && t0 < h0 + s.Cap() && size == Rem(t1 - h0, s.Cap())
    case _ => true
  }

  ghost predicate Room(s: State) {
    |s.pushed| - s.popped < s.Cap() - 1
  }

  ghost predicate Inv(s: State) {
    && Shared(s)
    && Locks(s)
    && forall t :: 0 <= t < |s.pcs| ==> Snapshot(s, s.pcs[t])
  }

  lemma InitialInv(lg: nat, n: nat)
    requires 1 <= lg <= 31
    ensures Inv(Initial(lg, n))
  {
    Pow2Mono(1, lg);
  }

  // ---- the atomic bounded FIFO ----

  /** What a thread is doing, as a user of an atomic queue. */
  datatype Call =
    | Nothing
    | Pushing(task: Task)
    | PushDone(st: Status)
    | Popping(op: Op)
    | PopDone(op: Op, st: Status, taken: Option<Task>)

  datatype AtomicQueue = AtomicQueue(room: nat, items: seq<Task>, calls: seq<Call>)

  function AbsPc(pc: Pc): Call {
    match pc
    case PushLock(task) => Pushing(task)
    case PushTail(task) => Pushing(task)
    case PushHead(task, _, _) => Pushing(task)
    case PushWrite(task, _, _) => Pushing(task)
    case PushStore(task, _) => Pushing(task)
    case PushUnlock(st) => PushDone(st)
    case PushReturn(st) => PushDone(st)
    case PopLock(op) => Popping(op)
    case PopHead(op) => Popping(op)
    case PopTail(op, _) => Popping(op)
    case PopRead(op, _) => Popping(op)
    case PopStore(op, _, _) => Popping(op)
    case PopUnlock(op, st, taken) => PopDone(op, st, taken)
    case PopReturn(op, st, taken) => PopDone(op, st, taken)
    case _ => Nothing
  }

  ghost function Abs(s: State): AtomicQueue {
    AtomicQueue(s.Cap() - 1, s.Items(), seq(|s.pcs|, t requires 0 <= t < |s.pcs| => AbsPc(s.pcs[t])))
  }

  /** One step of thread `t` on the atomic queue: a call or a return, or the
      whole operation at once. Only try_pop may give up on a queue that is not
      empty. */
  ghost predicate Atomic(a: AtomicQueue, t: nat, b: AtomicQueue) {
    && t < |a.calls| == |b.calls|
    && b == AtomicQueue(a.room, b.items, a.calls[t := b.calls[t]])
    && var c, d := a.calls[t], b.calls[t];
       || (c == Nothing && (d.Pushing? || d.Popping?) && b.items == a.items)
       || ((c.PushDone? || c.PopDone?) && b.items == a.items && d == Answered(c))
       || (c.Pushing? && d == PushDone(OK) && |a.items| < a.room && b.items == a.items + [c.task])
       || (c.Pushing? && d == PushDone(Overflow) && |a.items| == a.room && b.items == a.items)
       || (c.Popping? && a.items != [] && d == PopDone(c.op, OK, Some(a.items[0])) && b.items == a.items[1..])
       || (c.Popping? && a.items == [] && d == PopDone(c.op, Busy, None) && b.items == a.items)
       || (c == Popping(TryPop) && d == PopDone(TryPop, Busy, None) && b.items == a.items)
  }

  function Answered(c: Call): Call {
    if c.PopDone? && c.op.Drain? && c.st == OK && c.taken.Some? && |c.op.out| + 1 < c.op.max
    then Popping(Drain(c.op.max, c.op.out + [c.taken.value]))
    else Nothing
  }

  // ---- refinement ----

  /** Moving one thread changes one entry of the abstraction. */
  lemma AbsMove(s: State, s': State, t: nat)
    requires t < |s.pcs| == |s'.pcs|
    requires s'.lg == s.lg && s'.pcs == s.pcs[t := s'.pcs[t]]
    ensures Abs(s') == AtomicQueue(Abs(s).room, s'.Items(), Abs(s).calls[t := AbsPc(s'.pcs[t])])
  {
    assert Abs(s').calls == Abs(s).calls[t := AbsPc(s'.pcs[t])];
  }

  lemma PushKeeps(s: State, t: nat)
    requires Inv(s) && Enabled(s, Step(t))
    requires InPush(s.pcs[t])
    ensures Inv(StepPush(s, t))
    ensures Abs(StepPush(s, t)) == Abs(s) || Atomic(Abs(s), t, Abs(StepPush(s, t)))
  {
    if s.pcs[t].PushWrite? {
      PushWriteKeeps(s, t);
    } else if s.pcs[t].PushStore? {
      PushStoreKeeps(s, t);
    } else {
      PushQuietKeeps(s, t);
    }
  }

  /** One thread moved and took or left at most its own locks. */
  ghost predicate Quiet(s: State, s': State, t: nat) {
    && t < |s.pcs| == |s'.pcs|
    && s' == s.(pcs := s.pcs[t := s'.pcs[t]], pushLock := s'.pushLock, popLock := s'.popLock)
    && Hands(s.pushLock, s'.pushLock, HoldsPushLock(s.pcs[t]), HoldsPushLock(s'.pcs[t]), t)
    && Hands(s.popLock, s'.popLock, HoldsPopLock(s.pcs[t]), HoldsPopLock(s'.pcs[t]), t)
  }

  predicate Hands(before: Option<nat>, after: Option<nat>, held: bool, holds: bool, t: nat) {
    if held == holds then after == before
    else if holds then before == None && after == Some(t)
    else after == None
  }

  lemma QuietKeeps(s: State, s': State, t: nat)
    requires Inv(s) && Quiet(s, s', t) && Snapshot(s, s'.pcs[t])
    ensures Inv(s')
  {
    QuietLocks(s, s', t);
    forall u | 0 <= u < |s.pcs|
      ensures Snapshot(s', s'.pcs[u])
    {
      assert Snapshot(s, s.pcs[u]);
      SameSnapshot(s, s', s'.pcs[u]);
    }
  }

  lemma QuietLocks(s: State, s': State, t: nat)
    requires Locks(s) && Quiet(s, s', t)
    ensures Locks(s')
  {
    assert forall u :: 0 <= u < |s.pcs| && u != t ==> s'.pcs[u] == s.pcs[u];
  }

  lemma SameSnapshot(s: State, s': State, pc: Pc)
    requires Shared(s) && Snapshot(s, pc) && |s'.pcs| == |s.pcs|
    requires s' == s.(pcs := s'.pcs, pushLock := s'.pushLock, popLock := s'.popLock)
    ensures Shared(s') && Snapshot(s', pc)
  {
  }

  /** Lock, load and unlock actions of a push. */
  lemma PushQuietKeeps(s: State, t: nat)
    requires Inv(s) && Enabled(s, Step(t))
    requires InPush(s.pcs[t]) && !s.pcs[t].PushWrite? && !s.pcs[t].PushStore?
    ensures Inv(StepPush(s, t))
    ensures Abs(StepPush(s, t)) == Abs(s) || Atomic(Abs(s), t, Abs(StepPush(s, t)))
  {
    var s' := StepPush(s, t);
    PushQuietStep(s, t);
    QuietKeeps(s, s', t);
    AbsMove(s, s', t);
    if AbsPc(s'.pcs[t]) == AbsPc(s.pcs[t]) {
      AbsStays(s, s', t);
    }
  }

  /** The full test at the head load: either no room, or room until the index store. */
  lemma PushQuietStep(s: State, t: nat)
    requires Shared(s) && Enabled(s, Step(t)) && Snapshot(s, s.pcs[t])
    requires InPush(s.pcs[t]) && !s.pcs[t].PushWrite? && !s.pcs[t].PushStore?
    requires HoldsPushLock(s.pcs[t]) ==> s.pushLock == Some(t)
    ensures var s' := StepPush(s, t);
            && Quiet(s, s', t) && Snapshot(s, s'.pcs[t])
            && (s'.pcs[t] == PushUnlock(Overflow) && s.pcs[t].PushHead? ==> |s.Items()| == s.Cap() - 1)
  {
    MaskNext(s.tail, s.lg);
  }

  lemma AbsStays(s: State, s': State, t: nat)
    requires Quiet(s, s', t) && AbsPc(s'.pcs[t]) == AbsPc(s.pcs[t])
    ensures Abs(s') == Abs(s)
  {
    assert Abs(s').calls == Abs(s).calls;
  }

  /** The slot being written is not live, and nobody reads it. */
  lemma PushWriteKeeps(s: State, t: nat)
    requires Inv(s) && Enabled(s, Step(t)) && s.pcs[t].PushWrite?
    ensures Inv(StepPush(s, t))
    ensures Abs(StepPush(s, t)) == Abs(s)
  {
    var s' := StepPush(s, t);
    HoldsPush(s.buf, s.head, s.Items(), s.pcs[t].task);
    HoldsPrefix(s'.buf, s.head, s.Items(), s.pcs[t].task);
    AbsMove(s, s', t);
    assert Abs(s').calls == Abs(s).calls;
  }

  lemma HoldsPrefix(buf: seq<Option<Task>>, head: int, items: seq<Task>, task: Task)
    requires Holds(buf, head, items + [task])
    ensures Holds(buf, head, items)
  {
    forall i | 0 <= i < |items|
      ensures buf[Slot(head, i, |buf|)] == Some(items[i])
    {
      assert items[i] == (items + [task])[i];
    }
  }

  /** The index store makes the written slot live: the push takes effect here. */
  lemma PushStoreKeeps(s: State, t: nat)
    requires Inv(s) && Enabled(s, Step(t)) && s.pcs[t].PushStore?
    ensures Inv(StepPush(s, t))
    ensures Atomic(Abs(s), t, Abs(StepPush(s, t)))
  {
    var s' := StepPush(s, t);
    PushStoreShared(s, t);
    forall u | 0 <= u < |s'.pcs|
      ensures Snapshot(s', s'.pcs[u])
    {
      if u != t {
        assert !HoldsPushLock(s.pcs[u]);
        PushStoreOther(s, s', s.pcs[u]);
      }
    }
    assert forall u :: 0 <= u < |s.pcs| && u != t ==> s'.pcs[u] == s.pcs[u];
    assert s'.Items() == s.Items() + [s.pcs[t].task];
    AbsMove(s, s', t);
  }

  lemma PushStoreShared(s: State, t: nat)
    requires Shared(s) && t < |s.pcs| && s.pcs[t].PushStore? && Snapshot(s, s.pcs[t])
    ensures Shared(StepPush(s, t))
  {
    var s', task := StepPush(s, t), s.pcs[t].task;
    HoldsPush(s.buf, s.head, s.Items(), task);
    assert s.buf[s.tail := Some(task)] == s.buf;
    assert s'.Items() == s.Items() + [task];
    RemNext(|s.pushed|, s.Cap());
  }

  /** The push lock keeps all other producers outside, and consumers only gain tasks. */
  lemma PushStoreOther(s: State, s': State, pc: Pc)
    requires Shared(s) && Shared(s') && Snapshot(s, pc) && !HoldsPushLock(pc)
    requires s'.lg == s.lg && s'.head == s.head && s'.popped == s.popped && s.pushed <= s'.pushed
    ensures Snapshot(s', pc)
  {
  }

  lemma PopKeeps(s: State, t: nat)
    requires Inv(s) && Enabled(s, Step(t))
    requires InPop(s.pcs[t])
    ensures Inv(StepPop(s, t))
    ensures Abs(StepPop(s, t)) == Abs(s) || Atomic(Abs(s), t, Abs(StepPop(s, t)))
  {
    if s.pcs[t].PopStore? {
      PopStoreKeeps(s, t);
    } else {
      PopQuietKeeps(s, t);
    }
  }

  /** Lock, load, read and unlock actions of a pop. */
  lemma PopQuietKeeps(s: State, t: nat)
    requires Inv(s) && Enabled(s, Step(t))
    requires s.pcs[t].PopLock? || s.pcs[t].PopHead? || s.pcs[t].PopTail? || s.pcs[t].PopRead?
             || s.pcs[t].PopUnlock? || s.pcs[t].PopReturn?
    ensures Inv(StepPop(s, t))
    ensures Abs(StepPop(s, t)) == Abs(s) || Atomic(Abs(s), t, Abs(StepPop(s, t)))
  {
    var s' := StepPop(s, t);
    PopQuietStep(s, t);
    QuietKeeps(s, s', t);
    AbsMove(s, s', t);
    if AbsPc(s'.pcs[t]) == AbsPc(s.pcs[t]) {
      AbsStays(s, s', t);
    }
  }

  /** A consumer that has found the queue non-empty reads the oldest task. */
  lemma PopQuietStep(s: State, t: nat)
    requires Shared(s) && Enabled(s, Step(t)) && Snapshot(s, s.pcs[t])
    requires HoldsPopLock(s.pcs[t]) ==> s.popLock == Some(t)
    requires s.pcs[t].PopLock? || s.pcs[t].PopHead? || s.pcs[t].PopTail? || s.pcs[t].PopRead?
             || s.pcs[t].PopUnlock? || s.pcs[t].PopReturn?
    ensures Quiet(s, StepPop(s, t), t) && Snapshot(s, StepPop(s, t).pcs[t])
  {
    if s.pcs[t].PopRead? {
      HeadIsOldest(s);
    }
  }

  lemma HeadIsOldest(s: State)
    requires Shared(s) && s.popped < |s.pushed|
    ensures 0 <= s.head < |s.buf| && s.buf[s.head] == Some(s.pushed[s.popped])
  {
    HoldsPop(s.buf, s.head, s.Items());
  }

  /** The index store gives up the slot: the pop takes effect here. */
  lemma PopStoreKeeps(s: State, t: nat)
    requires Inv(s) && Enabled(s, Step(t)) && s.pcs[t].PopStore?
    ensures Inv(StepPop(s, t))
    ensures Atomic(Abs(s), t, Abs(StepPop(s, t)))
  {
    var s' := StepPop(s, t);
    PopStoreShared(s, t);
    forall u | 0 <= u < |s'.pcs|
      ensures Snapshot(s', s'.pcs[u])
    {
      if u != t {
        assert !HoldsPopLock(s.pcs[u]);
        PopStoreOther(s, s', s.pcs[u]);
      }
    }
    assert forall u :: 0 <= u < |s.pcs| && u != t ==> s'.pcs[u] == s.pcs[u];
    PopStoreAtomic(s, t);
  }

  lemma PopStoreAtomic(s: State, t: nat)
    requires Shared(s) && t < |s.pcs| && s.pcs[t].PopStore? && Snapshot(s, s.pcs[t])
    ensures Atomic(Abs(s), t, Abs(StepPop(s, t)))
  {
    var s' := StepPop(s, t);
    assert s'.Items() == s.Items()[1..];
    AbsMove(s, s', t);
  }

  lemma PopStoreShared(s: State, t: nat)
    requires Shared(s) && t < |s.pcs| && s.pcs[t].PopStore? && Snapshot(s, s.pcs[t])
    ensures Shared(StepPop(s, t))
  {
    MaskNext(s.head, s.lg);
    Popped(s, StepPop(s, t));
  }

  lemma Popped(s: State, s': State)
    requires Shared(s) && s.popped < |s.pushed|
    requires s'.lg == s.lg && s'.buf == s.buf && s'.pushed == s.pushed && s'.tail == s.tail
    requires s'.popped == s.popped + 1 && s'.head == Slot(s.head, 1, s.Cap()) && |s'.got| == |s'.pcs|
    ensures Shared(s')
  {
    HoldsPop(s.buf, s.head, s.Items());
    RemNext(s.popped, s.Cap());
    assert s'.Items() == s.Items()[1..];
  }

  /** The pop lock keeps all other consumers outside, and producers only gain room. */
  lemma PopStoreOther(s: State, s': State, pc: Pc)
    requires Shared(s) && Shared(s') && Snapshot(s, pc) && !HoldsPopLock(pc)
    requires s'.lg == s.lg && s'.tail == s.tail && s'.buf == s.buf
    requires s'.pushed == s.pushed && s.popped <= s'.popped
    ensures Snapshot(s', pc)
  {
  }

  lemma SizeKeeps(s: State, t: nat)
    requires Inv(s) && Enabled(s, Step(t)) && InSize(s.pcs[t])
    ensures Inv(StepSize(s, t))
    ensures Abs(StepSize(s, t)) == Abs(s)
  {
    var s' := StepSize(s, t);
    SizeStep(s, t);
    QuietKeeps(s, s', t);
    AbsStays(s, s', t);
  }

  lemma SizeStep(s: State, t: nat)
    requires Shared(s) && t < |s.pcs| && InSize(s.pcs[t]) && Snapshot(s, s.pcs[t])
    ensures Quiet(s, StepSize(s, t), t) && Snapshot(s, StepSize(s, t).pcs[t])
  {
    if s.pcs[t].SizeTail? {
      SizeLoads(s, s.pcs[t].head, s.pcs[t].h0);
    }
  }

  lemma SizeLoads(s: State, head: int, h0: nat)
    requires Shared(s) && head == Rem(h0, s.Cap()) && h0 <= |s.pushed|
    ensures MaskInt(s.tail - head, s.Mask()) == Rem(|s.pushed| - h0, s.Cap())
  {
    MaskDifference(s.tail, head, s.lg);
    RemDifference(h0, |s.pushed|, s.Cap());
  }

  /** One concrete action is one action of the atomic queue, or invisible. */
  lemma Refines(s: State, a: Action)
    requires Inv(s) && Enabled(s, a)
    ensures Inv(Apply(s, a))
    ensures Abs(Apply(s, a)) == Abs(s) || Atomic(Abs(s), a.t, Abs(Apply(s, a)))
  {
    match a
    case Start(t, first) =>
      assert Abs(Apply(s, a)).calls == Abs(s).calls[t := AbsPc(first)];
    case Step(t) =>
      if InPush(s.pcs[t]) {
        PushKeeps(s, t);
      } else if InSize(s.pcs[t]) {
        SizeKeeps(s, t);
      } else {
        PopKeeps(s, t);
      }
  }

  /** The states a run goes through. */
  ghost function Trace(s: State, acts: seq<Action>): (tr: seq<State>)
    requires Legal(s, acts)
    ensures |tr| == |acts| + 1 && tr[0] == s && tr[|acts|] == Run(s, acts)
    decreases |acts|
  {
    if acts == [] then [s] else [s] + Trace(Apply(s, acts[0]), acts[1..])
  }

  /** Linearizability of every run of every number of threads: the invariant
      holds throughout, and each action either is invisible to users of the
      queue or is one atomic action of a bounded FIFO by the same thread. */
  lemma {:induction false} QueueRefinesFifo(s: State, acts: seq<Action>)
    requires Inv(s) && Legal(s, acts)
    ensures forall i :: 0 <= i <= |acts| ==> Inv(Trace(s, acts)[i])
    ensures forall i :: 0 <= i < |acts| ==>
                          var a, b := Abs(Trace(s, acts)[i]), Abs(Trace(s, acts)[i + 1]);
                          b == a || Atomic(a, acts[i].t, b)
    decreases |acts|
  {
    if acts != [] {
      Refines(s, acts[0]);
      QueueRefinesFifo(Apply(s, acts[0]), acts[1..]);
    }
  }

  // ---- tickets ----

  /** The tasks a drain has in hand, including one not yet written to `out`. */
  ghost function Collected(pc: Pc): seq<Task> {
    match pc
    case PopLock(op) => Out(op)
    case PopHead(op) => Out(op)
    case PopTail(op, _) => Out(op)
    case PopRead(op, _) => Out(op)
    case PopStore(op, _, _) => Out(op)
    case PopUnlock(op, st, taken) => Out(op) + Fresh(st, taken)
    case PopReturn(op, st, taken) => Out(op) + Fresh(st, taken)
    case _ => []
  }

  function Fresh(st: Status, taken: Option<Task>): seq<Task> {
    if st == OK && taken.Some? then [taken.value] else []
  }

  function Out(op: Op): seq<Task> {
    if op.Drain? then op.out else []
  }

  /** `tasks` are the tasks behind `tickets`, one for one. */
  ghost predicate Behind(tasks: seq<Task>, tickets: seq<nat>, pushed: seq<Task>) {
    && |tasks| == |tickets|
    && forall i :: 0 <= i < |tasks| ==> tickets[i] < |pushed| && tasks[i] == pushed[tickets[i]]
  }

  /** `tasks` are the tasks behind the last tickets of `mine`. */
  ghost predicate Redeems(tasks: seq<Task>, mine: seq<nat>, pushed: seq<Task>) {
    |tasks| <= |mine| && Behind(tasks, mine[|mine| - |tasks|..], pushed)
  }

  ghost predicate Increasing(mine: seq<nat>) {
    forall i, j :: 0 <= i < j < |mine| ==> mine[i] < mine[j]
  }

  /** Every ticket is handed out once, to one thread, in order. */
  ghost predicate Handed(s: State) {
    && |s.got| == |s.pcs|
    && (forall t :: 0 <= t < |s.got| ==> Increasing(s.got[t]))
    && (forall t, k :: 0 <= t < |s.got| && k in s.got[t] ==> k < s.popped)
    && (forall t, u, k :: 0 <= t < u < |s.got| && k in s.got[t] ==> k !in s.got[u])
  }

  ghost predicate Tickets(s: State) {
    && Handed(s)
    && (forall t :: 0 <= t < |s.pcs| ==> Redeems(Collected(s.pcs[t]), s.got[t], s.pushed))
    && (forall t :: 0 <= t < |s.pcs| ==> Underfull(s.pcs[t]))
  }

  /** A drain that is still popping has fewer than `max` tasks. */
  predicate Underfull(pc: Pc) {
    InPop(pc) && pc.op.Drain? ==> |pc.op.out| < pc.op.max
  }

  /** What an action can do to the tickets: hand out the next one, or nothing. */
  ghost predicate TicketMove(s: State, s': State, t: nat) {
    && t < |s.pcs| == |s.got| == |s'.pcs| == |s'.got|
    && s'.pcs == s.pcs[t := s'.pcs[t]]
    && (Underfull(s.pcs[t]) ==> Underfull(s'.pcs[t]))
    && if s'.popped == s.popped then
         && s'.got == s.got && s.pushed <= s'.pushed
         && (Collected(s'.pcs[t]) == Collected(s.pcs[t]) || Collected(s'.pcs[t]) == [])
       else
         && s'.popped == s.popped + 1 <= |s.pushed| && s'.pushed == s.pushed
         && s'.got == s.got[t := s.got[t] + [s.popped]]
         && (Collected(s'.pcs[t]) == Collected(s.pcs[t]) + [s.pushed[s.popped]])
  }

  lemma ActionMovesTickets(s: State, a: Action)
    requires Inv(s) && Enabled(s, a)
    ensures TicketMove(s, Apply(s, a), a.t)
  {
    if a.Step? {
      assert Snapshot(s, s.pcs[a.t]);
      if InPush(s.pcs[a.t]) {
        PushMovesTickets(s, a.t);
      } else if InSize(s.pcs[a.t]) {
        SizeMovesTickets(s, a.t);
      } else {
        PopMovesTickets(s, a.t);
      }
    }
  }

  lemma PushMovesTickets(s: State, t: nat)
    requires t < |s.pcs| == |s.got| && InPush(s.pcs[t])
    ensures TicketMove(s, StepPush(s, t), t)
  {
  }

  lemma SizeMovesTickets(s: State, t: nat)
    requires t < |s.pcs| == |s.got| && InSize(s.pcs[t])
    ensures TicketMove(s, StepSize(s, t), t)
  {
  }

  lemma PopMovesTickets(s: State, t: nat)
    requires t < |s.pcs| == |s.got| && InPop(s.pcs[t])
    requires s.pcs[t].PopStore? ==> s.popped < |s.pushed| && s.pcs[t].taken == Some(s.pushed[s.popped])
    requires s.pcs[t].PopUnlock? || s.pcs[t].PopReturn? ==> (s.pcs[t].st == OK <==> s.pcs[t].taken.Some?)
    ensures TicketMove(s, StepPop(s, t), t)
  {
    match s.pcs[t]
    case PopStore(op, _, taken) =>
      assert Collected(StepPop(s, t).pcs[t]) == Collected(s.pcs[t]) + [s.pushed[s.popped]];
    case PopReturn(op, st, taken) =>
    case _ =>
  }

  lemma HandedKept(s: State, s': State, t: nat)
    requires Handed(s) && TicketMove(s, s', t)
    ensures Handed(s')
  {
    if s'.popped != s.popped {
      var mine := s.got[t] + [s.popped];
      assert forall k :: k in mine <==> k in s.got[t] || k == s.popped;
      assert forall i :: 0 <= i < |s.got[t]| ==> s.got[t][i] in s.got[t];
    }
  }

  lemma RedeemsMore(tasks: seq<Task>, mine: seq<nat>, pushed: seq<Task>, k: nat)
    requires Redeems(tasks, mine, pushed) && k < |pushed|
    ensures Redeems(tasks + [pushed[k]], mine + [k], pushed)
  {
    var n := |mine| - |tasks|;
    assert (mine + [k])[n..] == mine[n..] + [k];
  }

  lemma TicketsKept(s: State, s': State, t: nat)
    requires Tickets(s) && TicketMove(s, s', t)
    ensures Tickets(s')
  {
    HandedKept(s, s', t);
    forall u | 0 <= u < |s.pcs|
      ensures Redeems(Collected(s'.pcs[u]), s'.got[u], s'.pushed) && Underfull(s'.pcs[u])
    {
      assert Redeems(Collected(s.pcs[u]), s.got[u], s.pushed) && Underfull(s.pcs[u]);
      if u == t && s'.popped != s.popped {
        RedeemsMore(Collected(s.pcs[t]), s.got[t], s.pushed, s.popped);
      }
    }
  }

  lemma InitialTickets(lg: nat, n: nat)
    ensures Tickets(Initial(lg, n))
  {
  }

  lemma {:induction false} TicketsOverRun(s: State, acts: seq<Action>)
    requires Inv(s) && Tickets(s) && Legal(s, acts)
    ensures Inv(Run(s, acts)) && Tickets(Run(s, acts)) && |Run(s, acts).pcs| == |s.pcs|
    decreases |acts|
  {
    if acts != [] {
      Refines(s, acts[0]);
      ActionMovesTickets(s, acts[0]);
      TicketsKept(s, Apply(s, acts[0]), acts[0].t);
      TicketsOverRun(Apply(s, acts[0]), acts[1..]);
    }
  }

  /** Drain order: in every run of a created queue, a drain that returns has at most
      `max` tasks, behind strictly increasing tickets of its own, whatever else happens
      on the queue, and no ticket is handed out to two threads. */
  lemma DrainOrder(lg: nat, n: nat, acts: seq<Action>, t: nat, u: nat)
    requires 1 <= lg <= 31 && Legal(Initial(lg, n), acts) && t < n && u < n && t != u
    ensures var s := Run(Initial(lg, n), acts);
            && |s.pcs| == |s.got| == n
            && Drained(s, s.pcs[t], s.got[t])
            && forall k :: k in s.got[t] ==> k !in s.got[u]
  {
    InitialInv(lg, n);
    InitialTickets(lg, n);
    TicketsOverRun(Initial(lg, n), acts);
    TicketFacts(Run(Initial(lg, n), acts), t, u);
  }

  /** What a thread's tickets say about a drain that is over. */
  ghost predicate Drained(s: State, pc: Pc, mine: seq<nat>) {
    && Increasing(mine)
    && (pc.PopReturn? && pc.op.Drain? ==> |Collected(pc)| <= pc.op.max && Redeems(Collected(pc), mine, s.pushed))
  }

  lemma TicketFacts(s: State, t: nat, u: nat)
    requires Tickets(s) && t < |s.pcs| && u < |s.pcs| && t != u
    ensures |s.got| == |s.pcs| && Drained(s, s.pcs[t], s.got[t])
    ensures forall k :: k in s.got[t] ==> k !in s.got[u]
  {
    assert Redeems(Collected(s.pcs[t]), s.got[t], s.pushed) && Underfull(s.pcs[t]);
  }

  // ---- a drain that comes back short ----

  /** A pop or a drain that has found the queue empty. */
  predicate FoundNone(pc: Pc) {
    (pc.PopUnlock? || pc.PopReturn?) && pc.op != TryPop && pc.st != OK
  }

  lemma FoundNoneStep(s: State, a: Action, t: nat)
    requires Inv(s) && Enabled(s, a) && t < |s.pcs| && !FoundNone(s.pcs[t])
    ensures t < |Apply(s, a).pcs|
    ensures FoundNone(Apply(s, a).pcs[t]) ==> a == Step(t) && s.pcs[t].PopTail? && s.Items() == []
  {
    if FoundNone(Apply(s, a).pcs[t]) {
      OnlyAtTail(s, a, t);
      TailMeansEmpty(s, t);
    }
  }

  lemma OnlyAtTail(s: State, a: Action, t: nat)
    requires Enabled(s, a) && |s.got| == |s.pcs| && t < |s.pcs| && !FoundNone(s.pcs[t])
    requires t < |Apply(s, a).pcs| && FoundNone(Apply(s, a).pcs[t])
    ensures a == Step(t) && s.pcs[t].PopTail? && s.pcs[t].head == s.tail
  {
  }

  lemma TailMeansEmpty(s: State, t: nat)
    requires Inv(s) && t < |s.pcs| && s.pcs[t].PopTail? && s.pcs[t].head == s.tail
    ensures s.Items() == []
  {
    assert Snapshot(s, s.pcs[t]);
  }

  /** ... found it so at its load of the tail, the m-th action. */
  lemma {:induction false} FoundNoneOverRun(s: State, acts: seq<Action>, t: nat) returns (m: nat)
    requires Inv(s) && Legal(s, acts) && t < |s.pcs| && !FoundNone(s.pcs[t])
    requires t < |Run(s, acts).pcs| && FoundNone(Run(s, acts).pcs[t])
    ensures m < |acts| && acts[m] == Step(t) && Legal(s, acts[..m])
    ensures var e := Run(s, acts[..m]); t < |e.pcs| && e.pcs[t].PopTail? && e.Items() == []
    decreases |acts|
  {
    var s1 := Apply(s, acts[0]);
    FoundNoneStep(s, acts[0], t);
    if FoundNone(s1.pcs[t]) {
      m := 0;
    } else {
      Refines(s, acts[0]);
      var n := FoundNoneOverRun(s1, acts[1..], t);
      m := n + 1;
      assert acts[..m][1..] == acts[1..][..n];
    }
  }

  /** In every run of a created queue, a drain that returns with fewer than `max` tasks has
      found the queue empty, by its load of the tail at the m-th action. */
  lemma ShortDrainFoundEmpty(lg: nat, n: nat, acts: seq<Action>, t: nat) returns (m: nat)
    requires 1 <= lg <= 31 && Legal(Initial(lg, n), acts) && t < n
    requires var s := Run(Initial(lg, n), acts);
             && t < |s.pcs| && s.pcs[t].PopReturn? && s.pcs[t].op.Drain? && Enabled(s, Step(t))
             && |s.got| == |s.pcs| && Apply(s, Step(t)).pcs[t] == Idle && |Collected(s.pcs[t])| < s.pcs[t].op.max
    ensures m < |acts| && acts[m] == Step(t) && Legal(Initial(lg, n), acts[..m])
    ensures var e := Run(Initial(lg, n), acts[..m]); t < |e.pcs| && e.pcs[t].PopTail? && e.Items() == []
  {
    InitialInv(lg, n);
    InitialTickets(lg, n);
    TicketsOverRun(Initial(lg, n), acts);
    var s := Run(Initial(lg, n), acts);
    assert Snapshot(s, s.pcs[t]);
    m := FoundNoneOverRun(Initial(lg, n), acts, t);
  }

  // ---- fq_queue_size ----

  /** The two loads of fq_queue_size, taken at different moments, report the size
      at the first load exactly when a whole number of turns was pushed in
      between, and 0 exactly when the tickets between the two indices make whole
      turns. With pushes stopped the answer is therefore exact, it is 0 only
      if the queue was empty at the head load, and then it is still empty. */
  lemma SizeExact(s: State, t: nat)
    requires Inv(s) && t < |s.pcs| && s.pcs[t].SizeReturn?
    ensures var SizeReturn(size, h0, t0, t1) := s.pcs[t];
            && (size == t0 - h0 <==> (t1 - t0) % s.Cap() == 0)
            && (size == 0 <==> (t1 - h0) % s.Cap() == 0)
            && (t1 == t0 ==> (size == 0 <==> h0 == t0))
            && (|s.pushed| == t0 && size == 0 ==> s.Items() == [])
  {
    var SizeReturn(size, h0, t0, t1) := s.pcs[t];
    RemDifference(t0 - h0, t1 - h0, s.Cap());
    RemIsMod(t1 - t0, s.Cap());
    RemIsMod(t1 - h0, s.Cap());
  }
}
