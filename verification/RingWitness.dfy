/** The two loads of fq_queue_size can straddle a whole turn of the ring: a run, for every
    capacity, in which a queue that was never empty is reported empty. */
module RingWitness {
  import opened Common
  import opened Bits
  import opened Ring

  /** From `s` to `s'` by `acts`. */
  ghost predicate Leads(s: State, acts: seq<Action>, s': State) {
    Legal(s, acts) && Run(s, acts) == s'
  }

  lemma {:induction false} Then(s: State, acts: seq<Action>, s1: State, a: Action)
    requires Leads(s, acts, s1) && Enabled(s1, a) && |s1.got| == |s1.pcs|
    ensures Leads(s, acts + [a], Apply(s1, a))
    decreases |acts|
  {
    if acts == [] {
      assert [a][1..] == [];
    } else {
      Then(Apply(s, acts[0]), acts[1..], s1, a);
      assert (acts + [a])[1..] == acts[1..] + [a];
    }
  }

  /** Thread 0 pushes, thread 1 pops, thread 2 asks for the size; `n` tasks have been
      pushed and `m` taken, and only the locks these threads need are held. */
  ghost predicate Scene(s: State, lg: nat, n: nat, m: nat, pushing: Pc, popping: Pc, asking: Pc) {
    && Inv(s) && s.lg == lg && s.pcs == [pushing, popping, asking]
    && |s.pushed| == n && s.popped == m
    && (s.pushLock.Some? <==> HoldsPushLock(pushing)) && (s.popLock.Some? <==> HoldsPopLock(popping))
  }

  lemma SceneMoves(s: State, a: Action)
    requires Inv(s) && Enabled(s, a)
    ensures Inv(Apply(s, a))
  {
    Refines(s, a);
  }

  // ---- a push ----

  /** Where a push with room goes next. */
  predicate PushFollows(pc: Pc, next: Pc, t: Task) {
    match pc
    case Idle => next == PushLock(t)
    case PushLock(_) => next.PushTail? && next.task == t
    case PushTail(_) => next.PushHead? && next.task == t
    case PushHead(_, _, _) => next.PushWrite? && next.task == t
    case PushWrite(_, _, _) => next.PushStore? && next.task == t
    case PushStore(_, _) => next.PushUnlock?
    case PushUnlock(_) => next.PushReturn?
    case PushReturn(_) => next == Idle
    case _ => false
  }

  lemma PushGoes(s: State, lg: nat, n: nat, m: nat, pc: Pc, asking: Pc, t: Task) returns (a: Action, next: Pc)
    requires Scene(s, lg, n, m, pc, Idle, asking) && n < m + Pow2(lg) - 1
    requires pc == Idle || InPush(pc)
    requires pc.PushLock? || pc.PushTail? || pc.PushHead? || pc.PushWrite? || pc.PushStore? ==> pc.task == t
    ensures Enabled(s, a) && PushFollows(pc, next, t)
    ensures Scene(Apply(s, a), lg, if pc.PushStore? then n + 1 else n, m, next, Idle, asking)
  {
    a := if pc == Idle then Start(0, PushLock(t)) else Step(0);
    assert s.pcs[0] == pc;
    assert Snapshot(s, pc);
    SceneMoves(s, a);
    next := Apply(s, a).pcs[0];
    if pc.PushHead? {
      assert pc.next != s.head;
    }
    assert Apply(s, a).pcs == [next, Idle, asking];
  }

  /** Is the store of the index behind this thread? */
  predicate Stored(pc: Pc) {
    pc.PushUnlock? || pc.PushReturn? || pc.PopUnlock? || pc.PopReturn?
  }

  /** One more action of a run, with the scene it leads to. */
  lemma PushOn(s0: State, acts: seq<Action>, s: State, lg: nat, n: nat, m: nat, pc: Pc, asking: Pc, t: Task)
      returns (acts': seq<Action>, s': State, next: Pc)
    requires Leads(s0, acts, s) && Scene(s, lg, n, m, pc, Idle, asking) && n < m + Pow2(lg) - 1
    requires pc == Idle || InPush(pc)
    requires pc.PushLock? || pc.PushTail? || pc.PushHead? || pc.PushWrite? || pc.PushStore? ==> pc.task == t
    ensures Leads(s0, acts', s') && PushFollows(pc, next, t)
    ensures Scene(s', lg, if pc.PushStore? then n + 1 else n, m, next, Idle, asking)
  {
    var a;
    a, next := PushGoes(s, lg, n, m, pc, asking, t);
    Then(s0, acts, s, a);
    acts', s' := acts + [a], Apply(s, a);
  }

  lemma PushWhole(s0: State, acts: seq<Action>, s: State, lg: nat, n: nat, m: nat, asking: Pc, t: Task)
      returns (acts': seq<Action>, s': State)
    requires Leads(s0, acts, s) && Scene(s, lg, n, m, Idle, Idle, asking) && n < m + Pow2(lg) - 1
    ensures Leads(s0, acts', s') && Scene(s', lg, n + 1, m, Idle, Idle, asking)
  {
    var pc;
    acts', s', pc := PushHalf(s0, acts, s, lg, n, m, asking, t);
    acts', s', pc := PushOn(s0, acts', s', lg, n, m, pc, asking, t);
    acts', s', pc := ReturnsOn(s0, acts', s', lg, n + 1, m, pc, asking);
    acts', s', pc := ReturnsOn(s0, acts', s', lg, n + 1, m, pc, asking);
  }

  lemma ReturnsOn(s0: State, acts: seq<Action>, s: State, lg: nat, n: nat, m: nat, pc: Pc, asking: Pc)
      returns (acts': seq<Action>, s': State, next: Pc)
    requires Leads(s0, acts, s) && Scene(s, lg, n, m, pc, Idle, asking) && (pc.PushUnlock? || pc.PushReturn?)
    ensures Leads(s0, acts', s') && Scene(s', lg, n, m, next, Idle, asking)
    ensures if pc.PushUnlock? then next.PushReturn? else next == Idle
  {
    var a;
    a, next := Returns(s, lg, n, m, pc, asking);
    Then(s0, acts, s, a);
    acts', s' := acts + [a], Apply(s, a);
  }

  /** As far as the store of the index. */
  lemma PushHalf(s0: State, acts: seq<Action>, s: State, lg: nat, n: nat, m: nat, asking: Pc, t: Task)
      returns (acts': seq<Action>, s': State, pc: Pc)
    requires Leads(s0, acts, s) && Scene(s, lg, n, m, Idle, Idle, asking) && n < m + Pow2(lg) - 1
    ensures Leads(s0, acts', s') && Scene(s', lg, n, m, pc, Idle, asking) && pc.PushStore? && pc.task == t
  {
    acts', s', pc := PushOn(s0, acts, s, lg, n, m, Idle, asking, t);
    acts', s', pc := PushOn(s0, acts', s', lg, n, m, pc, asking, t);
    acts', s', pc := PushOn(s0, acts', s', lg, n, m, pc, asking, t);
    acts', s', pc := PushOn(s0, acts', s', lg, n, m, pc, asking, t);
    acts', s', pc := PushOn(s0, acts', s', lg, n, m, pc, asking, t);
  }

  /** The unlock and the return of a push. */
  lemma Returns(s: State, lg: nat, n: nat, m: nat, pc: Pc, asking: Pc) returns (a: Action, next: Pc)
    requires Scene(s, lg, n, m, pc, Idle, asking) && (pc.PushUnlock? || pc.PushReturn?)
    ensures Enabled(s, a) && if pc.PushUnlock? then next.PushReturn? else next == Idle
    ensures Scene(Apply(s, a), lg, n, m, next, Idle, asking)
  {
    a := Step(0);
    assert s.pcs[0] == pc;
    SceneMoves(s, a);
    next := Apply(s, a).pcs[0];
    assert Apply(s, a).pcs == [next, Idle, asking];
  }

  // ---- a pop ----

  predicate PopFollows(pc: Pc, next: Pc) {
    match pc
    case Idle => next == PopLock(Pop)
    case PopLock(_) => next.PopHead? && next.op == Pop
    case PopHead(_) => next.PopTail? && next.op == Pop
    case PopTail(_, _) => next.PopRead? && next.op == Pop
    case PopRead(_, _) => next.PopStore? && next.op == Pop
    case PopStore(_, _, _) => next.PopUnlock? && next.op == Pop
    case PopUnlock(_, _, _) => next.PopReturn? && next.op == Pop
    case PopReturn(_, _, _) => next == Idle
    case _ => false
  }

  lemma NotEmpty(s: State)
    requires Shared(s) && s.popped < |s.pushed|
    ensures s.head != s.tail
  {
  }

  /** What one action of thread 1's pop does, its queue not empty. */
  lemma PopStep(s: State, pc: Pc)
    requires |s.pcs| == |s.got| == 3 && s.pcs[1] == pc && InPop(pc) && pc.op == Pop
    requires s.popLock.Some? <==> HoldsPopLock(pc)
    requires pc.PopTail? ==> pc.head != s.tail
    ensures var s' := StepPop(s, 1);
            && Enabled(s, Step(1)) && PopFollows(pc, s'.pcs[1]) && s'.pcs == s.pcs[1 := s'.pcs[1]]
            && s'.lg == s.lg && s'.pushLock == s.pushLock && s'.pushed == s.pushed
            && s'.popped == s.popped + (if pc.PopStore? then 1 else 0)
            && (s'.popLock.Some? <==> HoldsPopLock(s'.pcs[1]))
  {
  }

  /** One action of a pop that finds a task (before its store) or has it (after). */
  lemma PopGoes(s: State, lg: nat, n: nat, m: nat, pc: Pc, asking: Pc) returns (a: Action, next: Pc)
    requires Scene(s, lg, n, m, Idle, pc, asking) && (Stored(pc) || m < n)
    requires pc == Idle || (InPop(pc) && pc.op == Pop)
    ensures Enabled(s, a) && PopFollows(pc, next)
    ensures Scene(Apply(s, a), lg, n, if pc.PopStore? then m + 1 else m, Idle, next, asking)
  {
    assert s.pcs[1] == pc;
    if pc == Idle {
      a, next := Start(1, PopLock(Pop)), PopLock(Pop);
      SceneMoves(s, a);
      assert Apply(s, a).pcs == [Idle, next, asking];
    } else {
      a := Step(1);
      next := PopSteps(s, lg, n, m, pc, asking);
    }
  }

  lemma PopSteps(s: State, lg: nat, n: nat, m: nat, pc: Pc, asking: Pc) returns (next: Pc)
    requires Scene(s, lg, n, m, Idle, pc, asking) && (Stored(pc) || m < n) && InPop(pc) && pc.op == Pop
    ensures Enabled(s, Step(1)) && PopFollows(pc, next)
    ensures Scene(Apply(s, Step(1)), lg, n, if pc.PopStore? then m + 1 else m, Idle, next, asking)
  {
    assert s.pcs[1] == pc && Snapshot(s, pc);
    if pc.PopTail? { NotEmpty(s); }
    PopStep(s, pc);
    SceneMoves(s, Step(1));
    next := StepPop(s, 1).pcs[1];
    assert Apply(s, Step(1)).pcs == [Idle, next, asking];
  }

  /** One more action of a run, with the scene it leads to. */
  lemma PopOn(s0: State, acts: seq<Action>, s: State, lg: nat, n: nat, m: nat, pc: Pc, asking: Pc)
      returns (acts': seq<Action>, s': State, next: Pc)
    requires Leads(s0, acts, s)
    requires Scene(s, lg, n, m, Idle, pc, asking) && (Stored(pc) || m < n)
    requires pc == Idle || (InPop(pc) && pc.op == Pop)
    ensures Leads(s0, acts', s') && Scene(s', lg, n, if pc.PopStore? then m + 1 else m, Idle, next, asking)
    ensures PopFollows(pc, next)
  {
    var a;
    a, next := PopGoes(s, lg, n, m, pc, asking);
    Then(s0, acts, s, a);
    acts', s' := acts + [a], Apply(s, a);
  }

  lemma PopWhole(s0: State, acts: seq<Action>, s: State, lg: nat, n: nat, m: nat, asking: Pc)
      returns (acts': seq<Action>, s': State)
    requires Leads(s0, acts, s) && Scene(s, lg, n, m, Idle, Idle, asking) && m < n
    ensures Leads(s0, acts', s') && Scene(s', lg, n, m + 1, Idle, Idle, asking)
  {
    var pc;
    acts', s', pc := PopHalf(s0, acts, s, lg, n, m, asking);
    acts', s', pc := PopOn(s0, acts', s', lg, n, m, pc, asking);
    acts', s', pc := PopOn(s0, acts', s', lg, n, m + 1, pc, asking);
    acts', s', pc := PopOn(s0, acts', s', lg, n, m + 1, pc, asking);
  }

  /** As far as the store of the index. */
  lemma PopHalf(s0: State, acts: seq<Action>, s: State, lg: nat, n: nat, m: nat, asking: Pc)
      returns (acts': seq<Action>, s': State, pc: Pc)
    requires Leads(s0, acts, s) && Scene(s, lg, n, m, Idle, Idle, asking) && m < n
    ensures Leads(s0, acts', s') && Scene(s', lg, n, m, Idle, pc, asking) && pc.PopStore? && pc.op == Pop
  {
    acts', s', pc := PopOn(s0, acts, s, lg, n, m, Idle, asking);
    acts', s', pc := PopOn(s0, acts', s', lg, n, m, pc, asking);
    acts', s', pc := PopOn(s0, acts', s', lg, n, m, pc, asking);
    acts', s', pc := PopOn(s0, acts', s', lg, n, m, pc, asking);
    acts', s', pc := PopOn(s0, acts', s', lg, n, m, pc, asking);
  }

  // ---- a turn between the two loads ----

  /** Thread 2 has loaded `head` when one task was queued. */
  lemma AskedEarly(lg: nat, t: Task) returns (acts: seq<Action>, s: State)
    requires 1 <= lg <= 31
    ensures Leads(Initial(lg, 3), acts, s) && Scene(s, lg, 1, 0, Idle, Idle, SizeTail(0, 0, 1))
  {
    var s0 := Initial(lg, 3);
    InitialInv(lg, 3);
    Pow2Mono(1, lg);
    assert s0.pcs == [Idle, Idle, Idle];
    acts, s := PushWhole(s0, [], s0, lg, 0, 0, Idle, t);
    AskHead(s, lg);
    Then(s0, acts, s, Start(2, SizeHead));
    acts, s := acts + [Start(2, SizeHead)], Apply(s, Start(2, SizeHead));
    Then(s0, acts, s, Step(2));
    acts, s := acts + [Step(2)], Apply(s, Step(2));
  }

  lemma AskHead(s: State, lg: nat)
    requires Scene(s, lg, 1, 0, Idle, Idle, Idle)
    ensures Enabled(s, Start(2, SizeHead))
    ensures var s1 := Apply(s, Start(2, SizeHead));
            Enabled(s1, Step(2)) && Scene(Apply(s1, Step(2)), lg, 1, 0, Idle, Idle, SizeTail(0, 0, 1))
  {
    var s1 := Apply(s, Start(2, SizeHead));
    SceneMoves(s, Start(2, SizeHead));
    assert s1.pcs == [Idle, Idle, SizeHead];
    SceneMoves(s1, Step(2));
    assert Apply(s1, Step(2)).pcs == [Idle, Idle, SizeTail(0, 0, 1)];
  }

  /** The tail load after a whole turn. */
  lemma AnswersZero(s: State, lg: nat)
    requires Scene(s, lg, Pow2(lg), Pow2(lg) - 1, Idle, Idle, SizeTail(0, 0, 1))
    ensures Enabled(s, Step(2))
    ensures var s' := Apply(s, Step(2));
            |s'.pcs| == 3 && s'.pcs[2].SizeReturn? && s'.pcs[2].size == 0 && |s'.Items()| == 1
  {
    assert Snapshot(s, s.pcs[2]);
    SizeLoads(s, 0, 0);
  }

  /** For every capacity there is a run in which fq_queue_size answers 0 although a task
      is queued: a whole turn of the ring was pushed and popped between its two loads. */
  lemma EmptyAnswerOnNonEmpty(lg: nat, t: Task) returns (acts: seq<Action>)
    requires 2 <= lg <= 31
    ensures Legal(Initial(lg, 3), acts)
    ensures var s := Run(Initial(lg, 3), acts);
            && |s.pcs| == 3 && s.pcs[2].SizeReturn? && s.pcs[2].size == 0 && |s.Items()| == 1
  {
    var s0, s, n := Initial(lg, 3), Initial(lg, 3), 1;
    var asking := SizeTail(0, 0, 1);
    acts, s := AskedEarly(lg, t);
    Pow2Mono(2, lg);
    while n < Pow2(lg)
      invariant 1 <= n <= Pow2(lg)
      invariant Leads(s0, acts, s) && Scene(s, lg, n, n - 1, Idle, Idle, asking)
    {
      acts, s := PushWhole(s0, acts, s, lg, n, n - 1, asking, t);
      acts, s := PopWhole(s0, acts, s, lg, n + 1, n - 1, asking);
      n := n + 1;
    }
    AnswersZero(s, lg);
    Then(s0, acts, s, Step(2));
    acts := acts + [Step(2)];
  }
}
