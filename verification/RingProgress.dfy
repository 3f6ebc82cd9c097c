/** Queue operations come to their answers: what each does when it runs alone, how many
    steps it takes among others, and why a try_pop gives up. */
module RingProgress {
  import opened Common
  import opened Ring

  // ---- an operation that runs alone ----

  /** The run `acts` of thread `t` alone leads from `s` to `s'`. */
  ghost predicate Alone(s: State, acts: seq<Action>, s': State, t: nat) {
    && Legal(s, acts) && Run(s, acts) == s' && Inv(s') && s'.lg == s.lg && t < |s.pcs| == |s'.pcs|
    && (forall i :: 0 <= i < |acts| ==> acts[i].t == t)
    && s'.pcs == s.pcs[t := s'.pcs[t]]
  }

  lemma {:induction false} Then(s: State, acts: seq<Action>, a: Action)
    requires Legal(s, acts) && Inv(Run(s, acts)) && Enabled(Run(s, acts), a)
    ensures Legal(s, acts + [a]) && Run(s, acts + [a]) == Apply(Run(s, acts), a)
    decreases |acts|
  {
    if acts == [] {
      assert [a][1..] == [];
    } else {
      Then(Apply(s, acts[0]), acts[1..], a);
      assert (acts + [a])[1..] == acts[1..] + [a];
    }
  }

  /** Only the thread that acts moves. */
  lemma OnlyMover(s: State, a: Action)
    requires Inv(s) && Enabled(s, a)
    ensures Apply(s, a).pcs == s.pcs[a.t := Apply(s, a).pcs[a.t]] && Apply(s, a).lg == s.lg
  {
    if a.Step? {
      if InPush(s.pcs[a.t]) {
        PushMover(s, a.t);
      } else if InPop(s.pcs[a.t]) {
        PopMover(s, a.t);
      }
    }
  }

  lemma PushMover(s: State, t: nat)
    requires t < |s.pcs| && InPush(s.pcs[t])
    ensures StepPush(s, t).pcs == s.pcs[t := StepPush(s, t).pcs[t]] && StepPush(s, t).lg == s.lg
  {
  }

  lemma PopMover(s: State, t: nat)
    requires t < |s.pcs| == |s.got| && InPop(s.pcs[t])
    ensures StepPop(s, t).pcs == s.pcs[t := StepPop(s, t).pcs[t]] && StepPop(s, t).lg == s.lg
  {
  }

  lemma Begins(s: State, t: nat, first: Pc) returns (acts: seq<Action>, s': State)
    requires Inv(s) && t < |s.pcs| && s.pcs[t] == Idle && Entry(first)
    ensures Alone(s, acts, s', t) && s' == At(s, t, first)
  {
    acts, s' := [] + [Start(t, first)], At(s, t, first);
    Then(s, [], Start(t, first));
    Refines(s, Start(t, first));
  }

  lemma GoesOn(s: State, acts: seq<Action>, s1: State, t: nat) returns (acts': seq<Action>, s': State)
    requires Alone(s, acts, s1, t) && Enabled(s1, Step(t))
    ensures Alone(s, acts', s', t) && s' == Apply(s1, Step(t))
  {
    acts', s' := acts + [Step(t)], Apply(s1, Step(t));
    Then(s, acts, Step(t));
    Refines(s1, Step(t));
    OnlyMover(s1, Step(t));
  }

  /** Where a push stands after its look at the head. */
  lemma LooksForRoom(s: State, t: nat, task: Task) returns (acts: seq<Action>, s': State)
    requires Inv(s) && t < |s.pcs| && s.pcs[t] == Idle && s.pushLock == None
    ensures Alone(s, acts, s', t) && s'.pushed == s.pushed && s'.popped == s.popped && s'.got == s.got
    ensures if |s.Items()| == s.Cap() - 1 then s'.pcs[t] == PushUnlock(Overflow)
            else s'.pcs[t].PushWrite? && s'.pcs[t].task == task
  {
    acts, s' := Begins(s, t, PushLock(task));
    acts, s' := GoesOn(s, acts, s', t);
    acts, s' := GoesOn(s, acts, s', t);
    assert Snapshot(s', s'.pcs[t]);
    HeadTellsFull(s', t);
    acts, s' := GoesOn(s, acts, s', t);
  }

  lemma HeadTellsFull(s: State, t: nat)
    requires Inv(s) && t < |s.pcs| && s.pcs[t].PushHead?
    ensures s.pcs[t].next == s.head <==> |s.Items()| == s.Cap() - 1
  {
    assert Snapshot(s, s.pcs[t]);
  }

  lemma StoresTask(s: State, acts: seq<Action>, s1: State, t: nat) returns (acts': seq<Action>, s': State)
    requires Alone(s, acts, s1, t) && s1.pcs[t].PushWrite?
    ensures Alone(s, acts', s', t) && s'.pcs[t] == PushUnlock(OK)
    ensures s'.pushed == s1.pushed + [s1.pcs[t].task] && s'.popped == s1.popped && s'.got == s1.got
  {
    acts', s' := GoesOn(s, acts, s1, t);
    acts', s' := GoesOn(s, acts', s', t);
  }

  /** fq_queue_push: appended to the queue, or OVERFLOW exactly when it is full. */
  lemma PushAlone(s: State, t: nat, task: Task) returns (acts: seq<Action>, s': State)
    requires Inv(s) && t < |s.pcs| && s.pcs[t] == Idle && s.pushLock == None
    ensures Alone(s, acts, s', t) && s'.pushLock == None && s'.popped == s.popped
    ensures if |s.Items()| == s.Cap() - 1 then s'.pcs[t] == PushReturn(Overflow) && s'.pushed == s.pushed
            else s'.pcs[t] == PushReturn(OK) && s'.pushed == s.pushed + [task]
  {
    acts, s' := LooksForRoom(s, t, task);
    if |s.Items()| != s.Cap() - 1 {
      acts, s' := StoresTask(s, acts, s', t);
    }
    acts, s' := UnlocksPush(s, acts, s', t);
  }

  lemma UnlocksPush(s: State, acts: seq<Action>, s1: State, t: nat) returns (acts': seq<Action>, s': State)
    requires Alone(s, acts, s1, t) && s1.pcs[t].PushUnlock?
    ensures Alone(s, acts', s', t) && s'.pushLock == None && s'.pushed == s1.pushed && s'.popped == s1.popped
    ensures s'.pcs[t] == PushReturn(s1.pcs[t].st)
  {
    acts', s' := GoesOn(s, acts, s1, t);
  }

  /** A pop after its look at the tail. */
  lemma LooksForTask(s: State, acts: seq<Action>, s1: State, t: nat) returns (acts': seq<Action>, s': State)
    requires Alone(s, acts, s1, t) && s1.pcs[t].PopLock? && s1.popLock == None
    ensures Alone(s, acts', s', t) && s'.pushed == s1.pushed && s'.popped == s1.popped
    ensures if s1.Items() == [] then s'.pcs[t] == PopUnlock(s1.pcs[t].op, Busy, None)
            else s'.pcs[t].PopRead? && s'.pcs[t].op == s1.pcs[t].op
  {
    acts', s' := LoadsHead(s, acts, s1, t);
    TailTellsEmpty(s', t);
    acts', s' := GoesOn(s, acts', s', t);
  }

  lemma LoadsHead(s: State, acts: seq<Action>, s1: State, t: nat) returns (acts': seq<Action>, s': State)
    requires Alone(s, acts, s1, t) && s1.pcs[t].PopLock? && s1.popLock == None
    ensures Alone(s, acts', s', t) && s'.pcs[t].PopTail? && s'.pcs[t].op == s1.pcs[t].op
    ensures s'.pushed == s1.pushed && s'.popped == s1.popped && s'.tail == s1.tail
  {
    acts', s' := GoesOn(s, acts, s1, t);
    acts', s' := GoesOn(s, acts', s', t);
  }

  lemma TailTellsEmpty(s: State, t: nat)
    requires Inv(s) && t < |s.pcs| && s.pcs[t].PopTail?
    ensures s.pcs[t].head == s.tail <==> s.Items() == []
  {
    assert Snapshot(s, s.pcs[t]);
  }

  lemma TakesTask(s: State, acts: seq<Action>, s1: State, t: nat) returns (acts': seq<Action>, s': State)
    requires Alone(s, acts, s1, t) && s1.pcs[t].PopRead? && s1.popped < |s1.pushed|
    ensures Alone(s, acts', s', t) && s'.pcs[t] == PopUnlock(s1.pcs[t].op, OK, Some(s1.pushed[s1.popped]))
    ensures s'.pushed == s1.pushed && s'.popped == s1.popped + 1
  {
    acts', s' := GoesOn(s, acts, s1, t);
    assert Snapshot(s', s'.pcs[t]);
    acts', s' := GoesOn(s, acts', s', t);
  }

  /** fq_queue_pop and fq_queue_try_pop from the lock on: exactly the oldest task is taken,
      or the answer is BUSY exactly when there is none. */
  lemma PopAlone(s: State, acts: seq<Action>, s1: State, t: nat) returns (acts': seq<Action>, s': State)
    requires Alone(s, acts, s1, t) && s1.pcs[t].PopLock? && s1.popLock == None
    ensures Alone(s, acts', s', t) && s'.popLock == None && s'.pushed == s1.pushed
    ensures if s1.Items() == [] then s'.pcs[t] == PopReturn(s1.pcs[t].op, Busy, None) && s'.popped == s1.popped
            else s'.pcs[t] == PopReturn(s1.pcs[t].op, OK, Some(s1.Items()[0])) && s'.popped == s1.popped + 1
  {
    acts', s' := LooksForTask(s, acts, s1, t);
    if s1.Items() != [] {
      acts', s' := TakesTask(s, acts', s', t);
    }
    acts', s' := Unlocks(s, acts', s', t);
  }

  lemma Unlocks(s: State, acts: seq<Action>, s1: State, t: nat) returns (acts': seq<Action>, s': State)
    requires Alone(s, acts, s1, t) && s1.pcs[t].PopUnlock?
    ensures Alone(s, acts', s', t) && s'.popLock == None && s'.pushed == s1.pushed && s'.popped == s1.popped
    ensures s'.pcs[t] == PopReturn(s1.pcs[t].op, s1.pcs[t].st, s1.pcs[t].taken)
  {
    acts', s' := GoesOn(s, acts, s1, t);
  }

  function Least(m: nat, n: nat): nat {
    if m < n then m else n
  }

  /** A drain that stood before its next pop in `s` is over in `s'`, with exactly the first
      tasks queued, in order, as many as there are or as it still had room for. */
  ghost predicate DrainOver(s: State, s': State, t: nat) {
    && t < |s.pcs| == |s'.pcs| && s.pcs[t].PopLock? && s.pcs[t].op.Drain? && |s.pcs[t].op.out| < s.pcs[t].op.max
    && s'.pcs[t].PopReturn? && AfterPop(s'.pcs[t].op, s'.pcs[t].st, s'.pcs[t].taken) == Idle
    && var n := Least(|s.Items()|, s.pcs[t].op.max - |s.pcs[t].op.out|);
    && s'.pushed == s.pushed && s'.popped == s.popped + n
    && Collected(s'.pcs[t]) == s.pcs[t].op.out + s.Items()[..n]
  }

  lemma LastPop(s: State, s': State, t: nat)
    requires t < |s.pcs| == |s'.pcs| && s.pcs[t].PopLock? && s.pcs[t].op.Drain?
    requires |s.pcs[t].op.out| < s.pcs[t].op.max && s'.pushed == s.pushed
    requires s.Items() == [] || |s.pcs[t].op.out| + 1 == s.pcs[t].op.max
    requires if s.Items() == [] then s'.pcs[t] == PopReturn(s.pcs[t].op, Busy, None) && s'.popped == s.popped
             else s'.pcs[t] == PopReturn(s.pcs[t].op, OK, Some(s.Items()[0])) && s'.popped == s.popped + 1
    ensures DrainOver(s, s', t)
  {
    if s.Items() != [] {
      assert s.Items()[..1] == [s.Items()[0]];
    }
  }

  lemma FirstPop(s: State, s1: State, s': State, t: nat)
    requires t < |s.pcs| == |s1.pcs| && s.pcs[t].PopLock? && s.pcs[t].op.Drain? && s.Items() != []
    requires s1.pcs[t] == PopLock(Drain(s.pcs[t].op.max, s.pcs[t].op.out + [s.Items()[0]]))
    requires s1.Items() == s.Items()[1..] && s1.pushed == s.pushed && s1.popped == s.popped + 1
    requires DrainOver(s1, s', t)
    ensures DrainOver(s, s', t)
  {
    FirstAndRest(s.pcs[t].op.out, s.Items(), s.pcs[t].op.max - |s.pcs[t].op.out|);
  }

  lemma FirstAndRest<T>(out: seq<T>, items: seq<T>, n: nat)
    requires items != [] && n > 0
    ensures var m, k := Least(|items|, n), Least(|items[1..]|, n - 1);
            m == k + 1 && out + [items[0]] + items[1..][..k] == out + items[..m]
  {
  }

  /** fq_queue_drain: exactly the first min(max, size) tasks, in order. */
  lemma {:induction false} DrainAlone(s: State, acts: seq<Action>, s1: State, t: nat)
      returns (acts': seq<Action>, s': State)
    requires Alone(s, acts, s1, t) && s1.pcs[t].PopLock? && s1.popLock == None
    requires s1.pcs[t].op.Drain? && |s1.pcs[t].op.out| < s1.pcs[t].op.max
    ensures Alone(s, acts', s', t) && s'.popLock == None && DrainOver(s1, s', t)
    decreases ToTake(s1.pcs[t])
  {
    acts', s' := PopAlone(s, acts, s1, t);
    if s1.Items() == [] || |s1.pcs[t].op.out| + 1 == s1.pcs[t].op.max {
      LastPop(s1, s', t);
    } else {
      acts', s' := GoesRound(s, acts', s', t, s1.Items()[0]);
      assert s'.Items() == s1.Items()[1..];
      var s2 := s';
      acts', s' := DrainAlone(s, acts', s', t);
      FirstPop(s1, s2, s', t);
    }
  }

  /** The next round of a drain. */
  lemma GoesRound(s: State, acts: seq<Action>, s1: State, t: nat, task: Task) returns (acts': seq<Action>, s': State)
    requires Alone(s, acts, s1, t) && s1.pcs[t].PopReturn? && s1.popLock == None
    requires s1.pcs[t].op.Drain? && s1.pcs[t].st == OK && s1.pcs[t].taken == Some(task)
    requires |s1.pcs[t].op.out| + 1 < s1.pcs[t].op.max
    ensures Alone(s, acts', s', t) && s'.popLock == None && s'.pushed == s1.pushed && s'.popped == s1.popped
    ensures s'.pcs[t] == PopLock(Drain(s1.pcs[t].op.max, s1.pcs[t].op.out + [task]))
  {
    acts', s' := GoesOn(s, acts, s1, t);
  }

  /** fq_queue_size: the number of tasks queued. */
  lemma SizeAlone(s: State, t: nat) returns (acts: seq<Action>, s': State)
    requires Inv(s) && t < |s.pcs| && s.pcs[t] == Idle
    ensures Alone(s, acts, s', t) && s'.pcs[t].SizeReturn? && s'.pcs[t].size == |s.Items()|
    ensures s'.pushed == s.pushed && s'.popped == s.popped
  {
    acts, s' := Begins(s, t, SizeHead);
    acts, s' := GoesOn(s, acts, s', t);
    acts, s' := LoadsTail(s, acts, s', t);
  }

  lemma LoadsTail(s: State, acts: seq<Action>, s1: State, t: nat) returns (acts': seq<Action>, s': State)
    requires Alone(s, acts, s1, t) && s1.pcs[t].SizeTail? && s1.pcs[t].h0 == s1.popped
    ensures Alone(s, acts', s', t) && s'.pcs[t].SizeReturn? && s'.pcs[t].size == |s1.Items()|
    ensures s'.pushed == s1.pushed && s'.popped == s1.popped
  {
    acts', s' := GoesOn(s, acts, s1, t);
    SizeOfTickets(s', t);
  }

  lemma SizeOfTickets(s: State, t: nat)
    requires Inv(s) && t < |s.pcs| && s.pcs[t].SizeReturn?
    requires s.pcs[t].h0 == s.popped && s.pcs[t].t1 == |s.pushed|
    ensures s.pcs[t].size == |s.Items()|
  {
    assert Snapshot(s, s.pcs[t]);
  }

  // ---- how many steps an operation takes ----

  /** More than the steps from here to the return, or to the next round of a drain. */
  function Rank(pc: Pc): nat {
    match pc
    case Idle => 0
    case PushLock(_) => 7
    case PushTail(_) => 6
    case PushHead(_, _, _) => 5
    case PushWrite(_, _, _) => 4
    case PushStore(_, _) => 3
    case PushUnlock(_) => 2
    case PushReturn(_) => 1
    case PopLock(_) => 7
    case PopHead(_) => 6
    case PopTail(_, _) => 5
    case PopRead(_, _) => 4
    case PopStore(_, _, _) => 3
    case PopUnlock(_, _, _) => 2
    case PopReturn(_, _, _) => 1
    case SizeHead => 3
    case SizeTail(_, _, _) => 2
    case SizeReturn(_, _, _, _) => 1
  }

  /** The tasks a drain may still take. */
  function ToTake(pc: Pc): nat {
    if InPop(pc) && pc.op.Drain? && |pc.op.out| < pc.op.max then pc.op.max - |pc.op.out| else 0
  }

  function Distance(pc: Pc): nat {
    Rank(pc) + 8 * ToTake(pc)
  }

  lemma StepsDescend(s: State, t: nat)
    requires Enabled(s, Step(t)) && |s.got| == |s.pcs|
    ensures Distance(Apply(s, Step(t)).pcs[t]) < Distance(s.pcs[t])
  {
    if InPush(s.pcs[t]) {
      PushDescends(s, t);
    } else if InPop(s.pcs[t]) {
      PopDescends(s, t);
    }
  }

  lemma PushDescends(s: State, t: nat)
    requires t < |s.pcs| && InPush(s.pcs[t])
    ensures Distance(StepPush(s, t).pcs[t]) < Distance(s.pcs[t])
  {
  }

  lemma PopDescends(s: State, t: nat)
    requires t < |s.pcs| == |s.got| && InPop(s.pcs[t])
    ensures Distance(StepPop(s, t).pcs[t]) < Distance(s.pcs[t])
  {
    if s.pcs[t].PopReturn? {
      assert Distance(AfterPop(s.pcs[t].op, s.pcs[t].st, s.pcs[t].taken)) < Distance(s.pcs[t]);
    }
  }

  function StepsBy(acts: seq<Action>, t: nat): nat {
    if acts == [] then 0 else (if acts[0] == Step(t) then 1 else 0) + StepsBy(acts[1..], t)
  }

  /** The distances of the operations that thread `t` starts. */
  function StartsBy(acts: seq<Action>, t: nat): nat {
    if acts == [] then 0
    else (if acts[0].Start? && acts[0].t == t then Distance(acts[0].first) else 0) + StartsBy(acts[1..], t)
  }

  /** No operation goes round for ever: over every run, a thread's steps are at most seven
      for each operation it starts and eight more for each task a drain may take. */
  lemma {:induction false} StepsBounded(s: State, acts: seq<Action>, t: nat)
    requires Inv(s) && Legal(s, acts) && t < |s.pcs|
    ensures StepsBy(acts, t) <= Distance(s.pcs[t]) + StartsBy(acts, t)
    decreases |acts|
  {
    if acts != [] {
      Refines(s, acts[0]);
      OnlyMover(s, acts[0]);
      if acts[0] == Step(t) {
        StepsDescend(s, t);
      }
      StepsBounded(Apply(s, acts[0]), acts[1..], t);
    }
  }

  /** And no deadlock: while some thread is inside an operation, some thread can take its
      next step. */
  lemma NoDeadlock(s: State, t: nat)
    requires Inv(s) && t < |s.pcs| && s.pcs[t] != Idle
    ensures exists u :: Enabled(s, Step(u))
  {
    if s.pcs[t].PushLock? && s.pushLock.Some? {
      assert Enabled(s, Step(s.pushLock.value));
    } else if s.pcs[t].PopLock? && s.popLock.Some? {
      assert Enabled(s, Step(s.popLock.value));
    } else {
      assert Enabled(s, Step(t));
    }
  }

  // ---- why a try_pop gives up ----

  /** A try_pop that answers BUSY. */
  predicate GaveUp(pc: Pc) {
    (pc.PopUnlock? || pc.PopReturn?) && pc.op == TryPop && pc.st != OK
  }

  /** A try_pop finds the lock taken, or the queue empty. */
  ghost predicate Reason(s: State, t: nat) {
    && t < |s.pcs|
    && ((s.pcs[t] == PopLock(TryPop) && s.popLock.Some?)
        || (s.pcs[t].PopTail? && s.pcs[t].op == TryPop && s.Items() == []))
  }

  lemma GivesUp(s: State, a: Action, t: nat)
    requires Inv(s) && Enabled(s, a) && t < |s.pcs| && !GaveUp(s.pcs[t])
    ensures t < |Apply(s, a).pcs|
    ensures GaveUp(Apply(s, a).pcs[t]) ==> a == Step(t) && Reason(s, t)
  {
    OnlyMover(s, a);
    if a == Step(t) && InPop(s.pcs[t]) {
      if s.pcs[t].PopTail? { TailTellsEmpty(s, t); }
      PopGivesUp(s, t);
    }
  }

  lemma PopGivesUp(s: State, t: nat)
    requires t < |s.pcs| == |s.got| && InPop(s.pcs[t]) && !GaveUp(s.pcs[t])
    requires s.pcs[t].PopTail? && s.pcs[t].head == s.tail ==> s.Items() == []
    ensures GaveUp(StepPop(s, t).pcs[t]) ==> Reason(s, t)
  {
  }

  /** Over every run, a try_pop that answers BUSY has found the pop lock taken or the queue
      empty, at the m-th action. */
  lemma {:induction false} TryPopGivesUp(s: State, acts: seq<Action>, t: nat) returns (m: nat)
    requires Inv(s) && Legal(s, acts) && t < |s.pcs| && !GaveUp(s.pcs[t])
    requires t < |Run(s, acts).pcs| && GaveUp(Run(s, acts).pcs[t])
    ensures m < |acts| && acts[m] == Step(t) && Legal(s, acts[..m]) && Reason(Run(s, acts[..m]), t)
    decreases |acts|
  {
    var s1 := Apply(s, acts[0]);
    GivesUp(s, acts[0], t);
    if GaveUp(s1.pcs[t]) {
      m := 0;
    } else {
      Refines(s, acts[0]);
      var n := TryPopGivesUp(s1, acts[1..], t);
      m := n + 1;
      Prefix(s, acts, n);
    }
  }

  lemma Prefix(s: State, acts: seq<Action>, n: nat)
    requires Legal(s, acts) && n < |acts| && Legal(Apply(s, acts[0]), acts[1..][..n])
    ensures Legal(s, acts[..n + 1]) && Run(s, acts[..n + 1]) == Run(Apply(s, acts[0]), acts[1..][..n])
  {
    assert acts[..n + 1][1..] == acts[1..][..n];
  }
}
