/** The queues of the scheduler machine are the queue of src/queue/queue.c: the ticketed
    FIFO that SchedulerModel steps on is the one Ring's words stand for, and each of its
    steps is made by one action of the ring. */
module QueueLink {
  import opened Common
  import opened Ring
  import M = SchedulerModel

  /** The scheduler's view of a ring. */
  function Seen(s: State): M.Fifo {
    M.Fifo(s.pushed, s.popped, if s.Cap() > 0 then s.Cap() - 1 else 0)
  }

  /** What the action of a thread at `pc` does to the scheduler's queue, and when: the
      push and the pop at their index stores, the answers OVERFLOW and BUSY (but for a
      try_pop whose lock is taken) exactly on a full and on an empty queue, and the
      answer of size as SizeSince has it. */
  ghost predicate OneStep(f: M.Fifo, pc: Pc, f': M.Fifo, pc': Pc) {
    && (if pc.PushStore? then f' == f.Push(pc.task) && !f.Full()
        else if pc.PopStore? then
          f' == f.Pop() && f.popped < |f.pushed| && pc.taken == Some(f.pushed[f.popped])
        else f' == f)
    && (pc.PushHead? ==> if f.Full() then pc' == PushUnlock(Overflow) else pc'.PushWrite?)
    && (pc.PopTail? ==> if f.Empty() then pc' == PopUnlock(pc.op, Busy, None) else pc'.PopRead?)
    && (pc.SizeTail? ==> pc'.SizeReturn? && pc'.size == f.SizeSince(pc.h0))
  }

  lemma SeenItems(s: State)
    requires Inv(s)
    ensures Seen(s).Valid() && Seen(s).Items() == s.Items() == Abs(s).items && Seen(s).room == Abs(s).room
  {
  }

  /** The full test compares slots, the empty test too. */
  lemma Tests(s: State, t: nat)
    requires Inv(s) && t < |s.pcs|
    ensures s.pcs[t].PushHead? ==> (s.pcs[t].next == s.head <==> Seen(s).Full())
    ensures s.pcs[t].PopTail? ==> (s.pcs[t].head == s.tail <==> Seen(s).Empty())
  {
    assert Snapshot(s, s.pcs[t]);
  }

  lemma PushSteps(s: State, t: nat)
    requires Inv(s) && Enabled(s, Step(t)) && InPush(s.pcs[t])
    ensures OneStep(Seen(s), s.pcs[t], Seen(StepPush(s, t)), StepPush(s, t).pcs[t])
  {
    Tests(s, t);
    assert Snapshot(s, s.pcs[t]);
  }

  lemma PopSteps(s: State, t: nat)
    requires Inv(s) && Enabled(s, Step(t)) && InPop(s.pcs[t])
    ensures OneStep(Seen(s), s.pcs[t], Seen(StepPop(s, t)), StepPop(s, t).pcs[t])
  {
    Tests(s, t);
    assert Snapshot(s, s.pcs[t]);
  }

  lemma SizeSteps(s: State, t: nat)
    requires Inv(s) && Enabled(s, Step(t)) && InSize(s.pcs[t])
    ensures OneStep(Seen(s), s.pcs[t], Seen(StepSize(s, t)), StepSize(s, t).pcs[t])
  {
    assert Snapshot(s, s.pcs[t]);
    if s.pcs[t].SizeTail? {
      SizeLoads(s, s.pcs[t].head, s.pcs[t].h0);
    }
  }

  /** One action of the ring as the scheduler's queue sees it. */
  ghost predicate Linked(s: State, a: Action, s': State) {
    && Seen(s).Valid() && Seen(s).Items() == Abs(s).items && Seen(s).room == Abs(s).room
    && a.t < |s.pcs| == |s'.pcs|
    && if a.Start? then Seen(s') == Seen(s) else OneStep(Seen(s), s.pcs[a.t], Seen(s'), s'.pcs[a.t])
  }

  lemma ActionLinks(s: State, a: Action)
    requires Inv(s) && Enabled(s, a)
    ensures Linked(s, a, Apply(s, a))
  {
    SeenItems(s);
    if a.Step? {
      if InPush(s.pcs[a.t]) {
        PushSteps(s, a.t);
      } else if InSize(s.pcs[a.t]) {
        SizeSteps(s, a.t);
      } else {
        PopSteps(s, a.t);
      }
    }
  }

  /** In every run, each action of the ring is one step of the scheduler's queue or none. */
  lemma {:induction false} RingIsSchedulerQueue(s: State, acts: seq<Action>)
    requires Inv(s) && Legal(s, acts)
    ensures forall i :: 0 <= i < |acts| ==> Linked(Trace(s, acts)[i], acts[i], Trace(s, acts)[i + 1])
    decreases |acts|
  {
    if acts != [] {
      ActionLinks(s, acts[0]);
      Refines(s, acts[0]);
      RingIsSchedulerQueue(Apply(s, acts[0]), acts[1..]);
    }
  }
}
