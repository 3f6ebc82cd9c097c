/** What fq_scheduler_cancel_all of src/scheduler/scheduler.c takes when nobody comes in
    between: the whole global queue and the first 256 tasks of each worker's queue. */
module SchedulerCancel {
  import opened Common
  import opened SchedulerModel

  /** The first batch of a queue, and what it leaves. */
  function First(items: seq<Task>): seq<Task> {
    if |items| <= BATCH then items else items[..BATCH]
  }

  function Rest(items: seq<Task>): seq<Task> {
    if |items| <= BATCH then [] else items[BATCH..]
  }

  /** The first batches of the first `n` worker queues. */
  function Firsts(locals: seq<Fifo>, n: nat): seq<Task>
    requires n <= |locals|
  {
    if n == 0 then [] else Firsts(locals, n - 1) + First(locals[n - 1].Items())
  }

  /** The worker queues before `i` have lost their first batch, those from `j` on are as
      they were in `s`. */
  ghost predicate Cleared(s: State, s': State, i: int, j: int) {
    && |s'.locals| == |s.locals|
    && (forall w :: 0 <= w < |s.locals| && w < i ==> s'.locals[w].Items() == Rest(s.locals[w].Items()))
    && (forall w :: 0 <= w < |s.locals| && w >= j ==> s'.locals[w] == s.locals[w])
  }

  /** All that cancel_all takes of the global queue and the first `n` worker queues. */
  ghost function Taken(s: State, n: nat): seq<Task>
    requires n <= |s.locals|
  {
    s.log.dropped + s.global.Items() + Firsts(s.locals, n)
  }

  /** How far a cancel_all that began in state `s` has got at `c`. */
  ghost predicate Progress(s: State, s': State, c: Call) {
    match c
    case CancelFlag => s'.log.dropped == s.log.dropped && s'.global == s.global && Cleared(s, s', 0, 0)
    case CancelDrain(from, batch) =>
      if from == Global then OnGlobal(s, s', batch) else OnLocal(s, s', from.w, batch)
    case CancelDestroy(from, batch) =>
      if from == Global then OnGlobal(s, s', batch) else AfterLocal(s, s', from.w, batch)
    case CancelTally(from, batch) =>
      if from == Global then OnGlobal(s, s', batch) else AfterLocal(s, s', from.w, batch)
    case CancelDone =>
      s'.log.dropped == Taken(s, |s.locals|) && s'.global.Items() == [] && Cleared(s, s', |s.locals|, |s.locals|)
    case _ => false
  }

  ghost predicate OnGlobal(s: State, s': State, batch: seq<Task>) {
    s'.log.dropped + batch + s'.global.Items() == s.log.dropped + s.global.Items() && Cleared(s, s', 0, 0)
  }

  /** Draining worker queue `w`. */
  ghost predicate OnLocal(s: State, s': State, w: nat, batch: seq<Task>) {
    && w < |s.locals| == |s'.locals| && s'.global.Items() == []
    && s'.log.dropped == Taken(s, w) && Cleared(s, s', w, w + 1)
    && |batch| <= BATCH && batch + s'.locals[w].Items() == s.locals[w].Items()
  }

  /** Worker queue `w` is drained and its batch is being destroyed. */
  ghost predicate AfterLocal(s: State, s': State, w: nat, batch: seq<Task>) {
    && w < |s.locals| && s'.global.Items() == []
    && s'.log.dropped + batch == Taken(s, w + 1) && Cleared(s, s', w + 1, w + 1)
  }

  lemma PopItems(f: Fifo)
    requires f.Valid() && !f.Empty()
    ensures f.Items() == [f.pushed[f.popped]] + f.Pop().Items()
  {
  }

  lemma NoItems(f: Fifo)
    requires f.Valid()
    ensures f.Empty() <==> f.Items() == []
  {
  }

  /** A drain that ends has taken the first batch. */
  lemma DrainEnds(s: State, s': State, w: nat, batch: seq<Task>)
    requires OnLocal(s, s', w, batch) && (|batch| == BATCH || s'.locals[w].Items() == [])
    ensures AfterLocal(s, s', w, batch)
  {
    FirstAndRest(batch, s'.locals[w].Items(), s.locals[w].Items());
    TakenNext(s, w);
  }

  lemma FirstAndRest(batch: seq<Task>, rest: seq<Task>, items: seq<Task>)
    requires batch + rest == items && |batch| <= BATCH && (|batch| == BATCH || rest == [])
    ensures batch == First(items) && rest == Rest(items)
  {
    assert batch == items[..|batch|] && rest == items[|batch|..];
  }

  lemma TakenNext(s: State, w: nat)
    requires w < |s.locals|
    ensures Taken(s, w + 1) == Taken(s, w) + First(s.locals[w].Items())
  {
  }

  lemma DrainGlobalStep(s: State, s': State, k: nat, batch: seq<Task>)
    requires Shape(s') && k < |s'.calls| && s'.calls[k] == CancelDrain(Global, batch) && OnGlobal(s, s', batch)
    requires 0 < |s.locals|
    ensures var s'' := StepCancel(s', k); k < |s''.calls| && Progress(s, s'', s''.calls[k])
  {
    NoItems(s'.global);
    if |batch| < BATCH && !s'.global.Empty() {
      GlobalPops(s, s', batch);
    } else if batch == [] {
      GlobalEnds(s, s');
    }
  }

  lemma GlobalPops(s: State, s': State, batch: seq<Task>)
    requires OnGlobal(s, s', batch) && s'.global.Valid() && !s'.global.Empty()
    ensures var f := s'.global;
            s'.log.dropped + (batch + [f.pushed[f.popped]]) + f.Pop().Items() == s.log.dropped + s.global.Items()
  {
    var f := s'.global;
    PopItems(f);
    Regroup(s'.log.dropped, batch, f.pushed[f.popped], f.Pop().Items());
  }

  lemma Regroup<T>(a: seq<T>, b: seq<T>, x: T, c: seq<T>)
    ensures a + (b + [x]) + c == a + b + ([x] + c)
  {
  }

  /** The global queue is empty and its last batch was: on to the first worker queue. */
  lemma GlobalEnds(s: State, s': State)
    requires OnGlobal(s, s', []) && s'.global.Items() == [] && 0 < |s.locals|
    ensures OnLocal(s, s', 0, [])
  {
    Nothing(s'.log.dropped);
    assert s'.log.dropped == Taken(s, 0);
    assert [] + s'.locals[0].Items() == s.locals[0].Items();
  }

  lemma Nothing<T>(a: seq<T>)
    ensures a + [] == a && a + [] + [] == a
  {
  }

  lemma DrainLocalStep(s: State, s': State, k: nat, w: nat, batch: seq<Task>)
    requires Shape(s') && k < |s'.calls| && s'.calls[k] == CancelDrain(Local(w), batch) && OnLocal(s, s', w, batch)
    ensures var s'' := StepCancel(s', k); k < |s''.calls| && Progress(s, s'', s''.calls[k])
  {
    var f := s'.locals[w];
    NoItems(f);
    if |batch| < BATCH && !f.Empty() {
      PopItems(f);
      var t := f.pushed[f.popped];
      assert batch + ([t] + f.Pop().Items()) == (batch + [t]) + f.Pop().Items();
    } else {
      DrainEnds(s, s', w, batch);
      SameProgress(s, s', SetCall(s', k, CancelDestroy(Local(w), batch)), w, batch);
    }
  }

  lemma SameProgress(s: State, s': State, s'': State, w: nat, batch: seq<Task>)
    requires AfterLocal(s, s', w, batch)
    requires s''.global == s'.global && s''.locals == s'.locals && s''.log.dropped == s'.log.dropped
    ensures AfterLocal(s, s'', w, batch)
  {
  }

  lemma DestroyStep(s: State, s': State, k: nat, from: Target, batch: seq<Task>)
    requires Shape(s') && k < |s'.calls| && s'.calls[k] == CancelDestroy(from, batch)
    requires Progress(s, s', s'.calls[k])
    ensures var s'' := StepCancel(s', k); k < |s''.calls| && Progress(s, s'', s''.calls[k])
  {
    if batch != [] {
      assert s'.log.dropped + batch == (s'.log.dropped + [batch[0]]) + batch[1..];
    } else if from.Local? {
      NextLocal(s, s', from.w);
    }
  }

  /** From one worker queue to the next, or to the end. */
  lemma NextLocal(s: State, s': State, w: nat)
    requires AfterLocal(s, s', w, [])
    ensures s'.log.dropped == Taken(s, w + 1)
    ensures w + 1 < |s.locals| ==> OnLocal(s, s', w + 1, [])
  {
    assert s'.log.dropped + [] == s'.log.dropped;
    if w + 1 < |s.locals| {
      assert [] + s'.locals[w + 1].Items() == s.locals[w + 1].Items();
    }
  }

  lemma ProgressStep(s: State, s': State, k: nat)
    requires Shape(s') && 0 < |s.locals| && k < |s'.calls| && InCancel(s'.calls[k]) && s'.calls[k] != CancelDone
    requires Progress(s, s', s'.calls[k])
    ensures var s'' := StepCancel(s', k); k < |s''.calls| && Progress(s, s'', s''.calls[k])
  {
    match s'.calls[k]
    case CancelDrain(from, batch) =>
      if from == Global {
        DrainGlobalStep(s, s', k, batch);
      } else {
        DrainLocalStep(s, s', k, from.w, batch);
      }
    case CancelDestroy(from, batch) => DestroyStep(s, s', k, from, batch);
    case _ =>
  }

  /** Nobody but thread `k` acts, and it stays in its cancel_all. */
  ghost predicate Uninterrupted(s: State, acts: seq<Action>, k: nat)
    requires Legal(s, acts)
    decreases |acts|
  {
    && k < |s.calls| && InCancel(s.calls[k])
    && (acts != [] ==>
         s.calls[k] != CancelDone && acts[0] == CStep(k) && Uninterrupted(Apply(s, acts[0]), acts[1..], k))
  }

  lemma {:induction false} ProgressRun(s: State, s': State, acts: seq<Action>, k: nat)
    requires Legal(s', acts) && 0 < |s.locals| && Uninterrupted(s', acts, k) && Progress(s, s', s'.calls[k])
    ensures var s'' := Run(s', acts); k < |s''.calls| && Progress(s, s'', s''.calls[k])
    decreases |acts|
  {
    if acts != [] {
      ProgressStep(s, s', k);
      ProgressRun(s, Apply(s', acts[0]), acts[1..], k);
    }
  }

  /** A cancel_all that nobody interleaves drops all of the global queue and the first
      min(256, n) tasks of each worker's queue of n, in order, and leaves the rest
      queued. */
  lemma CancelTakes(s: State, acts: seq<Action>, k: nat)
    requires Legal(s, acts) && Uninterrupted(s, acts, k) && s.calls[k] == CancelFlag
    requires k < |Run(s, acts).calls| && Run(s, acts).calls[k] == CancelDone
    ensures var s' := Run(s, acts);
            && s'.log.dropped == s.log.dropped + s.global.Items() + Firsts(s.locals, |s.locals|)
            && s'.global.Items() == [] && |s'.locals| == |s.locals|
            && forall w :: 0 <= w < |s.locals| ==> s'.locals[w].Items() == Rest(s.locals[w].Items())
  {
    ProgressRun(s, s, acts, k);
  }

  /** "Cancel all pending tasks": even then nothing is left queued if and only if every
      worker's queue held at most 256 tasks. */
  lemma CancelsAllExactly(s: State, acts: seq<Action>, k: nat)
    requires Legal(s, acts) && Uninterrupted(s, acts, k) && s.calls[k] == CancelFlag
    requires k < |Run(s, acts).calls| && Run(s, acts).calls[k] == CancelDone
    ensures Queued(Run(s, acts)) == 0 <==> forall w :: 0 <= w < |s.locals| ==> |s.locals[w].Items()| <= BATCH
  {
    CancelTakes(s, acts, k);
    var s' := Run(s, acts);
    forall w | 0 <= w < |s.locals|
      ensures QueueLength(s'.locals[w]) > 0 <==> |s.locals[w].Items()| > BATCH
    {
    }
    if Queued(s') > 0 {
      var w := TotalSource(QueueLength, s'.locals);
    }
    TotalNonNegative(QueueLength, s'.locals);
    if w :| 0 <= w < |s.locals| && |s.locals[w].Items()| > BATCH {
      TotalBounds(QueueLength, s'.locals, w);
    }
  }
}
