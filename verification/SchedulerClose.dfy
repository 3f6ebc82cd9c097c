/** fq_scheduler_cancel_all and fq_scheduler_shutdown of src/scheduler/scheduler.c as
    code that runs among other threads. */
module SchedulerClose {
  import opened Common
  import opened SchedulerModel
  import opened SchedulerShutdown
  import opened SchedulerSafe
  import opened SchedulerRuns
  import opened SchedulerCode

  /** Storing 1 in shutdown_flag. */
  method StoreFlag(sch: Scheduler, k: nat, ghost c: Call, ghost s0: Moment)
    requires sch.At(k, c, s0) && (c.CancelFlag? || c.ShutFlag?)
    modifies sch`shutdown, sch`s, sch`trace
    ensures sch.At(k, FlagStored(c), s0) && sch.s.shut.flag
  {
    FlagStep(sch.s, k, c);
    sch.DoTo(k, CStep(k), RaiseFlag(SetCall(sch.s, k, FlagStored(c))), s0);
    sch.shutdown := true;
  }

  function FlagStored(c: Call): Call {
    if c.CancelFlag? then CancelDrain(Global, []) else ShutJoin(0)
  }

  lemma FlagStep(s: State, k: nat, c: Call)
    requires Shape(s) && k < |s.calls| && s.calls[k] == c && (c.CancelFlag? || c.ShutFlag?)
    ensures Enabled(s, CStep(k)) && Apply(s, CStep(k)) == RaiseFlag(SetCall(s, k, FlagStored(c)))
  {
  }

  // ---- fq_scheduler_cancel_all ----

  /** Where a cancel_all goes on after a drain. */
  function Drained(from: Target, batch: seq<Task>): Call {
    if from == Global && batch == [] then CancelDrain(Local(0), []) else CancelDestroy(from, batch)
  }

  /** The oldest task of `from` moves to the batch. */
  ghost function Batched(s: State, k: nat, from: Target, batch: seq<Task>): State
    requires Has(s, from) && k < |s.calls| && !QueueAt(s, from).Empty()
  {
    var f := QueueAt(s, from);
    SetQueue(SetCall(s, k, CancelDrain(from, batch + [f.pushed[f.popped]])), from, f.Pop())
  }

  lemma DrainNext(s: State, k: nat, from: Target, batch: seq<Task>)
    requires Shape(s) && k < |s.calls| && s.calls[k] == CancelDrain(from, batch) && |batch| < BATCH
    ensures Has(s, from) && Enabled(s, CStep(k))
    ensures Apply(s, CStep(k))
         == if QueueAt(s, from).Empty() then SetCall(s, k, Drained(from, batch)) else Batched(s, k, from, batch)
  {
    assert CallShape(s, k, s.calls[k]);
  }

  /** One fq_queue_pop of a drain. */
  method PopOne(sch: Scheduler, k: nat, from: Target, batch: seq<Task>, ghost s0: Moment) returns (task: Option<Task>)
    requires sch.At(k, CancelDrain(from, batch), s0) && |batch| < BATCH
    modifies sch`global, sch`locals, sch`s, sch`trace
    ensures sch.At(k, if task.Some? then CancelDrain(from, batch + [task.value]) else Drained(from, batch), s0)
    ensures task.None? ==> Finds(sch.s, from)
  {
    DrainNext(sch.s, k, from, batch);
    var f := if from.Global? then sch.global else sch.locals[from.w];
    if f.Empty() {
      MissOne(sch, k, from, batch, s0);
      task := None;
    } else {
      task := TakeOne(sch, k, from, batch, s0);
    }
  }

  /** The queue is there, and empty. */
  ghost predicate Finds(s: State, from: Target) {
    Has(s, from) && QueueAt(s, from).Empty()
  }

  ghost method MissOne(sch: Scheduler, k: nat, from: Target, batch: seq<Task>, s0: Moment)
    requires sch.At(k, CancelDrain(from, batch), s0) && |batch| < BATCH && Finds(sch.s, from)
    modifies sch`s, sch`trace
    ensures sch.At(k, Drained(from, batch), s0) && Finds(sch.s, from)
  {
    DrainNext(sch.s, k, from, batch);
    sch.DoTo(k, CStep(k), SetCall(sch.s, k, Drained(from, batch)), s0);
  }

  method TakeOne(sch: Scheduler, k: nat, from: Target, batch: seq<Task>, ghost s0: Moment) returns (task: Option<Task>)
    requires sch.At(k, CancelDrain(from, batch), s0) && |batch| < BATCH
    requires Has(sch.s, from) && !QueueAt(sch.s, from).Empty()
    modifies sch`global, sch`locals, sch`s, sch`trace
    ensures task.Some? && sch.At(k, CancelDrain(from, batch + [task.value]), s0)
  {
    BatchedMirrors(sch.s, k, from, batch);
    TakeStep(sch, k, from, batch, s0);
    var t := sch.PopHead(from);
    task := Some(t);
  }

  ghost method TakeStep(sch: Scheduler, k: nat, from: Target, batch: seq<Task>, s0: Moment)
    requires sch.At(k, CancelDrain(from, batch), s0) && |batch| < BATCH
    requires Has(sch.s, from) && !QueueAt(sch.s, from).Empty()
    modifies sch`s, sch`trace
    ensures sch.OnTrace() && Known(sch.start) && sch.s == Batched(old(sch.s), k, from, batch) && sch.Since(s0)
  {
    DrainNext(sch.s, k, from, batch);
    sch.DoTo(k, CStep(k), Batched(sch.s, k, from, batch), s0);
  }

  lemma BatchedMirrors(s: State, k: nat, from: Target, batch: seq<Task>)
    requires Has(s, from) && k < |s.calls| && !QueueAt(s, from).Empty()
    ensures var s' := Batched(s, k, from, batch);
            && s'.global == (if from.Global? then s.global.Pop() else s.global)
            && s'.locals == (if from.Global? then s.locals else s.locals[from.w := s.locals[from.w].Pop()])
            && s'.cfg == s.cfg && s'.shut == s.shut && s'.count == s.count && s'.next == s.next && s'.log == s.log
            && s'.workers == s.workers
            && s'.calls[k] == CancelDrain(from, batch + [QueueAt(s, from).pushed[QueueAt(s, from).popped]])
  {
  }

  /** A full batch ends the drain without another look at the queue. */
  ghost method Full(sch: Scheduler, k: nat, from: Target, batch: seq<Task>, s0: Moment)
    requires sch.At(k, CancelDrain(from, batch), s0) && |batch| == BATCH
    modifies sch`s, sch`trace
    ensures sch.At(k, CancelDestroy(from, batch), s0)
  {
    assert CallShape(sch.s, k, sch.s.calls[k]);
    sch.Do(k, CStep(k), s0);
  }

  /** Since `s` every task of `batch` was dropped and counted as cancelled, and nothing
      dropped before has been forgotten. */
  ghost predicate Dropped(s: State, s': State, batch: seq<Task>) {
    && s.log.dropped <= s'.log.dropped && (forall t :: t in batch ==> t in s'.log.dropped)
    && s.count.canceled + |batch| <= s'.count.canceled
  }

  lemma LaterDropped(s: State, s': State)
    requires Later(s, s')
    ensures Dropped(s, s', [])
  {
  }

  lemma DroppedTrans(s: State, s': State, s'': State, a: seq<Task>, b: seq<Task>)
    requires Dropped(s, s', a) && Dropped(s', s'', b)
    ensures Dropped(s, s'', a + b)
  {
  }

  /** The state so far taken as the state to measure from. */
  lemma Rebase(sch: Scheduler, k: nat, c: Call, s0: Moment)
    requires sch.At(k, c, s0)
    ensures sch.At(k, c, sch.Now())
  {
    LaterSelf(sch.s);
  }

  /** ... and back. */
  lemma Restore(sch: Scheduler, k: nat, c: Call, s0: Moment, s1: Moment)
    requires sch.At(k, c, s1) && Precedes(s0, s1)
    ensures sch.At(k, c, s0)
  {
    PrecedesTrans(s0, s1, sch.Now());
  }

  /** fq_queue_drain with room for one batch; a batch that is not full ends with the
      queue found empty. */
  method Drain(sch: Scheduler, k: nat, from: Target, ghost s0: Moment) returns (batch: seq<Task>)
    requires sch.At(k, CancelDrain(from, []), s0)
    modifies sch
    ensures |batch| <= BATCH && sch.At(k, Drained(from, batch), s0)
    ensures |batch| < BATCH ==> Finds(sch.s, from)
  {
    batch := [];
    while |batch| < BATCH
      invariant |batch| <= BATCH && sch.At(k, CancelDrain(from, batch), s0)
      decreases BATCH - |batch|
    {
      var task := PopLater(sch, k, from, batch, s0);
      if task.None? { return; }
      batch := batch + [task.value];
    }
    Full(sch, k, from, batch, s0);
  }

  method PopLater(sch: Scheduler, k: nat, from: Target, batch: seq<Task>, ghost s0: Moment) returns (task: Option<Task>)
    requires sch.At(k, CancelDrain(from, batch), s0) && |batch| < BATCH
    modifies sch
    ensures sch.At(k, if task.Some? then CancelDrain(from, batch + [task.value]) else Drained(from, batch), s0)
    ensures task.None? ==> Finds(sch.s, from)
  {
    sch.Yield(k, CancelDrain(from, batch), s0);
    task := PopOne(sch, k, from, batch, s0);
  }

  method DestroyOne(sch: Scheduler, k: nat, from: Target, batch: seq<Task>, ghost s0: Moment)
    requires sch.At(k, CancelDestroy(from, batch), s0) && batch != []
    modifies sch`s, sch`trace
    ensures sch.At(k, CancelTally(from, batch[1..]), s0) && batch[0] in sch.s.log.dropped
  {
    sch.Do(k, CStep(k), s0);
  }

  method Tally(sch: Scheduler, k: nat, from: Target, batch: seq<Task>, ghost s0: Moment)
    requires sch.At(k, CancelTally(from, batch), s0)
    modifies sch`count, sch`s, sch`trace
    ensures sch.At(k, CancelDestroy(from, batch), s0)
    ensures sch.s.log == old(sch.s.log) && sch.s.count.canceled == old(sch.s.count.canceled) + 1
  {
    TallyStep(sch.s, k, from, batch);
    sch.DoTo(k, CStep(k), Tallied(sch.s, k, from, batch), s0);
    sch.count := sch.count.(canceled := sch.count.canceled + 1);
  }

  function Tallied(s: State, k: nat, from: Target, batch: seq<Task>): State
    requires k < |s.calls|
  {
    SetCall(s, k, CancelDestroy(from, batch)).(count := s.count.(canceled := s.count.canceled + 1))
  }

  lemma TallyStep(s: State, k: nat, from: Target, batch: seq<Task>)
    requires Shape(s) && k < |s.calls| && s.calls[k] == CancelTally(from, batch)
    ensures Enabled(s, CStep(k)) && Apply(s, CStep(k)) == Tallied(s, k, from, batch)
  {
  }

  /** Other threads, a destruction, other threads, and the count. */
  method DestroyNext(sch: Scheduler, k: nat, from: Target, batch: seq<Task>, ghost s0: Moment)
    requires sch.At(k, CancelDestroy(from, batch), s0) && batch != []
    modifies sch
    ensures sch.At(k, CancelDestroy(from, batch[1..]), s0)
    ensures Dropped(old(sch.s), sch.s, [batch[0]])
  {
    ghost var s1 := sch.Now();
    Rebase(sch, k, CancelDestroy(from, batch), s0);
    sch.Yield(k, CancelDestroy(from, batch), s1);
    DestroyOne(sch, k, from, batch, s1);
    ghost var s2 := sch.Now();
    TallyLater(sch, k, from, batch[1..], s1);
    DestroyedOne(s1.s, s2.s, sch.s, batch[0]);
    Restore(sch, k, CancelDestroy(from, batch[1..]), s0, s1);
  }

  method TallyLater(sch: Scheduler, k: nat, from: Target, batch: seq<Task>, ghost s0: Moment)
    requires sch.At(k, CancelTally(from, batch), s0)
    modifies sch
    ensures sch.At(k, CancelDestroy(from, batch), s0)
    ensures old(sch.s.log.dropped) <= sch.s.log.dropped && old(sch.s.count.canceled) + 1 <= sch.s.count.canceled
  {
    ghost var s1 := sch.Now();
    Rebase(sch, k, CancelTally(from, batch), s0);
    sch.Yield(k, CancelTally(from, batch), s1);
    LaterDropped(s1.s, sch.s);
    Tally(sch, k, from, batch, s1);
    Restore(sch, k, CancelDestroy(from, batch), s0, s1);
  }

  lemma DestroyedOne(s1: State, s2: State, s3: State, t: Task)
    requires Later(s1, s2) && t in s2.log.dropped
    requires s2.log.dropped <= s3.log.dropped && s2.count.canceled + 1 <= s3.count.canceled
    ensures Dropped(s1, s3, [t])
  {
  }

  /** Every task of the batch is destroyed and counted in tasks_canceled. */
  method DestroyBatch(sch: Scheduler, k: nat, from: Target, batch: seq<Task>, ghost s0: Moment)
    requires sch.At(k, CancelDestroy(from, batch), s0)
    modifies sch
    ensures sch.At(k, CancelDestroy(from, []), s0)
    ensures Dropped(old(sch.s), sch.s, batch)
  {
    assert batch[0..] == batch;
    for i := 0 to |batch|
      invariant sch.At(k, CancelDestroy(from, batch[i..]), s0)
      invariant Dropped(old(sch.s), sch.s, batch[..i])
    {
      ghost var s1 := sch.Now();
      DestroyNext(sch, k, from, batch[i..], s0);
      DroppedNext(old(sch.s), s1.s, sch.s, batch, i);
    }
    assert batch[..|batch|] == batch;
  }

  lemma DroppedNext(s: State, s': State, s'': State, batch: seq<Task>, i: nat)
    requires i < |batch| && Dropped(s, s', batch[..i]) && Dropped(s', s'', [batch[i..][0]])
    ensures Dropped(s, s'', batch[..i + 1]) && batch[i..][1..] == batch[i + 1..]
  {
    DroppedTrans(s, s', s'', batch[..i], [batch[i]]);
    assert batch[..i] + [batch[i]] == batch[..i + 1];
  }

  /** The step from one queue to the next. */
  function NextQueue(from: Target, n: nat): Call {
    if from == Global then CancelDrain(Global, [])
    else if from.w + 1 < n then CancelDrain(Local(from.w + 1), []) else CancelDone
  }

  ghost method GoOn(sch: Scheduler, k: nat, from: Target, s0: Moment)
    requires sch.At(k, CancelDestroy(from, []), s0)
    modifies sch`s, sch`trace
    ensures sch.At(k, NextQueue(from, |sch.locals|), s0)
    ensures sch.s.log == old(sch.s.log) && sch.s.count == old(sch.s.count)
  {
    QueueStep(sch.s, k, from);
    sch.DoTo(k, CStep(k), SetCall(sch.s, k, NextQueue(from, |sch.s.locals|)), s0);
  }

  lemma QueueStep(s: State, k: nat, from: Target)
    requires Shape(s) && k < |s.calls| && s.calls[k] == CancelDestroy(from, [])
    ensures Enabled(s, CStep(k)) && Apply(s, CStep(k)) == SetCall(s, k, NextQueue(from, |s.locals|))
  {
  }

  /** One batch of one queue; an empty batch of the global queue leads to the workers'. */
  method CancelBatch(sch: Scheduler, k: nat, from: Target, ghost s0: Moment) returns (batch: seq<Task>)
    requires sch.At(k, CancelDrain(from, []), s0)
    modifies sch
    ensures var next := if from == Global && batch == [] then CancelDrain(Local(0), [])
                        else NextQueue(from, sch.cfg.workers);
            sch.At(k, next, s0)
    ensures |batch| <= BATCH && Dropped(old(sch.s), sch.s, batch)
    ensures from == Global && batch == [] ==> sch.global.Empty()
  {
    ghost var s1 := sch.Now();
    Rebase(sch, k, CancelDrain(from, []), s0);
    batch := Drain(sch, k, from, s1);
    LaterDropped(s1.s, sch.s);
    if from == Global && batch == [] {
      Restore(sch, k, CancelDrain(Local(0), []), s0, s1);
    } else {
      FinishBatch(sch, k, from, batch, s0, s1);
    }
  }

  method FinishBatch(sch: Scheduler, k: nat, from: Target, batch: seq<Task>, ghost s0: Moment, ghost s1: Moment)
    requires sch.At(k, CancelDestroy(from, batch), s1) && Precedes(s0, s1) && Dropped(s1.s, sch.s, [])
    modifies sch
    ensures sch.At(k, NextQueue(from, sch.cfg.workers), s0) && Dropped(s1.s, sch.s, batch)
  {
    ghost var s2 := sch.Now();
    DestroyBatch(sch, k, from, batch, s1);
    DroppedTrans(s1.s, s2.s, sch.s, [], batch);
    assert [] + batch == batch;
    GoOn(sch, k, from, s1);
    Restore(sch, k, NextQueue(from, sch.cfg.workers), s0, s1);
  }

  /** Batches of at most 256 tasks, with a task each. */
  predicate NoneEmpty(taken: seq<seq<Task>>) {
    forall i :: 0 <= i < |taken| ==> 0 < |taken[i]| <= BATCH
  }

  /** fq_scheduler_cancel_all, watched for a number of batches of the global queue: the
      flag is raised, the global queue is drained batch after batch until a drain finds it
      empty (at the moment `at`), and one batch is taken from every worker's queue, none of
      more than 256 tasks. Every task taken is destroyed and counted in tasks_canceled. It
      has not returned only when each batch watched had a task. */
  method CancelAll(sch: Scheduler, k: nat, batches: nat)
      returns (returned: bool, taken: seq<seq<Task>>, local: seq<seq<Task>>, ghost at: Moment)
    requires sch.Free(k, sch.Now())
    modifies sch
    ensures sch.shutdown && Dropped(old(sch.s), sch.s, Flat(taken, |taken|) + Flat(local, |local|))
    ensures NoneEmpty(taken) && (!returned ==> |taken| == batches && local == [])
    ensures returned ==>
              && sch.Free(k, old(sch.Now()))
              && at.s.global.Empty() && Precedes(old(sch.Now()), at) && sch.Since(at)
              && |local| == sch.cfg.workers && forall i :: 0 <= i < |local| ==> |local[i]| <= BATCH
  {
    RaiseToCancel(sch, k);
    ghost var s0, s1 := old(sch.Now()), sch.Now();
    Rebase(sch, k, CancelDrain(Global, []), s0);
    returned, taken, local, at := CancelQueues(sch, k, batches, s1);
    DroppedTrans(s0.s, s1.s, sch.s, [], Flat(taken, |taken|) + Flat(local, |local|));
    assert [] + (Flat(taken, |taken|) + Flat(local, |local|)) == Flat(taken, |taken|) + Flat(local, |local|);
    PrecedesTrans(s0, s1, at);
    if returned { Restore(sch, k, NoCall, s0, s1); }
  }

  method CancelQueues(sch: Scheduler, k: nat, batches: nat, ghost s0: Moment)
      returns (returned: bool, taken: seq<seq<Task>>, local: seq<seq<Task>>, ghost at: Moment)
    requires sch.At(k, CancelDrain(Global, []), s0) && s0 == sch.Now()
    modifies sch
    ensures sch.Valid() && sch.Since(s0) && Precedes(s0, at)
    ensures Dropped(s0.s, sch.s, Flat(taken, |taken|) + Flat(local, |local|))
    ensures NoneEmpty(taken) && (!returned ==> |taken| == batches && local == [])
    ensures returned ==>
              && sch.Free(k, s0) && at.s.global.Empty() && sch.Since(at)
              && |local| == sch.cfg.workers && forall i :: 0 <= i < |local| ==> |local[i]| <= BATCH
  {
    local := [];
    returned, taken := CancelGlobal(sch, k, batches, s0);
    at := sch.Now();
    if returned {
      local := CancelRest(sch, k, s0);
    } else {
      LaterDropped(at.s, at.s);
    }
    DroppedTrans(s0.s, at.s, sch.s, Flat(taken, |taken|), Flat(local, |local|));
  }

  method CancelRest(sch: Scheduler, k: nat, ghost s0: Moment) returns (local: seq<seq<Task>>)
    requires sch.At(k, CancelDrain(Local(0), []), s0)
    modifies sch
    ensures sch.Free(k, s0) && Dropped(old(sch.s), sch.s, Flat(local, |local|)) && sch.Since(old(sch.Now()))
    ensures |local| == sch.cfg.workers && forall i :: 0 <= i < |local| ==> |local[i]| <= BATCH
  {
    ghost var s1 := sch.Now();
    Rebase(sch, k, CancelDrain(Local(0), []), s0);
    local := CancelLocals(sch, k, s1);
    FinishCancel(sch, k, s0, s1, Flat(local, |local|));
  }

  method FinishCancel(sch: Scheduler, k: nat, ghost s0: Moment, ghost s1: Moment, ghost taken: seq<Task>)
    requires sch.At(k, CancelDone, s1) && Precedes(s0, s1) && Dropped(s1.s, sch.s, taken)
    modifies sch
    ensures sch.Free(k, s0) && Dropped(s1.s, sch.s, taken) && sch.Since(s1)
  {
    ghost var s2 := sch.Now();
    Rebase(sch, k, CancelDone, s1);
    sch.Yield(k, CancelDone, s2);
    LaterDropped(s2.s, sch.s);
    DroppedTrans(s1.s, s2.s, sch.s, taken, []);
    assert taken + [] == taken;
    PrecedesTrans(s1, s2, sch.Now());
    PrecedesTrans(s0, s1, sch.Now());
    LeaveCancel(sch, k, s0, s1, s2);
  }

  method LeaveCancel(sch: Scheduler, k: nat, ghost s0: Moment, ghost s1: Moment, ghost s2: Moment)
    requires sch.At(k, CancelDone, s2) && sch.Since(s0) && sch.Since(s1)
    modifies sch`s, sch`trace
    ensures sch.Free(k, s0) && sch.Since(s1)
    ensures sch.s.log == old(sch.s.log) && sch.s.count == old(sch.s.count)
  {
    LeaveStep(sch.s, k);
    LaterCall(s1.s, sch.s, k);
    sch.DoTo(k, CStep(k), SetCall(sch.s, k, NoCall), s0);
  }

  lemma LaterCall(s: State, s': State, k: nat)
    requires Later(s, s') && k < |s'.calls|
    ensures Later(s, SetCall(s', k, NoCall))
  {
  }

  lemma LeaveStep(s: State, k: nat)
    requires Shape(s) && k < |s.calls| && s.calls[k] == CancelDone
    ensures Enabled(s, CStep(k)) && Apply(s, CStep(k)) == SetCall(s, k, NoCall)
  {
  }

  /** The first `n` batches, one after the other. */
  function Flat(batches: seq<seq<Task>>, n: nat): seq<Task>
    requires n <= |batches|
  {
    if n == 0 then [] else Flat(batches, n - 1) + batches[n - 1]
  }

  lemma {:induction false} FlatPrefix(batches: seq<seq<Task>>, b: seq<Task>, n: nat)
    requires n <= |batches|
    ensures Flat(batches + [b], n) == Flat(batches, n)
  {
    if n > 0 {
      FlatPrefix(batches, b, n - 1);
    }
  }

  lemma FlatNext(batches: seq<seq<Task>>, b: seq<Task>)
    ensures Flat(batches + [b], |batches| + 1) == Flat(batches, |batches|) + b
  {
    FlatPrefix(batches, b, |batches|);
  }

  method RaiseToCancel(sch: Scheduler, k: nat)
    requires sch.Free(k, sch.Now())
    modifies sch
    ensures sch.At(k, CancelDrain(Global, []), old(sch.Now())) && sch.s.shut.flag
    ensures Dropped(old(sch.s), sch.s, [])
  {
    ghost var s0 := sch.Now();
    sch.Enter(k, CancelFlag, s0);
    sch.Yield(k, CancelFlag, s0);
    StoreFlag(sch, k, CancelFlag, s0);
    LaterDropped(s0.s, sch.s);
  }

  method CancelGlobal(sch: Scheduler, k: nat, batches: nat, ghost s0: Moment)
      returns (finished: bool, taken: seq<seq<Task>>)
    requires sch.At(k, CancelDrain(Global, []), s0)
    modifies sch
    ensures sch.At(k, CancelDrain(if finished then Local(0) else Global, []), s0)
    ensures Dropped(old(sch.s), sch.s, Flat(taken, |taken|))
    ensures NoneEmpty(taken) && (!finished ==> |taken| == batches)
    ensures finished ==> sch.global.Empty()
  {
    finished, taken := false, [];
    LaterSelf(sch.s);
    LaterDropped(sch.s, sch.s);
    for i := 0 to batches
      invariant sch.At(k, CancelDrain(Global, []), s0) && Dropped(old(sch.s), sch.s, Flat(taken, |taken|))
      invariant NoneEmpty(taken) && |taken| == i
    {
      finished, taken := CancelNext(sch, k, taken, s0, old(sch.s));
      if finished { return; }
    }
  }

  /** One more batch of the global queue, or an empty one, which ends the draining. */
  method CancelNext(sch: Scheduler, k: nat, was: seq<seq<Task>>, ghost s0: Moment, ghost s1: State)
      returns (finished: bool, taken: seq<seq<Task>>)
    requires sch.At(k, CancelDrain(Global, []), s0) && Dropped(s1, sch.s, Flat(was, |was|)) && NoneEmpty(was)
    modifies sch
    ensures sch.At(k, CancelDrain(if finished then Local(0) else Global, []), s0)
    ensures Dropped(s1, sch.s, Flat(taken, |taken|)) && NoneEmpty(taken) && |taken| == |was| + Bit(!finished)
    ensures finished ==> sch.global.Empty()
  {
    ghost var s2 := sch.s;
    var batch := CancelBatch(sch, k, Global, s0);
    finished := batch == [];
    taken := if finished then was else was + [batch];
    DroppedNextBatch(s1, s2, sch.s, was, batch);
  }

  lemma DroppedNextBatch(s: State, s': State, s'': State, was: seq<seq<Task>>, batch: seq<Task>)
    requires Dropped(s, s', Flat(was, |was|)) && Dropped(s', s'', batch)
    ensures var taken := if batch == [] then was else was + [batch]; Dropped(s, s'', Flat(taken, |taken|))
  {
    DroppedTrans(s, s', s'', Flat(was, |was|), batch);
    if batch == [] {
      assert Flat(was, |was|) + [] == Flat(was, |was|);
    } else {
      FlatNext(was, batch);
    }
  }

  method CancelLocals(sch: Scheduler, k: nat, ghost s0: Moment) returns (local: seq<seq<Task>>)
    requires sch.At(k, CancelDrain(Local(0), []), s0)
    modifies sch
    ensures sch.At(k, CancelDone, s0) && Dropped(old(sch.s), sch.s, Flat(local, |local|))
    ensures |local| == sch.cfg.workers && forall i :: 0 <= i < |local| ==> |local[i]| <= BATCH
  {
    local := [];
    LaterSelf(sch.s);
    LaterDropped(sch.s, sch.s);
    for i := 0 to sch.cfg.workers
      invariant Before(sch, k, i, local, s0, old(sch.s))
    {
      local := CancelLocal(sch, k, i, local, s0, old(sch.s));
    }
  }

  /** The batches of the first `i` workers' queues are done with. */
  ghost predicate Before(sch: Scheduler, k: nat, i: nat, local: seq<seq<Task>>, s0: Moment, s1: State)
    reads sch
  {
    && sch.At(k, if i < sch.cfg.workers then CancelDrain(Local(i), []) else CancelDone, s0)
    && |local| == i && Batches(s1, sch.s, local)
  }

  /** Since `s` these batches were taken and dropped. */
  ghost predicate Batches(s: State, s': State, local: seq<seq<Task>>) {
    && (forall j :: 0 <= j < |local| ==> |local[j]| <= BATCH)
    && Dropped(s, s', Flat(local, |local|))
  }

  lemma BatchesNext(s: State, s': State, s'': State, was: seq<seq<Task>>, batch: seq<Task>)
    requires Batches(s, s', was) && Dropped(s', s'', batch) && |batch| <= BATCH
    ensures Batches(s, s'', was + [batch])
  {
    DroppedTrans(s, s', s'', Flat(was, |was|), batch);
    FlatNext(was, batch);
  }

  method CancelLocal(sch: Scheduler, k: nat, i: nat, was: seq<seq<Task>>, ghost s0: Moment, ghost s1: State)
      returns (local: seq<seq<Task>>)
    requires Before(sch, k, i, was, s0, s1) && i < sch.cfg.workers
    modifies sch
    ensures Before(sch, k, i + 1, local, s0, s1)
  {
    ghost var s2 := sch.s;
    var batch := CancelBatch(sch, k, Local(i), s0);
    BatchesNext(s1, s2, sch.s, was, batch);
    local := was + [batch];
  }

  // ---- fq_scheduler_shutdown ----

  /** fq_thread_join on worker `i`, watched for a while: it returns when the worker's thread
      has ended, and then the worker has stopped. */
  method Join(sch: Scheduler, k: nat, i: nat, ghost s0: Moment) returns (joined: bool)
    requires sch.At(k, ShutJoin(i), s0) && i < |sch.s.workers|
    modifies sch
    ensures sch.At(k, ShutJoin(i), s0) && i < |sch.s.workers|
    ensures joined ==> sch.s.workers[i].pc == Stopped
    ensures joined <==> i in sch.ended
  {
    sch.Yield(k, ShutJoin(i), s0);
    joined := i in sch.ended;
  }

  ghost method JoinOver(sch: Scheduler, k: nat, i: nat, s0: Moment)
    requires sch.At(k, ShutJoin(i), s0)
    requires i < |sch.s.workers| ==> sch.s.workers[i].pc == Stopped
    modifies sch`s, sch`trace
    ensures sch.At(k, if i < |sch.s.workers| then ShutJoin(i + 1) else ShutDone, s0)
  {
    JoinNext(sch.s, k, i);
    var c := if i < |sch.s.workers| then ShutJoin(i + 1) else ShutDone;
    sch.DoTo(k, CStep(k), SetCall(sch.s, k, c), s0);
  }

  lemma JoinNext(s: State, k: nat, i: nat)
    requires Shape(s) && k < |s.calls| && s.calls[k] == ShutJoin(i)
    requires i < |s.workers| ==> s.workers[i].pc == Stopped
    ensures Enabled(s, CStep(k))
    ensures Apply(s, CStep(k)) == SetCall(s, k, if i < |s.workers| then ShutJoin(i + 1) else ShutDone)
  {
  }

  /** fq_scheduler_shutdown: when it is through its joins, after a first flag store
      that found no harmful submit in its window and with no cancel_all in progress,
      every accepted task has been executed or dropped, and not both. Until then it waits
      for the worker numbered `joined`, whose thread has not ended, the earlier ones having
      stopped. */
  method Shutdown(sch: Scheduler, k: nat) returns (returned: bool, joined: nat)
    requires sch.Free(k, sch.Now())
    modifies sch
    ensures sch.shutdown && joined <= sch.cfg.workers && (returned <==> joined == sch.cfg.workers)
    ensures sch.At(k, if returned then ShutDone else ShutJoin(joined), old(sch.Now()))
    ensures !returned ==> joined !in sch.ended
    ensures |sch.s.workers| == sch.cfg.workers && forall i :: 0 <= i < joined ==> sch.s.workers[i].pc == Stopped
    ensures returned && sch.s.shut.safe && (forall j :: 0 <= j < |sch.s.calls| ==> !InCancel(sch.s.calls[j])) ==>
              Queued(sch.s) == 0 && Finished(sch.s)
  {
    RaiseToShut(sch, k);
    ghost var s1 := sch.Now();
    LaterSelf(s1.s);
    returned, joined := JoinAll(sch, k, s1);
    PrecedesTrans(old(sch.Now()), s1, sch.Now());
    sch.Reached();
    if returned {
      AllFinished(sch.s, k);
    }
    AllJoined(sch.s, k);
  }

  ghost predicate Finished(s: State) {
    forall t :: t in s.log.accepted ==> (t in s.log.ran <==> t !in s.log.dropped)
  }

  lemma AllFinished(s: State, k: nat)
    requires Known(s) && k < |s.calls| && s.calls[k] == ShutDone
    ensures s.shut.safe && (forall j :: 0 <= j < |s.calls| ==> !InCancel(s.calls[j])) ==> Queued(s) == 0 && Finished(s)
  {
    if s.shut.safe && forall j :: 0 <= j < |s.calls| ==> !InCancel(s.calls[j]) {
      ShutdownFinishesAll(s, k, Task(0, 0));
      forall t | t in s.log.accepted ensures t in s.log.ran <==> t !in s.log.dropped {
        ShutdownFinishesAll(s, k, t);
      }
    }
  }

  /** The workers already joined have stopped. */
  lemma AllJoined(s: State, k: nat)
    requires Known(s) && k < |s.calls| && (s.calls[k] == ShutDone || s.calls[k].ShutJoin?)
    ensures |s.workers| == s.cfg.workers
    ensures var joined := if s.calls[k].ShutJoin? then s.calls[k].i else |s.workers|;
            forall i :: 0 <= i < joined && i < |s.workers| ==> s.workers[i].pc == Stopped
  {
    assert Joined(s, s.calls[k]);
  }

  method RaiseToShut(sch: Scheduler, k: nat)
    requires sch.Free(k, sch.Now())
    modifies sch
    ensures sch.At(k, ShutJoin(0), old(sch.Now())) && sch.s.shut.flag
  {
    ghost var s0 := sch.Now();
    sch.Enter(k, ShutFlag, s0);
    sch.Yield(k, ShutFlag, s0);
    StoreFlag(sch, k, ShutFlag, s0);
  }

  method JoinAll(sch: Scheduler, k: nat, ghost s0: Moment) returns (through: bool, joined: nat)
    requires sch.At(k, ShutJoin(0), s0)
    modifies sch
    ensures joined <= sch.cfg.workers && (through <==> joined == sch.cfg.workers)
    ensures sch.At(k, if through then ShutDone else ShutJoin(joined), s0) && (!through ==> joined !in sch.ended)
  {
    joined := 0;
    while joined < sch.cfg.workers
      invariant joined <= sch.cfg.workers && sch.At(k, ShutJoin(joined), s0)
    {
      through := JoinOne(sch, k, joined, s0);
      if !through { return; }
      joined := joined + 1;
    }
    JoinLast(sch, k, s0);
    through := true;
  }

  method JoinOne(sch: Scheduler, k: nat, i: nat, ghost s0: Moment) returns (joined: bool)
    requires sch.At(k, ShutJoin(i), s0) && i < sch.cfg.workers
    modifies sch
    ensures sch.At(k, ShutJoin(if joined then i + 1 else i), s0) && (!joined ==> i !in sch.ended)
  {
    joined := Join(sch, k, i, s0);
    if joined { JoinOver(sch, k, i, s0); }
  }

  method JoinLast(sch: Scheduler, k: nat, ghost s0: Moment)
    requires sch.At(k, ShutJoin(sch.cfg.workers), s0)
    modifies sch
    ensures sch.At(k, ShutDone, s0)
  {
    sch.Yield(k, ShutJoin(sch.cfg.workers), s0);
    JoinOver(sch, k, sch.cfg.workers, s0);
  }
}
