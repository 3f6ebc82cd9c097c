/** The counters of fq_scheduler_t against what they are meant to count, at every
    single step, not only when the scheduler rests. */
module SchedulerLedger {
  import opened Common
  import opened SchedulerModel
  import opened SchedulerShape

  /** A submit between raising tasks_pending and its push or its undo. */
  ghost function Pledged(c: Call): int { Bit(c.SubPush? || c.SubSpill? || c.SubUndo?) }

  /** A submit between raising tasks_submitted and its push or its undo. */
  ghost function Entered(c: Call): int { Bit(c.SubRaise? || c.SubPush? || c.SubSpill? || c.SubUndo?) }

  /** Tasks drained by a cancel_all and not yet destroyed. */
  ghost function Drained(c: Call): int {
    if c.CancelDrain? || c.CancelDestroy? || c.CancelTally? then |c.batch| else 0
  }

  /** A destroyed task that tasks_canceled does not count yet. */
  ghost function Untallied(c: Call): int { Bit(c.CancelTally?) }

  /** A worker that has its task but has not lowered tasks_pending. */
  ghost function PickedUp(w: Worker): int { Bit(w.pc.Found? || w.pc.Raised?) }

  /** A worker between raising and lowering tasks_active. */
  ghost function Executing(w: Worker): int {
    Bit(w.pc.Raised? || w.pc.Running? || w.pc.Returned? || w.pc.Counted?)
  }

  /** A worker whose task tasks_completed does not count yet. */
  ghost function Unfinished(w: Worker): int {
    Bit(w.pc.Found? || w.pc.Raised? || w.pc.Running? || w.pc.Returned?)
  }

  ghost predicate Ledger(s: State) {
    && s.count.pending == Total(Pledged, s.calls) + Queued(s) + Total(PickedUp, s.workers)
                          + Total(Drained, s.calls) + |s.log.dropped|
    && s.count.active == Total(Executing, s.workers)
    && s.count.completed == |s.log.ran|
    && s.count.canceled + Total(Untallied, s.calls) == |s.log.dropped|
    && s.count.submitted == Total(Entered, s.calls) + Queued(s) + Total(Unfinished, s.workers)
                            + Total(Drained, s.calls) + |s.log.dropped| + |s.log.ran| + |s.log.overflowed|
  }

  // ---- updating one thread or queue ----

  lemma CallCounts(s: State, s': State, k: nat)
    requires k < |s.calls| == |s'.calls| && s'.calls == s.calls[k := s'.calls[k]]
    ensures var c, c' := s.calls[k], s'.calls[k];
            && Total(Pledged, s'.calls) == Total(Pledged, s.calls) - Pledged(c) + Pledged(c')
            && Total(Entered, s'.calls) == Total(Entered, s.calls) - Entered(c) + Entered(c')
            && Total(Drained, s'.calls) == Total(Drained, s.calls) - Drained(c) + Drained(c')
            && Total(Untallied, s'.calls) == Total(Untallied, s.calls) - Untallied(c) + Untallied(c')
  {
    TotalUpdate(Pledged, s.calls, k, s'.calls[k]);
    TotalUpdate(Entered, s.calls, k, s'.calls[k]);
    TotalUpdate(Drained, s.calls, k, s'.calls[k]);
    TotalUpdate(Untallied, s.calls, k, s'.calls[k]);
  }

  lemma WorkerCounts(s: State, s': State, w: nat)
    requires w < |s.workers| == |s'.workers| && s'.workers == s.workers[w := s'.workers[w]]
    ensures var c, c' := s.workers[w], s'.workers[w];
            && Total(PickedUp, s'.workers) == Total(PickedUp, s.workers) - PickedUp(c) + PickedUp(c')
            && Total(Executing, s'.workers) == Total(Executing, s.workers) - Executing(c) + Executing(c')
            && Total(Unfinished, s'.workers) == Total(Unfinished, s.workers) - Unfinished(c) + Unfinished(c')
  {
    TotalUpdate(PickedUp, s.workers, w, s'.workers[w]);
    TotalUpdate(Executing, s.workers, w, s'.workers[w]);
    TotalUpdate(Unfinished, s.workers, w, s'.workers[w]);
  }

  lemma QueuedUpdate(s: State, s': State, q: Target)
    requires Has(s, q) && Has(s', q)
    requires s'.global == SetQueue(s, q, QueueAt(s', q)).global
    requires s'.locals == SetQueue(s, q, QueueAt(s', q)).locals
    ensures Queued(s') == Queued(s) - QueueLength(QueueAt(s, q)) + QueueLength(QueueAt(s', q))
  {
    if q.Local? {
      TotalUpdate(QueueLength, s.locals, q.w, s'.locals[q.w]);
    }
  }

  lemma QueuedPop(s: State, s': State, q: Target)
    requires Has(s, q) && Has(s', q) && !QueueAt(s, q).Empty()
    requires s'.global == SetQueue(s, q, QueueAt(s, q).Pop()).global
    requires s'.locals == SetQueue(s, q, QueueAt(s, q).Pop()).locals
    ensures Queued(s') == Queued(s) - 1
  {
    QueuedUpdate(s, s', q);
  }

  lemma QueuedPush(s: State, s': State, k: nat, q: Target, t: Task)
    requires Pushed(s, s', k, q, t) && QueueAt(s, q).popped <= |QueueAt(s, q).pushed|
    ensures Queued(s') == Queued(s) + 1
  {
    QueuedUpdate(s, s', q);
  }

  // ---- each kind of action ----

  lemma RestLedger(s: State, s': State, w: nat)
    requires Ledger(s) && OnlyWorker(s, s', w) && !Holding(s.workers[w].pc) && !Holding(s'.workers[w].pc)
    ensures Ledger(s')
  {
    WorkerCounts(s, s', w);
  }

  lemma TookLedger(s: State, s': State, w: nat, q: Target)
    requires Ledger(s) && Took(s, s', w, q) && !Holding(s.workers[w].pc)
    ensures Ledger(s')
  {
    WorkerCounts(s, s', w);
    QueuedPop(s, s', q);
  }

  lemma ProbeLedger(s: State, w: nat, lock: bool)
    requires Shape(s) && Ledger(s) && w < |s.workers| && s.workers[w].pc.Probe?
    ensures Ledger(StepProbe(s, w, lock))
  {
    ProbeEffect(s, w, lock);
    if lock && Has(s, Probed(s, w)) && !QueueAt(s, Probed(s, w)).Empty() {
      TookLedger(s, StepProbe(s, w, lock), w, Probed(s, w));
    } else {
      RestLedger(s, StepProbe(s, w, lock), w);
    }
  }

  lemma TaskLedger(s: State, w: nat)
    requires Ledger(s) && w < |s.workers| && Holding(s.workers[w].pc)
    ensures Ledger(StepTask(s, w))
  {
    WorkerCounts(s, StepTask(s, w), w);
  }

  lemma BeginLedger(s: State, k: nat, c: Call)
    requires Ledger(s) && k < |s.calls| && s.calls[k] == NoCall && Entry(s, c)
    ensures Ledger(StepBegin(s, k, c))
  {
    CallCounts(s, StepBegin(s, k, c), k);
  }

  lemma AttemptLedger(s: State, s': State, k: nat, q: Target)
    requires Shape(s) && Ledger(s) && k < |s.calls| && (s.calls[k].SubPush? || s.calls[k].SubSpill?)
    requires Attempted(s, s', k, q, s.calls[k].task)
    ensures Ledger(s')
  {
    CallCounts(s, s', k);
    if !QueueAt(s, q).Full() {
      QueuedPush(s, s', k, q, s.calls[k].task);
    }
  }

  lemma AnswerLedger(s: State, k: nat)
    requires Shape(s) && Ledger(s) && k < |s.calls| && InSubmit(s.calls[k])
    requires !s.calls[k].SubPush? && !s.calls[k].SubSpill?
    ensures Ledger(StepSubmit(s, k))
  {
    CallCounts(s, StepSubmit(s, k), k);
  }

  lemma IdleLedger(s: State, k: nat)
    requires Ledger(s) && k < |s.calls| && InIdle(s.calls[k])
    ensures Ledger(StepIdle(s, k))
  {
    CallCounts(s, StepIdle(s, k), k);
  }

  lemma ShutLedger(s: State, k: nat)
    requires Ledger(s) && k < |s.calls| && (s.calls[k].ShutFlag? || s.calls[k].ShutJoin? || s.calls[k].ShutDone?)
    ensures Ledger(StepShut(s, k))
  {
    CallCounts(s, StepShut(s, k), k);
  }

  lemma CancelLedger(s: State, k: nat)
    requires Shape(s) && Ledger(s) && k < |s.calls| && InCancel(s.calls[k])
    ensures Ledger(StepCancel(s, k))
  {
    var c := s.calls[k];
    assert CallShape(s, k, c);
    if c.CancelDrain? && |c.batch| < BATCH && !QueueAt(s, c.from).Empty() {
      DrainLedger(s, StepCancel(s, k), k, c.from, c.batch);
    } else {
      CancelRestLedger(s, k);
    }
  }

  lemma DrainLedger(s: State, s': State, k: nat, q: Target, batch: seq<Task>)
    requires Ledger(s) && k < |s.calls| && s.calls[k] == CancelDrain(q, batch)
    requires Has(s, q) && !QueueAt(s, q).Empty()
    requires s' == SetQueue(SetCall(s, k, CancelDrain(q, batch + [QueueAt(s, q).pushed[QueueAt(s, q).popped]])), q,
                            QueueAt(s, q).Pop())
    ensures Ledger(s')
  {
    CallCounts(s, s', k);
    QueuedPop(s, s', q);
  }

  lemma CancelRestLedger(s: State, k: nat)
    requires Shape(s) && Ledger(s) && k < |s.calls| && InCancel(s.calls[k]) && CallShape(s, k, s.calls[k])
    requires s.calls[k].CancelDrain? ==> |s.calls[k].batch| >= BATCH || QueueAt(s, s.calls[k].from).Empty()
    ensures Ledger(StepCancel(s, k))
  {
    CancelRestEffect(s, k);
    CallCounts(s, StepCancel(s, k), k);
  }

  lemma CancelRestEffect(s: State, k: nat)
    requires Shape(s) && k < |s.calls| && InCancel(s.calls[k]) && CallShape(s, k, s.calls[k])
    requires s.calls[k].CancelDrain? ==> |s.calls[k].batch| >= BATCH || QueueAt(s, s.calls[k].from).Empty()
    ensures var s', c := StepCancel(s, k), s.calls[k];
            && s'.global == s.global && s'.locals == s.locals && s'.workers == s.workers
            && s'.calls == s.calls[k := s'.calls[k]]
            && !InSubmit(s'.calls[k])
            && s'.log == s.log.(dropped := s'.log.dropped)
            && s'.count == s.count.(canceled := s'.count.canceled)
            && |s'.log.dropped| + Drained(s'.calls[k]) == |s.log.dropped| + Drained(c)
            && |s'.log.dropped| - |s.log.dropped|
               == s'.count.canceled - s.count.canceled + Untallied(s'.calls[k]) - Untallied(c)
  {
  }

  lemma LedgerKept(s: State, a: Action)
    requires Shape(s) && Ledger(s) && Enabled(s, a)
    ensures Ledger(Apply(s, a))
  {
    match a
    case WStep(w) =>
      if s.workers[w].pc.Probe? {
        ProbeLedger(s, w, true);
      } else if Holding(s.workers[w].pc) {
        TaskLedger(s, w);
      } else {
        RoundEffect(s, w);
        RestLedger(s, Apply(s, a), w);
      }
    case WContend(w) => ProbeLedger(s, w, false);
    case Begin(k, c) => BeginLedger(s, k, c);
    case CStep(k) =>
      if s.calls[k].SubPush? || s.calls[k].SubSpill? {
        var q := AttemptEffect(s, k);
        AttemptLedger(s, StepAttempt(s, k, s.calls[k].task), k, q);
      } else if InSubmit(s.calls[k]) {
        AnswerLedger(s, k);
      } else if InIdle(s.calls[k]) {
        IdleLedger(s, k);
      } else if InCancel(s.calls[k]) {
        CancelLedger(s, k);
      } else {
        ShutLedger(s, k);
      }
  }

  lemma InitialLedger(cfg: Config, localRoom: nat, globalRoom: nat, clients: nat)
    ensures Ledger(Initial(cfg, localRoom, globalRoom, clients))
  {
    var s := Initial(cfg, localRoom, globalRoom, clients);
    TotalRange(Pledged, s.calls, 0);
    TotalRange(Entered, s.calls, 0);
    TotalRange(Drained, s.calls, 0);
    TotalRange(Untallied, s.calls, 0);
    TotalRange(PickedUp, s.workers, 0);
    TotalRange(Executing, s.workers, 0);
    TotalRange(Unfinished, s.workers, 0);
    TotalRange(QueueLength, s.locals, 0);
  }

  // ---- consequences ----

  /** With no call in flight and no task in hand, the statistics add up. */
  lemma RestingLedger(s: State)
    requires Ledger(s)
    requires forall k :: 0 <= k < |s.calls| ==> !InSubmit(s.calls[k]) && !InCancel(s.calls[k])
    requires forall w :: 0 <= w < |s.workers| ==> !Holding(s.workers[w].pc)
    ensures s.count.submitted
         == s.count.completed + s.count.canceled + |s.log.overflowed| + Queued(s)
    ensures s.count.pending == Queued(s) + s.count.canceled
    ensures s.count.active == 0
  {
    TotalRange(Pledged, s.calls, 0);
    TotalRange(Entered, s.calls, 0);
    TotalRange(Drained, s.calls, 0);
    TotalRange(Untallied, s.calls, 0);
    TotalRange(PickedUp, s.workers, 0);
    TotalRange(Executing, s.workers, 0);
    TotalRange(Unfinished, s.workers, 0);
  }

  /** What the order of the counter updates is for: active is raised before pending is
      lowered, and completed before active is lowered, so that a task in a worker's hand
      is always counted as pending or as active until it is counted as completed. */
  lemma AlwaysCounted(s: State, w: nat)
    requires Ledger(s) && w < |s.workers| && Holding(s.workers[w].pc) && !s.workers[w].pc.Leaving?
    ensures s.count.pending > 0 || s.count.active > 0
  {
    TotalNonNegative(Pledged, s.calls);
    TotalNonNegative(QueueLength, s.locals);
    TotalNonNegative(Drained, s.calls);
    TotalBounds(PickedUp, s.workers, w);
    TotalBounds(Executing, s.workers, w);
  }
}
