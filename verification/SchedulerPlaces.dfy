/** Conservation of tasks. Every task ever handed to fq_scheduler_submit is in
    exactly one place, at every moment of every run. */
module SchedulerPlaces {
  import opened Common
  import opened SchedulerModel
  import opened SchedulerShape

  // ---- where a task can be ----

  /** `c` is a submit of `t` that has not raised tasks_pending yet. */
  predicate Announces(c: Call, t: Task) {
    (c.SubFlag? || c.SubCount? || c.SubRaise?) && c.task == t
  }

  /** `c` is a submit of `t` that has raised tasks_pending and is not through. */
  predicate Offers(c: Call, t: Task) {
    (c.SubPush? || c.SubSpill? || c.SubUndo?) && c.task == t
  }

  /** The occurrences of `t` in the batch a cancel_all has drained. */
  function InBatch(c: Call, t: Task): int {
    if c.CancelDrain? || c.CancelDestroy? || c.CancelTally? then multiset(c.batch)[t] else 0
  }

  /** A worker holds its task from the pop until the task is counted as completed. */
  predicate Holds(w: Worker, t: Task) {
    (w.pc.Found? || w.pc.Raised? || w.pc.Running? || w.pc.Returned?) && w.pc.task == t
  }

  function InQueue(f: Fifo, t: Task): int {
    multiset(f.Items())[t]
  }

  ghost function Announcing(t: Task): Call -> int { c => Bit(Announces(c, t)) }
  ghost function Offering(t: Task): Call -> int { c => Bit(Offers(c, t)) }
  ghost function Batching(t: Task): Call -> int { c => InBatch(c, t) }
  ghost function Handling(t: Task): Worker -> int { w => Bit(Holds(w, t)) }
  ghost function Queueing(t: Task): Fifo -> int { f => InQueue(f, t) }

  ghost function Waiting(s: State, t: Task): int {
    InQueue(s.global, t) + Total(Queueing(t), s.locals)
  }

  ghost function Held(s: State, t: Task): int {
    Total(Handling(t), s.workers) + Total(Batching(t), s.calls)
  }

  ghost function Settled(s: State, t: Task): int {
    multiset(s.log.ran)[t] + multiset(s.log.dropped)[t]
  }

  /** The number of places an accepted task is found in. */
  ghost function Places(s: State, t: Task): int {
    Waiting(s, t) + Held(s, t) + Settled(s, t)
  }

  /** The law for one task: the places it is in, counted with multiplicity. */
  ghost predicate ConservedFor(s: State, t: Task) {
    && AnnouncedOnce(s, t)
    && OfferedOnce(s, t)
    && AcceptedOnce(s, t)
    && Bit(t in s.log.unraised) + Bit(t in s.log.offered) + Bit(t in s.log.accepted) <= 1
  }

  ghost predicate AnnouncedOnce(s: State, t: Task) {
    Total(Announcing(t), s.calls) + multiset(s.log.refused)[t] == Bit(t in s.log.unraised)
  }

  ghost predicate OfferedOnce(s: State, t: Task) {
    Total(Offering(t), s.calls) + multiset(s.log.overflowed)[t] == Bit(t in s.log.offered)
  }

  ghost predicate AcceptedOnce(s: State, t: Task) {
    Places(s, t) == Bit(t in s.log.accepted)
  }

  ghost predicate Conserved(s: State) {
    forall t :: ConservedFor(s, t)
  }

  // ---- updating one thread or queue ----

  lemma CallTotals(s: State, s': State, k: nat, t: Task)
    requires k < |s.calls| == |s'.calls| && s'.calls == s.calls[k := s'.calls[k]]
    ensures var c, c' := s.calls[k], s'.calls[k];
            && Total(Announcing(t), s'.calls)
               == Total(Announcing(t), s.calls) - Bit(Announces(c, t)) + Bit(Announces(c', t))
            && Total(Offering(t), s'.calls) == Total(Offering(t), s.calls) - Bit(Offers(c, t)) + Bit(Offers(c', t))
            && Total(Batching(t), s'.calls) == Total(Batching(t), s.calls) - InBatch(c, t) + InBatch(c', t)
  {
    TotalUpdate(Announcing(t), s.calls, k, s'.calls[k]);
    TotalUpdate(Offering(t), s.calls, k, s'.calls[k]);
    TotalUpdate(Batching(t), s.calls, k, s'.calls[k]);
  }

  lemma WorkerTotals(s: State, s': State, w: nat, t: Task)
    requires w < |s.workers| == |s'.workers| && s'.workers == s.workers[w := s'.workers[w]]
    ensures Total(Handling(t), s'.workers)
         == Total(Handling(t), s.workers) - Bit(Holds(s.workers[w], t)) + Bit(Holds(s'.workers[w], t))
  {
    TotalUpdate(Handling(t), s.workers, w, s'.workers[w]);
  }

  lemma FifoPush(f: Fifo, x: Task, t: Task)
    requires f.popped <= |f.pushed|
    ensures InQueue(f.Push(x), t) == InQueue(f, t) + Bit(x == t)
  {
    assert f.Push(x).Items() == f.Items() + [x];
  }

  lemma FifoPop(f: Fifo, t: Task)
    requires f.popped < |f.pushed|
    ensures InQueue(f.Pop(), t) == InQueue(f, t) - Bit(f.pushed[f.popped] == t)
  {
    assert f.Items() == [f.pushed[f.popped]] + f.Pop().Items();
  }

  lemma WaitingUpdate(s: State, s': State, q: Target, t: Task)
    requires Has(s, q) && Has(s', q)
    requires s'.global == SetQueue(s, q, QueueAt(s', q)).global
    requires s'.locals == SetQueue(s, q, QueueAt(s', q)).locals
    ensures Waiting(s', t) == Waiting(s, t) - InQueue(QueueAt(s, q), t) + InQueue(QueueAt(s', q), t)
  {
    if q.Local? {
      TotalUpdate(Queueing(t), s.locals, q.w, s'.locals[q.w]);
    }
  }

  // ---- each kind of action, for one task ----

  lemma RoundPlaces(s: State, s': State, w: nat, t: Task)
    requires ConservedFor(s, t) && OnlyWorker(s, s', w)
    requires !Holding(s.workers[w].pc) && !Holding(s'.workers[w].pc)
    ensures ConservedFor(s', t)
  {
    WorkerTotals(s, s', w, t);
  }

  /** A pop moves a task from the queue to the hand. */
  lemma TookPlaces(s: State, s': State, w: nat, q: Target, t: Task)
    requires ConservedFor(s, t) && Took(s, s', w, q) && !Holding(s.workers[w].pc)
    ensures ConservedFor(s', t)
  {
    WorkerTotals(s, s', w, t);
    PoppedWaiting(s, s', q, t);
  }

  lemma ProbePlaces(s: State, w: nat, lock: bool, t: Task)
    requires Shape(s) && ConservedFor(s, t) && w < |s.workers| && s.workers[w].pc.Probe?
    ensures ConservedFor(StepProbe(s, w, lock), t)
  {
    ProbeEffect(s, w, lock);
    if lock && Has(s, Probed(s, w)) && !QueueAt(s, Probed(s, w)).Empty() {
      TookPlaces(s, StepProbe(s, w, lock), w, Probed(s, w), t);
    } else {
      RoundPlaces(s, StepProbe(s, w, lock), w, t);
    }
  }

  lemma TaskPlaces(s: State, s': State, w: nat, t: Task)
    requires ConservedFor(s, t) && Handled(s, s', w)
    ensures ConservedFor(s', t)
  {
    WorkerTotals(s, s', w, t);
    assert AcceptedOnce(s', t);
  }

  lemma BeginPlaces(s: State, k: nat, c: Call, t: Task)
    requires ConservedFor(s, t) && k < |s.calls| && s.calls[k] == NoCall && Entry(s, c)
    ensures ConservedFor(StepBegin(s, k, c), t)
  {
    CallTotals(s, StepBegin(s, k, c), k, t);
  }

  lemma SubmitPlaces(s: State, k: nat, t: Task)
    requires Shape(s) && Conserved(s) && k < |s.calls| && InSubmit(s.calls[k])
    ensures ConservedFor(StepSubmit(s, k), t)
  {
    if s.calls[k].SubPush? || s.calls[k].SubSpill? {
      var q := AttemptEffect(s, k);
      AttemptPlaces(s, StepAttempt(s, k, s.calls[k].task), k, q, t);
    } else if s.calls[k].SubRaise? {
      RaisePlaces(s, k, t);
    } else {
      assert ConservedFor(s, t);
      AnswerPlaces(s, k, t);
    }
  }

  lemma AnswerPlaces(s: State, k: nat, t: Task)
    requires Shape(s) && ConservedFor(s, t) && k < |s.calls|
    requires s.calls[k].SubFlag? || s.calls[k].SubCount? || s.calls[k].SubUndo? || s.calls[k].SubDone?
    ensures ConservedFor(StepSubmit(s, k), t)
  {
    var s', c := StepSubmit(s, k), s.calls[k];
    CallTotals(s, s', k, t);
    AnswerLog(s, k, t);
  }

  /** Only a refusal or an overflow leaves a trace in the history. */
  lemma AnswerLog(s: State, k: nat, t: Task)
    requires Shape(s) && k < |s.calls|
    requires s.calls[k].SubFlag? || s.calls[k].SubCount? || s.calls[k].SubUndo? || s.calls[k].SubDone?
    ensures var s', c := StepSubmit(s, k), s.calls[k];
            && s' == s.(calls := s.calls[k := s'.calls[k]], count := s'.count, log := s'.log)
            && s'.log == s.log.(refused := s'.log.refused, overflowed := s'.log.overflowed)
            && InBatch(s'.calls[k], t) == InBatch(c, t) == 0
            && multiset(s'.log.refused)[t] - multiset(s.log.refused)[t]
               == Bit(Announces(c, t)) - Bit(Announces(s'.calls[k], t))
            && multiset(s'.log.overflowed)[t] - multiset(s.log.overflowed)[t]
               == Bit(Offers(c, t)) - Bit(Offers(s'.calls[k], t))
  {
  }

  lemma RaisePlaces(s: State, k: nat, t: Task)
    requires Shape(s) && Conserved(s) && k < |s.calls| && s.calls[k].SubRaise?
    ensures ConservedFor(StepSubmit(s, k), t)
  {
    assert ConservedFor(s, t) && ConservedFor(s, s.calls[k].task);
    AnnouncedTask(s, k);
    CallTotals(s, StepSubmit(s, k), k, t);
  }

  /** The task of a submit in progress is in the set its phase says. */
  lemma AnnouncedTask(s: State, k: nat)
    requires Conserved(s) && k < |s.calls|
    ensures s.calls[k].SubFlag? || s.calls[k].SubCount? || s.calls[k].SubRaise? ==> s.calls[k].task in s.log.unraised
    ensures s.calls[k].SubPush? || s.calls[k].SubSpill? || s.calls[k].SubUndo? ==> s.calls[k].task in s.log.offered
  {
    if InSubmit(s.calls[k]) {
      var t := s.calls[k].task;
      assert ConservedFor(s, t);
      TotalBounds(Announcing(t), s.calls, k);
      TotalBounds(Offering(t), s.calls, k);
    }
  }

  lemma AttemptPlaces(s: State, s': State, k: nat, q: Target, t: Task)
    requires Shape(s) && Conserved(s) && k < |s.calls| && (s.calls[k].SubPush? || s.calls[k].SubSpill?)
    requires Attempted(s, s', k, q, s.calls[k].task)
    ensures ConservedFor(s', t)
  {
    assert ConservedFor(s, t) && ConservedFor(s, s.calls[k].task);
    AnnouncedTask(s, k);
    if QueueAt(s, q).Full() {
      FullPlaces(s, s', k, t);
    } else {
      PushedPlaces(s, s', k, q, s.calls[k].task, t);
    }
  }

  lemma FullPlaces(s: State, s': State, k: nat, t: Task)
    requires ConservedFor(s, t) && OnlyCall(s, s', k) && (s.calls[k].SubPush? || s.calls[k].SubSpill?)
    requires s'.calls[k] == SubUndo(s.calls[k].task) || s'.calls[k] == SubSpill(s.calls[k].task)
    ensures ConservedFor(s', t)
  {
    CallTotals(s, s', k, t);
  }

  /** A push moves the offered task into a queue, and it is accepted. */
  lemma PushedPlaces(s: State, s': State, k: nat, q: Target, x: Task, t: Task)
    requires ConservedFor(s, t) && ConservedFor(s, x) && x in s.log.offered && Pushed(s, s', k, q, x)
    requires s.calls[k] == SubPush(x) || s.calls[k] == SubSpill(x)
    requires QueueAt(s, q).popped <= |QueueAt(s, q).pushed|
    ensures ConservedFor(s', t)
  {
    assert s'.log == s.log.(offered := s.log.offered - {x}, accepted := s.log.accepted + {x});
    PushedAccepted(s, s', k, q, x, t);
    PushedOffered(s, s', k, x, t);
  }

  lemma PushedOffered(s: State, s': State, k: nat, x: Task, t: Task)
    requires AnnouncedOnce(s, t) && OfferedOnce(s, t) && x in s.log.offered && k < |s.calls|
    requires s.calls[k] == SubPush(x) || s.calls[k] == SubSpill(x)
    requires s'.calls == s.calls[k := SubDone(x, OK)]
    requires s'.log == s.log.(offered := s.log.offered - {x}, accepted := s.log.accepted + {x})
    ensures AnnouncedOnce(s', t) && OfferedOnce(s', t)
  {
    CallTotals(s, s', k, t);
  }

  lemma PushedAccepted(s: State, s': State, k: nat, q: Target, x: Task, t: Task)
    requires AcceptedOnce(s, t) && x !in s.log.accepted && Pushed(s, s', k, q, x)
    requires s.calls[k] == SubPush(x) || s.calls[k] == SubSpill(x)
    requires QueueAt(s, q).popped <= |QueueAt(s, q).pushed|
    ensures AcceptedOnce(s', t)
  {
    CallTotals(s, s', k, t);
    PushedWaiting(s, s', k, q, x, t);
  }

  lemma PushedWaiting(s: State, s': State, k: nat, q: Target, x: Task, t: Task)
    requires Pushed(s, s', k, q, x) && QueueAt(s, q).popped <= |QueueAt(s, q).pushed|
    ensures Waiting(s', t) == Waiting(s, t) + Bit(x == t)
  {
    WaitingUpdate(s, s', q, t);
    FifoPush(QueueAt(s, q), x, t);
  }

  /** A pop takes the oldest task of a queue out of the waiting ones. */
  lemma PoppedWaiting(s: State, s': State, q: Target, t: Task)
    requires Has(s, q) && Has(s', q) && !QueueAt(s, q).Empty()
    requires s'.global == SetQueue(s, q, QueueAt(s, q).Pop()).global
    requires s'.locals == SetQueue(s, q, QueueAt(s, q).Pop()).locals
    ensures Waiting(s', t) == Waiting(s, t) - Bit(QueueAt(s, q).pushed[QueueAt(s, q).popped] == t)
  {
    WaitingUpdate(s, s', q, t);
    FifoPop(QueueAt(s, q), t);
  }

  lemma IdlePlaces(s: State, k: nat, t: Task)
    requires ConservedFor(s, t) && k < |s.calls| && InIdle(s.calls[k])
    ensures ConservedFor(StepIdle(s, k), t)
  {
    CallTotals(s, StepIdle(s, k), k, t);
  }

  lemma ShutPlaces(s: State, k: nat, t: Task)
    requires ConservedFor(s, t) && k < |s.calls|
    requires s.calls[k].ShutFlag? || s.calls[k].ShutJoin? || s.calls[k].ShutDone?
    ensures ConservedFor(StepShut(s, k), t)
  {
    CallTotals(s, StepShut(s, k), k, t);
  }

  lemma CancelPlaces(s: State, k: nat, t: Task)
    requires Shape(s) && ConservedFor(s, t) && k < |s.calls| && InCancel(s.calls[k])
    ensures ConservedFor(StepCancel(s, k), t)
  {
    var c, s' := s.calls[k], StepCancel(s, k);
    assert CallShape(s, k, c);
    if c.CancelDrain? && |c.batch| < BATCH && !QueueAt(s, c.from).Empty() {
      DrainPlaces(s, s', k, c.from, c.batch, t);
    } else if c.CancelDestroy? && c.batch != [] {
      DestroyPlaces(s, s', k, c.from, c.batch, t);
    } else {
      CancelKeepsBatch(s, k, t);
      StayPlaces(s, s', k, t);
    }
  }

  lemma CancelKeepsBatch(s: State, k: nat, t: Task)
    requires Shape(s) && k < |s.calls| && InCancel(s.calls[k]) && CallShape(s, k, s.calls[k])
    requires s.calls[k].CancelDrain? ==> |s.calls[k].batch| >= BATCH || QueueAt(s, s.calls[k].from).Empty()
    requires s.calls[k].CancelDestroy? ==> s.calls[k].batch == []
    ensures var s' := StepCancel(s, k);
            && s' == s.(calls := s.calls[k := s'.calls[k]], shut := s'.shut, count := s'.count)
            && InBatch(s'.calls[k], t) == InBatch(s.calls[k], t)
            && !InSubmit(s'.calls[k])
  {
  }

  lemma StayPlaces(s: State, s': State, k: nat, t: Task)
    requires ConservedFor(s, t) && k < |s.calls| == |s'.calls|
    requires s' == s.(calls := s.calls[k := s'.calls[k]], shut := s'.shut, count := s'.count)
    requires InBatch(s'.calls[k], t) == InBatch(s.calls[k], t) && !InSubmit(s.calls[k]) && !InSubmit(s'.calls[k])
    ensures ConservedFor(s', t)
  {
    CallTotals(s, s', k, t);
    assert AcceptedOnce(s', t);
  }

  /** A drain moves a task from the queue to the batch. */
  lemma DrainPlaces(s: State, s': State, k: nat, q: Target, batch: seq<Task>, t: Task)
    requires ConservedFor(s, t) && k < |s.calls| && s.calls[k] == CancelDrain(q, batch)
    requires Has(s, q) && !QueueAt(s, q).Empty()
    requires s' == SetQueue(SetCall(s, k, CancelDrain(q, batch + [QueueAt(s, q).pushed[QueueAt(s, q).popped]])), q,
                            QueueAt(s, q).Pop())
    ensures ConservedFor(s', t)
  {
    CallTotals(s, s', k, t);
    PoppedWaiting(s, s', q, t);
    assert AcceptedOnce(s', t);
  }

  /** Destroying a drained task moves it from the batch to the dropped ones. */
  lemma DestroyPlaces(s: State, s': State, k: nat, q: Target, batch: seq<Task>, t: Task)
    requires ConservedFor(s, t) && k < |s.calls| && s.calls[k] == CancelDestroy(q, batch) && batch != []
    requires s' == SetCall(s, k, CancelTally(q, batch[1..])).(log := s.log.(dropped := s.log.dropped + [batch[0]]))
    ensures ConservedFor(s', t)
  {
    CallTotals(s, s', k, t);
    assert batch == [batch[0]] + batch[1..];
    assert AcceptedOnce(s', t);
  }

  lemma ConservedKept(s: State, a: Action)
    requires Shape(s) && Conserved(s) && Enabled(s, a)
    ensures Conserved(Apply(s, a))
  {
    forall t
      ensures ConservedFor(Apply(s, a), t)
    {
      assert ConservedFor(s, t);
      match a
      case WStep(w) =>
        if s.workers[w].pc.Probe? {
          ProbePlaces(s, w, true, t);
        } else if Holding(s.workers[w].pc) {
          TaskEffect(s, w);
          TaskPlaces(s, Apply(s, a), w, t);
        } else {
          RoundEffect(s, w);
          RoundPlaces(s, Apply(s, a), w, t);
        }
      case WContend(w) => ProbePlaces(s, w, false, t);
      case Begin(k, c) => BeginPlaces(s, k, c, t);
      case CStep(k) =>
        if InSubmit(s.calls[k]) {
          SubmitPlaces(s, k, t);
        } else if InIdle(s.calls[k]) {
          IdlePlaces(s, k, t);
        } else if InCancel(s.calls[k]) {
          CancelPlaces(s, k, t);
        } else {
          ShutPlaces(s, k, t);
        }
    }
  }

  lemma InitialConserved(cfg: Config, localRoom: nat, globalRoom: nat, clients: nat)
    ensures Conserved(Initial(cfg, localRoom, globalRoom, clients))
  {
    var s := Initial(cfg, localRoom, globalRoom, clients);
    forall t
      ensures ConservedFor(s, t)
    {
      TotalRange(Announcing(t), s.calls, 0);
      TotalRange(Offering(t), s.calls, 0);
      TotalRange(Batching(t), s.calls, 0);
      TotalRange(Handling(t), s.workers, 0);
      TotalRange(Queueing(t), s.locals, 0);
    }
  }

  // ---- reading the law ----

  /** All terms of the law are counts. */
  lemma PlacesTerms(s: State, t: Task)
    ensures InQueue(s.global, t) >= 0 && Total(Queueing(t), s.locals) >= 0
    ensures Total(Handling(t), s.workers) >= 0 && Total(Batching(t), s.calls) >= 0
    ensures Total(Offering(t), s.calls) >= 0 && Total(Announcing(t), s.calls) >= 0
  {
    TotalNonNegative(Queueing(t), s.locals);
    TotalNonNegative(Handling(t), s.workers);
    TotalNonNegative(Batching(t), s.calls);
    TotalNonNegative(Offering(t), s.calls);
    TotalNonNegative(Announcing(t), s.calls);
  }

  /** A task in a worker's hand has been accepted and is nowhere else. */
  lemma HeldOnce(s: State, w: nat, t: Task)
    requires Conserved(s) && w < |s.workers| && Holds(s.workers[w], t)
    ensures t in s.log.accepted && Waiting(s, t) == 0 && t !in s.log.ran && t !in s.log.dropped
    ensures Total(Batching(t), s.calls) == 0
    ensures forall v :: 0 <= v < |s.workers| && v != w ==> !Holds(s.workers[v], t)
  {
    assert ConservedFor(s, t);
    PlacesTerms(s, t);
    TotalBounds(Handling(t), s.workers, w);
    forall v | 0 <= v < |s.workers| && v != w
      ensures !Holds(s.workers[v], t)
    {
      if Holds(s.workers[v], t) {
        TotalTwo(Handling(t), s.workers, v, w);
      }
    }
  }

  /** A task in a queue has been accepted, is there once and is nowhere else. */
  lemma QueuedOnce(s: State, q: Target, t: Task)
    requires Conserved(s) && Has(s, q) && t in QueueAt(s, q).Items()
    ensures t in s.log.accepted && t !in s.log.ran && t !in s.log.dropped
    ensures InQueue(QueueAt(s, q), t) == 1 && Held(s, t) == 0
    ensures forall p :: Has(s, p) && p != q ==> t !in QueueAt(s, p).Items()
  {
    assert ConservedFor(s, t);
    PlacesTerms(s, t);
    if q.Local? {
      TotalBounds(Queueing(t), s.locals, q.w);
    }
    forall p | Has(s, p) && p != q
      ensures t !in QueueAt(s, p).Items()
    {
      NotInTwo(s, p, q, t);
    }
  }

  /** What two queues hold of `t` together. */
  lemma NotInTwo(s: State, p: Target, q: Target, t: Task)
    requires Has(s, p) && Has(s, q) && p != q && Waiting(s, t) <= 1 && t in QueueAt(s, q).Items()
    ensures t !in QueueAt(s, p).Items()
  {
    TotalNonNegative(Queueing(t), s.locals);
    if p.Local? {
      TotalBounds(Queueing(t), s.locals, p.w);
    }
    if q.Local? {
      TotalBounds(Queueing(t), s.locals, q.w);
    }
    if p.Local? && q.Local? {
      TotalTwo(Queueing(t), s.locals, p.w, q.w);
    }
  }
}
