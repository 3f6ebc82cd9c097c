/** fq_scheduler_is_idle and fq_scheduler_wait_idle under concurrent submitters:
    what a true answer means, and when it means that the scheduler is idle. */
module SchedulerIdle {
  import opened Common
  import opened SchedulerModel
  import opened SchedulerShape
  import opened SchedulerPlaces
  import opened SchedulerLedger

  /** Everything proved so far about a single state. */
  ghost predicate Sound(s: State) {
    Shape(s) && Conserved(s) && Ledger(s)
  }

  lemma SoundKept(s: State, a: Action)
    requires Sound(s) && Enabled(s, a)
    ensures Sound(Apply(s, a))
  {
    ShapeKept(s, a);
    ConservedKept(s, a);
    LedgerKept(s, a);
  }

  /** The submit is over: rejected for lack of room, or executed and counted. */
  ghost predicate Done(s: State, t: Task) {
    t in s.log.overflowed || t in s.log.ran
  }

  /** Some worker is executing `t` and has lowered tasks_pending. */
  ghost predicate Working(s: State, t: Task) {
    exists w :: 0 <= w < |s.workers| && Executes(s.workers[w].pc, t)
  }

  predicate Executes(pc: WPc, t: Task) {
    (pc.Running? || pc.Returned?) && pc.task == t
  }

  /** The tasks whose submit has raised tasks_pending. */
  ghost function RaisedTasks(s: State): set<Task> {
    s.log.offered + s.log.accepted
  }

  // ---- a zero in tasks_pending ----

  /** With tasks_pending at zero, no task is between its pending increment and the
      moment a worker lowers it again. */
  lemma ZeroPending(s: State)
    requires Sound(s) && s.count.pending == 0
    ensures Queued(s) == 0 && s.log.dropped == []
    ensures Total(Pledged, s.calls) == 0 && Total(PickedUp, s.workers) == 0 && Total(Drained, s.calls) == 0
  {
    TotalNonNegative(Pledged, s.calls);
    TotalNonNegative(PickedUp, s.workers);
    TotalNonNegative(Drained, s.calls);
    TotalNonNegative(QueueLength, s.locals);
  }

  /** Hence each raised task is done or being executed. */
  lemma ZeroPendingTask(s: State, t: Task)
    requires Sound(s) && s.count.pending == 0 && t in RaisedTasks(s)
    ensures Done(s, t) || Working(s, t)
  {
    ZeroPending(s);
    assert ConservedFor(s, t);
    if t in s.log.offered {
      NobodyOffers(s, t);
    } else {
      NothingWaits(s, t);
      NothingBatched(s, t);
      if Total(Handling(t), s.workers) > 0 {
        var w := TotalSource(Handling(t), s.workers);
        TotalBounds(PickedUp, s.workers, w);
        assert Executes(s.workers[w].pc, t);
      }
    }
  }

  lemma NobodyOffers(s: State, t: Task)
    requires Total(Pledged, s.calls) == 0
    ensures Total(Offering(t), s.calls) <= 0
  {
    if Total(Offering(t), s.calls) > 0 {
      var k := TotalSource(Offering(t), s.calls);
      TotalBounds(Pledged, s.calls, k);
    }
  }

  lemma NothingWaits(s: State, t: Task)
    requires Shape(s) && Queued(s) == 0
    ensures Waiting(s, t) <= 0
  {
    TotalNonNegative(QueueLength, s.locals);
    if Total(Queueing(t), s.locals) > 0 {
      var i := TotalSource(Queueing(t), s.locals);
      TotalBounds(QueueLength, s.locals, i);
    }
  }

  lemma NothingBatched(s: State, t: Task)
    requires Total(Drained, s.calls) == 0
    ensures Total(Batching(t), s.calls) <= 0
  {
    if Total(Batching(t), s.calls) > 0 {
      var k := TotalSource(Batching(t), s.calls);
      TotalBounds(Drained, s.calls, k);
    }
  }

  // ---- the two passes ----

  /** What the progress of one is_idle call guarantees about its snapshot, the
      tasks raised before its second read of tasks_pending. */
  ghost predicate SnapSound(s: State, c: Call) {
    match c
    case IdleActive2(p, snap) => p == 0 ==> forall t :: t in snap ==> Done(s, t) || Working(s, t)
    case IdleDone(idle, snap) => idle ==> forall t :: t in snap ==> Done(s, t)
    case _ => true
  }

  ghost predicate SnapsSound(s: State) {
    forall k :: 0 <= k < |s.calls| ==> SnapSound(s, s.calls[k])
  }

  /** Done is for good, and who is executing stays so until done: workers raise
      tasks_completed before they lower tasks_active. */
  ghost predicate Advances(s: State, s': State) {
    && (forall t :: Done(s, t) ==> Done(s', t))
    && (forall t :: Working(s, t) ==> Done(s', t) || Working(s', t))
  }

  lemma WorkerAdvances(s: State, s': State, w: nat)
    requires w < |s.workers| == |s'.workers|
    requires s'.workers == s.workers[w := s'.workers[w]]
    requires s.log.overflowed <= s'.log.overflowed && s.log.ran <= s'.log.ran
    requires forall t :: Executes(s.workers[w].pc, t) ==> Executes(s'.workers[w].pc, t) || t in s'.log.ran
    ensures Advances(s, s')
  {
    forall t | Working(s, t)
      ensures Done(s', t) || Working(s', t)
    {
      var v :| 0 <= v < |s.workers| && Executes(s.workers[v].pc, t);
      if v != w {
        assert Executes(s'.workers[v].pc, t);
      }
    }
  }

  lemma CallAdvances(s: State, s': State)
    requires s'.workers == s.workers && s'.log.ran == s.log.ran && s.log.overflowed <= s'.log.overflowed
    ensures Advances(s, s')
  {
  }

  lemma WStepAdvances(s: State, a: Action)
    requires Shape(s) && Enabled(s, a) && (a.WStep? || a.WContend?)
    ensures Advances(s, Apply(s, a))
  {
    WStepEffect(s, a);
    if s.workers[a.w].pc.Probe? {
      ProbeEffect(s, a.w, a.WStep?);
    } else if Holding(s.workers[a.w].pc) {
      TaskEffect(s, a.w);
    }
    WorkerAdvances(s, Apply(s, a), a.w);
  }

  lemma SnapStays(s: State, s': State, c: Call)
    requires SnapSound(s, c) && Advances(s, s')
    ensures SnapSound(s', c)
  {
  }

  /** The reads of is_idle itself. */
  lemma IdleStepSound(s: State, k: nat)
    requires Sound(s) && k < |s.calls| && InIdle(s.calls[k]) && SnapSound(s, s.calls[k])
    ensures SnapSound(StepIdle(s, k), StepIdle(s, k).calls[k])
  {
    var s' := StepIdle(s, k);
    match s.calls[k] {
      case IdlePending2 =>
        forall t | t in RaisedTasks(s) && s.count.pending == 0
          ensures Done(s', t) || Working(s', t)
        {
          ZeroPendingTask(s, t);
        }
      case IdleActive2(p, snap) =>
        if p == 0 && s.count.active == 0 {
          forall t | t in snap
            ensures Done(s', t)
          {
            NobodyExecutes(s, t);
          }
        }
      case _ =>
    }
  }

  lemma NobodyExecutes(s: State, t: Task)
    requires Ledger(s) && s.count.active == 0
    ensures !Working(s, t)
  {
    if Working(s, t) {
      var w :| 0 <= w < |s.workers| && Executes(s.workers[w].pc, t);
      TotalBounds(Executing, s.workers, w);
    }
  }

  lemma SnapsKept(s: State, a: Action)
    requires Sound(s) && SnapsSound(s) && Enabled(s, a)
    ensures SnapsSound(Apply(s, a))
  {
    var s' := Apply(s, a);
    match a {
      case WStep(w) =>
        WStepEffect(s, a);
        WStepAdvances(s, a);
      case WContend(w) =>
        WStepEffect(s, a);
        WStepAdvances(s, a);
      case Begin(k, c) => CallAdvances(s, s');
      case CStep(k) =>
        CStepEffect(s, k);
        CallAdvances(s, s');
    }
    forall j | 0 <= j < |s'.calls|
      ensures SnapSound(s', s'.calls[j])
    {
      assert SnapSound(s, s.calls[j]);
      if a == CStep(j) && InIdle(s.calls[j]) {
        IdleStepSound(s, j);
      } else {
        SnapStays(s, s', s.calls[j]);
      }
    }
  }

  // ---- whole calls ----

  /** The snapshot of a call of thread `k` covers at least the tasks `early`. */
  ghost predicate Covers(s: State, k: nat, early: set<Task>) {
    && k < |s.calls| && early <= RaisedTasks(s)
    && (s.calls[k].IdleActive2? ==> early <= s.calls[k].snap)
    && (s.calls[k].IdleDone? && s.calls[k].idle ==> early <= s.calls[k].snap)
  }

  lemma CoversKept(s: State, a: Action, k: nat, early: set<Task>)
    requires Sound(s) && Enabled(s, a) && Covers(s, k, early)
    ensures Covers(Apply(s, a), k, early)
  {
    HistoryGrows(s, a);
    CallsAfter(s, a, k);
    if a == CStep(k) && !InIdle(s.calls[k]) {
      CStepEffect(s, k);
    }
  }

  /** Soundness of is_idle, over every run: if a call that began after state `s`
      answers true, every task whose tasks_pending increment came before `s` has
      been rejected or has been executed to the end and counted. With no call in
      between this is what fq_scheduler_wait_idle waits for. */
  lemma {:induction false} IdleMeansDone(s: State, acts: seq<Action>, k: nat, early: set<Task>)
    requires Sound(s) && SnapsSound(s) && Legal(s, acts) && Covers(s, k, early)
    ensures var s' := Run(s, acts);
            && Sound(s') && SnapsSound(s') && Covers(s', k, early)
            && (s'.calls[k].IdleDone? && s'.calls[k].idle ==> forall t :: t in early ==> Done(s', t))
    decreases |acts|
  {
    if acts == [] {
      assert SnapSound(s, s.calls[k]);
    } else {
      SoundKept(s, acts[0]);
      SnapsKept(s, acts[0]);
      CoversKept(s, acts[0], k, early);
      IdleMeansDone(Apply(s, acts[0]), acts[1..], k, early);
    }
  }

  // ---- when a true answer means idle ----

  /** When nothing is executing, tasks_pending is zero exactly when every raised
      task is done. */
  lemma IdleExactly(s: State)
    requires Sound(s) && s.count.active == 0
    ensures s.count.pending == 0 <==> forall t :: t in RaisedTasks(s) ==> Done(s, t)
  {
    if s.count.pending == 0 {
      forall t | t in RaisedTasks(s)
        ensures Done(s, t)
      {
        ZeroPendingTask(s, t);
        NobodyExecutes(s, t);
      }
    }
    if forall t :: t in RaisedTasks(s) ==> Done(s, t) {
      NothingPledged(s);
      NothingQueued(s);
      NothingPickedUp(s);
      NothingDropped(s);
    }
  }

  /** An accepted task that has not run is raised and not done. */
  lemma NotDone(s: State, t: Task)
    requires Conserved(s) && t in s.log.accepted && t !in s.log.ran
    ensures t in RaisedTasks(s) && !Done(s, t)
  {
    AcceptedNotOverflowed(s, t);
  }

  lemma NothingPledged(s: State)
    requires Sound(s) && forall t :: t in RaisedTasks(s) ==> Done(s, t)
    ensures Total(Pledged, s.calls) == 0
  {
    TotalNonNegative(Pledged, s.calls);
    if Total(Pledged, s.calls) > 0 {
      var k := TotalSource(Pledged, s.calls);
      OfferNotDone(s, k);
    }
  }

  lemma OfferNotDone(s: State, k: nat)
    requires Conserved(s) && k < |s.calls| && (s.calls[k].SubPush? || s.calls[k].SubSpill? || s.calls[k].SubUndo?)
    ensures s.calls[k].task in RaisedTasks(s) && !Done(s, s.calls[k].task)
  {
    var t := s.calls[k].task;
    assert ConservedFor(s, t);
    PlacesTerms(s, t);
    TotalBounds(Offering(t), s.calls, k);
  }

  lemma NothingQueued(s: State)
    requires Sound(s) && forall t :: t in RaisedTasks(s) ==> Done(s, t)
    ensures Queued(s) == 0
  {
    TotalNonNegative(QueueLength, s.locals);
    if Total(QueueLength, s.locals) > 0 {
      var i := TotalSource(QueueLength, s.locals);
      var t := s.locals[i].Items()[0];
      QueuedOnce(s, Local(i), t);
      NotDone(s, t);
    } else if s.global.Items() != [] {
      var t := s.global.Items()[0];
      QueuedOnce(s, Global, t);
      NotDone(s, t);
    }
  }

  lemma NothingPickedUp(s: State)
    requires Sound(s) && forall t :: t in RaisedTasks(s) ==> Done(s, t)
    ensures Total(PickedUp, s.workers) == 0
  {
    TotalNonNegative(PickedUp, s.workers);
    if Total(PickedUp, s.workers) > 0 {
      var w := TotalSource(PickedUp, s.workers);
      var t := s.workers[w].pc.task;
      HeldOnce(s, w, t);
      NotDone(s, t);
    }
  }

  lemma NothingDropped(s: State)
    requires Sound(s) && forall t :: t in RaisedTasks(s) ==> Done(s, t)
    ensures s.log.dropped == [] && Total(Drained, s.calls) == 0
  {
    if s.log.dropped != [] {
      DroppedNotRun(s, s.log.dropped[0]);
      NotDone(s, s.log.dropped[0]);
    }
    TotalNonNegative(Drained, s.calls);
    if Total(Drained, s.calls) > 0 {
      var k := TotalSource(Drained, s.calls);
      BatchedNotRun(s, k);
      NotDone(s, s.calls[k].batch[0]);
    }
  }

  /** A dropped task never runs. */
  lemma DroppedNotRun(s: State, t: Task)
    requires Conserved(s) && t in s.log.dropped
    ensures t in s.log.accepted && t !in s.log.ran
  {
    assert ConservedFor(s, t);
    PlacesTerms(s, t);
  }

  lemma BatchedNotRun(s: State, k: nat)
    requires Conserved(s) && k < |s.calls| && Drained(s.calls[k]) > 0
    ensures s.calls[k].batch[0] in s.log.accepted && s.calls[k].batch[0] !in s.log.ran
  {
    var t := s.calls[k].batch[0];
    assert ConservedFor(s, t);
    PlacesTerms(s, t);
    TotalBounds(Batching(t), s.calls, k);
  }

  lemma AcceptedNotOverflowed(s: State, t: Task)
    requires Conserved(s) && t in s.log.accepted
    ensures t !in s.log.overflowed
  {
    assert ConservedFor(s, t);
    PlacesTerms(s, t);
  }

  /** At the load of tasks_active that makes is_idle answer true, the scheduler is
      idle exactly when every task raised after the snapshot is already done. */
  lemma TrueAnswerIsIdle(s: State, k: nat)
    requires Sound(s) && SnapsSound(s) && k < |s.calls| && s.calls[k].IdleActive2?
    requires s.calls[k].p == 0 && s.count.active == 0
    ensures s.count.pending == 0 <==> forall t :: t in RaisedTasks(s) - s.calls[k].snap ==> Done(s, t)
  {
    assert SnapSound(s, s.calls[k]);
    IdleExactly(s);
    forall t | t in s.calls[k].snap
      ensures Done(s, t)
    {
      NobodyExecutes(s, t);
    }
  }

  /** Some submit raises tasks_pending. */
  predicate Raises(s: State, a: Action) {
    a.CStep? && a.k < |s.calls| && s.calls[a.k].SubRaise?
  }

  /** Nobody submits, and thread `k` does not move. */
  ghost predicate NoRaises(s: State, acts: seq<Action>, k: nat)
    requires Legal(s, acts)
    decreases |acts|
  {
    acts != [] ==>
      && !Raises(s, acts[0]) && acts[0] != CStep(k)
      && NoRaises(Apply(s, acts[0]), acts[1..], k)
  }

  /** Only a raise adds to the raised tasks. */
  lemma SameRaised(s: State, a: Action)
    requires Shape(s) && Conserved(s) && Enabled(s, a) && !Raises(s, a)
    ensures RaisedTasks(Apply(s, a)) == RaisedTasks(s)
  {
    match a
    case WStep(w) => WorkerRaised(s, a);
    case WContend(w) => WorkerRaised(s, a);
    case Begin(_, _) =>
    case CStep(k) =>
      if s.calls[k].SubPush? || s.calls[k].SubSpill? {
        OfferNotDone(s, k);
        var q := AttemptEffect(s, k);
      } else if InCancel(s.calls[k]) {
        assert CallShape(s, k, s.calls[k]);
      }
  }

  lemma WorkerRaised(s: State, a: Action)
    requires Shape(s) && Enabled(s, a) && (a.WStep? || a.WContend?)
    ensures RaisedTasks(Apply(s, a)) == RaisedTasks(s)
  {
    if s.workers[a.w].pc.Probe? {
      ProbeEffect(s, a.w, a.WStep?);
    } else if Holding(s.workers[a.w].pc) {
      TaskEffect(s, a.w);
    } else {
      RoundEffect(s, a.w);
    }
  }

  lemma {:induction false} StillAsking(s: State, acts: seq<Action>, k: nat)
    requires Sound(s) && SnapsSound(s) && Legal(s, acts) && NoRaises(s, acts, k)
    requires k < |s.calls| && s.calls[k].IdleActive2?
    ensures var s' := Run(s, acts);
            && Sound(s') && SnapsSound(s') && RaisedTasks(s') == RaisedTasks(s)
            && k < |s'.calls| && s'.calls[k] == s.calls[k]
    decreases |acts|
  {
    if acts != [] {
      SoundKept(s, acts[0]);
      SnapsKept(s, acts[0]);
      SameRaised(s, acts[0]);
      CallsAfter(s, acts[0], k);
      StillAsking(Apply(s, acts[0]), acts[1..], k);
    }
  }

  /** If nobody submits between the second read of tasks_pending and the deciding read of
      tasks_active, a true answer finds the scheduler truly idle: both counters are zero
      and every task raised so far is done. */
  lemma TrueAnswerWithoutSubmits(s0: State, k: nat, acts: seq<Action>)
    requires Sound(s0) && SnapsSound(s0) && Enabled(s0, CStep(k)) && s0.calls[k] == IdlePending2
    requires Legal(Apply(s0, CStep(k)), acts) && NoRaises(Apply(s0, CStep(k)), acts, k)
    requires var s := Run(Apply(s0, CStep(k)), acts);
             Enabled(s, CStep(k)) && k < |Apply(s, CStep(k)).calls|
             && Apply(s, CStep(k)).calls[k].IdleDone? && Apply(s, CStep(k)).calls[k].idle
    ensures var s := Run(Apply(s0, CStep(k)), acts);
            s.count.pending == 0 && s.count.active == 0 && forall t :: t in RaisedTasks(s) ==> Done(s, t)
  {
    var s1 := Apply(s0, CStep(k));
    SoundKept(s0, CStep(k));
    SnapsKept(s0, CStep(k));
    SecondRead(s0, k);
    StillAsking(s1, acts, k);
    var s := Run(s1, acts);
    DecidingRead(s, k);
    TrueAnswerIsIdle(s, k);
    IdleExactly(s);
  }

  lemma SecondRead(s: State, k: nat)
    requires Shape(s) && Enabled(s, CStep(k)) && s.calls[k] == IdlePending2
    ensures var s' := Apply(s, CStep(k));
            k < |s'.calls| && s'.calls[k] == IdleActive2(s.count.pending, RaisedTasks(s))
            && RaisedTasks(s') == RaisedTasks(s)
  {
  }

  lemma DecidingRead(s: State, k: nat)
    requires Shape(s) && Enabled(s, CStep(k)) && s.calls[k].IdleActive2?
    ensures var s' := Apply(s, CStep(k));
            k < |s'.calls| && s'.calls[k] == IdleDone(s.calls[k].p == 0 && s.count.active == 0, s.calls[k].snap)
  {
  }

  // ---- when the answer is false ----

  /** Something is pending or executing, as far as the counters say. */
  predicate Occupied(s: State) {
    s.count.pending != 0 || s.count.active != 0
  }

  /** The call has loaded a counter that was not zero. */
  predicate SawWork(c: Call) {
    || (c.IdleActive1? && c.p != 0)
    || (c.IdleActive2? && c.p != 0)
    || (c.IdleDone? && !c.idle)
  }

  lemma SawWorkStep(s: State, a: Action, k: nat)
    requires Shape(s) && Enabled(s, a) && k < |s.calls| && !SawWork(s.calls[k])
    ensures k < |Apply(s, a).calls|
    ensures SawWork(Apply(s, a).calls[k]) ==> a == CStep(k) && InIdle(s.calls[k]) && Occupied(s)
  {
    CallsAfter(s, a, k);
    if a == CStep(k) && !InIdle(s.calls[k]) {
      CStepEffect(s, k);
    }
  }

  /** Over every run: a call that answers false has made a load, the n-th action, in a
      state in which tasks_pending or tasks_active was not zero. So it answers true
      whenever both stay zero from its first load to its last. */
  lemma {:induction false} FalseAnswerSawWork(s: State, acts: seq<Action>, k: nat) returns (n: nat)
    requires Legal(s, acts) && k < |s.calls| && !SawWork(s.calls[k])
    requires k < |Run(s, acts).calls| && SawWork(Run(s, acts).calls[k])
    ensures n < |acts| && acts[n] == CStep(k) && Legal(s, acts[..n])
    ensures var b := Run(s, acts[..n]); k < |b.calls| && InIdle(b.calls[k]) && Occupied(b)
    decreases |acts|
  {
    var s1 := Apply(s, acts[0]);
    SawWorkStep(s, acts[0], k);
    if SawWork(s1.calls[k]) {
      n := 0;
    } else {
      var m := FalseAnswerSawWork(s1, acts[1..], k);
      n := m + 1;
      assert acts[..n][1..] == acts[1..][..m];
    }
  }

  /** Where a load of zeros leads from `c`. */
  ghost predicate LoadsZero(s: State, c: Call, next: Call) {
    || (c == IdlePending1 && next == IdleActive1(0))
    || (c == IdleActive1(0) && next == IdlePending2)
    || (c == IdlePending2 && next == IdleActive2(0, RaisedTasks(s)))
    || (c.IdleActive2? && c.p == 0 && next == IdleDone(true, c.snap))
  }

  lemma ZeroLoad(s: State, k: nat, next: Call)
    requires Shape(s) && k < |s.calls| && !Occupied(s) && LoadsZero(s, s.calls[k], next)
    ensures Enabled(s, CStep(k)) && Apply(s, CStep(k)) == SetCall(s, k, next) && Shape(SetCall(s, k, next))
  {
    ShapeKept(s, CStep(k));
  }

  // ---- after a drop ----

  /** cancel_all never lowers tasks_pending, so a dropped task keeps it positive. */
  lemma DroppedKeepsPending(s: State)
    requires Sound(s) && s.log.dropped != []
    ensures s.count.pending > 0
  {
    TotalNonNegative(Pledged, s.calls);
    TotalNonNegative(PickedUp, s.workers);
    TotalNonNegative(Drained, s.calls);
    TotalNonNegative(QueueLength, s.locals);
  }

  /** `c` is not about to answer that the scheduler is idle. */
  predicate NotIdle(c: Call) {
    (c.IdleActive2? ==> c.p != 0) && (c.IdleDone? ==> !c.idle)
  }

  /** Once a task was dropped, no later is_idle call ever answers true: a thread in
      fq_scheduler_wait_idle does not come back. */
  lemma {:induction false} NeverIdleAfterDrop(s: State, acts: seq<Action>, k: nat)
    requires Sound(s) && Legal(s, acts) && k < |s.calls| && s.log.dropped != [] && NotIdle(s.calls[k])
    ensures var s' := Run(s, acts);
            k < |s'.calls| && s'.count.pending > 0 && NotIdle(s'.calls[k])
    decreases |acts|
  {
    DroppedKeepsPending(s);
    if acts != [] {
      SoundKept(s, acts[0]);
      HistoryGrows(s, acts[0]);
      StaysBusy(s, acts[0], k);
      NeverIdleAfterDrop(Apply(s, acts[0]), acts[1..], k);
    }
  }

  lemma StaysBusy(s: State, a: Action, k: nat)
    requires Shape(s) && Enabled(s, a) && k < |s.calls| && s.count.pending > 0 && NotIdle(s.calls[k])
    ensures k < |Apply(s, a).calls| && NotIdle(Apply(s, a).calls[k])
  {
    CallsAfter(s, a, k);
    if a == CStep(k) && !InIdle(s.calls[k]) {
      CStepEffect(s, k);
    }
  }
}
