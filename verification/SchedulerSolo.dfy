/** One thread running alone: its call returns, its worker stops, and the queues keep
    their capacities. */
module SchedulerSolo {
  import opened Common
  import opened SchedulerModel
  import opened SchedulerShape
  import opened SchedulerLedger
  import opened SchedulerIdle
  import opened SchedulerShutdown
  import opened SchedulerRuns

  predicate InShut(c: Call) {
    c.ShutFlag? || c.ShutJoin? || c.ShutDone?
  }

  // ---- finishing a call ----

  /** The actions a submit or an is_idle has left. */
  function Steps(c: Call): nat {
    match c
    case SubFlag(_) => 7
    case SubCount(_) => 6
    case SubRaise(_) => 5
    case SubPush(_) => 4
    case SubSpill(_) => 3
    case SubUndo(_) => 2
    case SubDone(_, _) => 1
    case IdlePending1 => 5
    case IdleActive1(_) => 4
    case IdlePending2 => 3
    case IdleActive2(_, _) => 2
    case IdleDone(_, _) => 1
    case _ => 0
  }

  /** A bound on what a cancel_all has left when nobody pushes. */
  function CancelSteps(c: Call, queued: nat, n: nat): nat {
    match c
    case CancelFlag => 10 * queued + 10 * n + 30
    case CancelDrain(from, batch) =>
      10 * queued + 6 * |batch| + Stage(from, n) + if from == Global && batch == [] then 0 else 3
    case CancelDestroy(from, batch) =>
      10 * queued + 6 * |batch| + Stage(from, n) + if batch == [] then 1 else 2
    case CancelTally(from, batch) => 10 * queued + 6 * |batch| + Stage(from, n) + 4
    case CancelDone => 10 * queued + 1
    case _ => 0
  }

  function Stage(from: Target, n: nat): nat {
    if from == Global then 10 * n + 20 else if from.w < n then 10 * (n - from.w) else 2
  }

  ghost function Left(s: State, c: Call): nat {
    if InCancel(c) then CancelSteps(c, if Queued(s) >= 0 then Queued(s) else 0, |s.locals|) else Steps(c)
  }

  /** Thread `k` moved within its call; no worker moved. */
  ghost predicate OwnCall(s: State, s': State, k: nat) {
    && s'.cfg == s.cfg && s'.workers == s.workers && (s.shut.flag ==> s'.shut.flag)
    && k < |s.calls| == |s'.calls| && s'.calls == s.calls[k := s'.calls[k]]
    && |s'.next| == |s.next| && (forall j :: 0 <= j < |s.next| && j != k ==> s'.next[j] == s.next[j])
    && SameRooms(s, s')
  }

  lemma SubmitGoes(s: State, k: nat)
    requires Shape(s) && k < |s.calls| && InSubmit(s.calls[k]) && !s.calls[k].SubPush? && !s.calls[k].SubSpill?
    ensures OwnCall(s, StepSubmit(s, k), k)
    ensures Steps(StepSubmit(s, k).calls[k]) < Steps(s.calls[k]) && !InCancel(StepSubmit(s, k).calls[k])
    ensures !InShut(StepSubmit(s, k).calls[k])
  {
  }

  lemma AttemptGoes(s: State, k: nat)
    requires Shape(s) && k < |s.calls| && (s.calls[k].SubPush? || s.calls[k].SubSpill?)
    ensures OwnCall(s, StepSubmit(s, k), k)
    ensures InSubmit(StepSubmit(s, k).calls[k]) && Steps(StepSubmit(s, k).calls[k]) < Steps(s.calls[k])
  {
  }

  lemma IdleGoes(s: State, k: nat)
    requires Shape(s) && k < |s.calls| && InIdle(s.calls[k])
    ensures OwnCall(s, StepIdle(s, k), k)
    ensures Steps(StepIdle(s, k).calls[k]) < Steps(s.calls[k]) && !InCancel(StepIdle(s, k).calls[k])
    ensures !InShut(StepIdle(s, k).calls[k])
  {
  }

  lemma CancelGoes(s: State, k: nat)
    requires Shape(s) && k < |s.calls| && InCancel(s.calls[k])
    ensures OwnCall(s, StepCancel(s, k), k)
    ensures Left(StepCancel(s, k), StepCancel(s, k).calls[k]) < Left(s, s.calls[k])
    ensures !InShut(StepCancel(s, k).calls[k])
  {
    assert CallShape(s, k, s.calls[k]);
    TotalNonNegative(QueueLength, s.locals);
    var c := s.calls[k];
    if c.CancelDrain? && |c.batch| < BATCH && !QueueAt(s, c.from).Empty() {
      DrainGoes(s, k);
    } else {
      CancelRestEffect(s, k);
      CancelRestGoes(s, k);
    }
  }

  lemma DrainGoes(s: State, k: nat)
    requires Shape(s) && k < |s.calls| && s.calls[k].CancelDrain? && CallShape(s, k, s.calls[k])
    requires |s.calls[k].batch| < BATCH && !QueueAt(s, s.calls[k].from).Empty() && Queued(s) >= 0
    ensures var s' := StepCancel(s, k);
            && OwnCall(s, s', k) && !InShut(s'.calls[k]) && Left(s', s'.calls[k]) < Left(s, s.calls[k])
  {
    var s' := StepCancel(s, k);
    DrainCounts(s, k, Queued(s));
    QueuedPop(s, s', s.calls[k].from);
    TotalNonNegative(QueueLength, s'.locals);
  }

  lemma DrainCounts(s: State, k: nat, queued: nat)
    requires Shape(s) && k < |s.calls| && s.calls[k].CancelDrain? && CallShape(s, k, s.calls[k])
    requires |s.calls[k].batch| < BATCH && !QueueAt(s, s.calls[k].from).Empty()
    ensures var s' := StepCancel(s, k);
            && OwnCall(s, s', k) && s'.calls[k].CancelDrain?
            && (queued > 0 ==>
                  CancelSteps(s'.calls[k], queued - 1, |s.locals|) < CancelSteps(s.calls[k], queued, |s.locals|))
  {
  }

  lemma CancelRestGoes(s: State, k: nat)
    requires Shape(s) && k < |s.calls| && InCancel(s.calls[k]) && CallShape(s, k, s.calls[k]) && Queued(s) >= 0
    requires s.calls[k].CancelDrain? ==> |s.calls[k].batch| >= BATCH || QueueAt(s, s.calls[k].from).Empty()
    requires StepCancel(s, k).global == s.global && StepCancel(s, k).locals == s.locals
    ensures var s' := StepCancel(s, k);
            && OwnCall(s, s', k) && !InShut(s'.calls[k]) && Left(s', s'.calls[k]) < Left(s, s.calls[k])
  {
    var s' := StepCancel(s, k);
    CancelRestCounts(s, k, Queued(s));
    SameQueued(s, s');
  }

  lemma SameQueued(s: State, s': State)
    requires s'.global == s.global && s'.locals == s.locals
    ensures Queued(s') == Queued(s)
  {
  }

  lemma CancelRestCounts(s: State, k: nat, queued: nat)
    requires Shape(s) && k < |s.calls| && InCancel(s.calls[k]) && CallShape(s, k, s.calls[k])
    requires s.calls[k].CancelDrain? ==> |s.calls[k].batch| >= BATCH || QueueAt(s, s.calls[k].from).Empty()
    ensures var s' := StepCancel(s, k);
            && OwnCall(s, s', k) && !InShut(s'.calls[k])
            && (InCancel(s'.calls[k]) || s'.calls[k] == NoCall)
            && CancelSteps(s'.calls[k], queued, |s.locals|) < CancelSteps(s.calls[k], queued, |s.locals|)
  {
  }

  lemma CallGoes(s: State, k: nat)
    requires Shape(s) && k < |s.calls| && s.calls[k] != NoCall && !InShut(s.calls[k])
    ensures Enabled(s, CStep(k))
    ensures var s' := Apply(s, CStep(k));
            && OwnCall(s, s', k) && !InShut(s'.calls[k]) && Left(s', s'.calls[k]) < Left(s, s.calls[k])
  {
    if s.calls[k].SubPush? || s.calls[k].SubSpill? {
      AttemptGoes(s, k);
    } else if InSubmit(s.calls[k]) {
      SubmitGoes(s, k);
    } else if InIdle(s.calls[k]) {
      IdleGoes(s, k);
    } else {
      CancelGoes(s, k);
    }
  }

  // ---- the room of the queues ----

  /** The queues keep their capacities. */
  ghost predicate SameRooms(s: State, s': State) {
    && s'.global.room == s.global.room && |s'.locals| == |s.locals|
    && forall i :: 0 <= i < |s.locals| ==> s'.locals[i].room == s.locals[i].room
  }

  lemma RoomsKept(s: State, a: Action)
    requires Shape(s) && Enabled(s, a)
    ensures SameRooms(s, Apply(s, a))
  {
    if a.WStep? || a.WContend? {
      WorkerDrains(s, a);
    } else if a.CStep? && !InShut(s.calls[a.k]) {
      CallGoes(s, a.k);
    }
  }

  lemma {:induction false} RoomsOverRun(s: State, acts: seq<Action>)
    requires Legal(s, acts)
    ensures SameRooms(s, Run(s, acts))
    decreases |acts|
  {
    if acts != [] {
      RoomsKept(s, acts[0]);
      RoomsOverRun(Apply(s, acts[0]), acts[1..]);
    }
  }

  lemma OwnCallTrans(s: State, s': State, s'': State, k: nat)
    requires OwnCall(s, s', k) && OwnCall(s', s'', k)
    ensures OwnCall(s, s'', k)
  {
  }

  /** Thread `k` runs alone until its call returns. */
  lemma FinishCall(s0: State, acts: seq<Action>, s: State, k: nat) returns (acts': seq<Action>, s': State)
    requires Leads(s0, acts, s) && k < |s.calls| && !InShut(s.calls[k])
    ensures Leads(s0, acts', s') && OwnCall(s, s', k) && s'.calls[k] == NoCall
  {
    acts', s' := acts, s;
    while s'.calls[k] != NoCall
      invariant Leads(s0, acts', s') && OwnCall(s, s', k) && !InShut(s'.calls[k])
      decreases Left(s', s'.calls[k])
    {
      CallGoes(s', k);
      Then(s0, acts', s', CStep(k));
      OwnCallTrans(s, s', Apply(s', CStep(k)), k);
      acts', s' := acts' + [CStep(k)], Apply(s', CStep(k));
    }
  }

  // ---- a worker alone ----

  /** An exit test in progress is up to date, which it stays while its worker is alone. */
  predicate UpToDate(s: State, w: nat, pc: WPc)
    requires w < |s.locals|
  {
    match pc
    case ExitGlobalTail(h0) => h0 == s.global.popped
    case ExitOwnHead => s.global.Empty()
    case ExitOwnTail(h0) => s.global.Empty() && h0 == s.locals[w].popped
    case Stopped => s.global.Empty() && s.locals[w].Empty()
    case _ => true
  }

  /** Worker `w` is in no call and the flag is up. */
  ghost predicate Fit(s: State, w: nat) {
    && Shape(s) && s.shut.flag && w < |s.workers| && s.calls[w] == NoCall
    && UpToDate(s, w, s.workers[w].pc)
  }

  /** From its i-th probe on the round will find a task. */
  ghost predicate Hopeful(s: State, w: nat, i: nat) {
    exists j :: i <= j < |Plan(s.cfg, w)| && Has(s, Plan(s.cfg, w)[j]) && !QueueAt(s, Plan(s.cfg, w)[j]).Empty()
  }

  /** The steps left until the worker stops or takes a task. */
  ghost function Phase(s: State, w: nat, pc: WPc): int {
    var p := |Plan(s.cfg, w)|;
    match pc
    case Stopped => 0
    case Probe(i, _) => if Hopeful(s, w, i) then 1 + p - i else 2 * p + 13 - i
    case ExitOwnTail(_) => p + 3
    case ExitOwnHead => p + 4
    case ExitGlobalTail(_) => p + 5
    case ExitGlobalHead => p + 6
    case Top => p + 7
    case Napping => p + 8
    case NapOwnTail(_) => p + 9
    case NapOwnHead => p + 10
    case NapGlobalTail(_) => p + 11
    case NapGlobalHead => p + 12
    case Leaving(_) => p + 8
    case Counted(_) => p + 9
    case Returned(_) => p + 10
    case Running(_) => p + 11
    case Raised(_) => p + 12
    case Found(_) => p + 13
  }

  /** Worker `w` moved, queues only lost tasks, and nobody else did anything. */
  ghost predicate Alone(s: State, s': State, w: nat) {
    && s'.cfg == s.cfg && s'.shut.flag == s.shut.flag && s'.calls == s.calls && s'.next == s.next
    && w < |s.workers| == |s'.workers| && s'.workers == s.workers[w := s'.workers[w]]
    && Drains(s, s')
  }

  /** One step closer to stopping. */
  ghost predicate Closer(s: State, s': State, w: nat)
    requires w < |s.workers| == |s'.workers|
  {
    || Queued(s') < Queued(s)
    || (Queued(s') == Queued(s) && Phase(s', w, s'.workers[w].pc) < Phase(s, w, s.workers[w].pc))
  }

  /** A queue that is not empty is in the plan of a round that begins now. */
  lemma FindsOwn(s: State, w: nat)
    requires Shape(s) && w < |s.workers| && !(s.global.Empty() && s.locals[w].Empty())
    ensures Hopeful(s, w, 0)
  {
    PlanInRange(s.cfg, w);
    var p := Plan(s.cfg, w);
    var g, o := if s.cfg.priority then 0 else |p| - 1, if s.cfg.priority then 1 else 0;
    assert p[g] == Global && p[o] == Local(w);
    if !s.global.Empty() {
      assert !QueueAt(s, p[g]).Empty();
    } else {
      assert !QueueAt(s, p[o]).Empty();
    }
  }

  lemma RoundAlone(s: State, w: nat)
    requires Fit(s, w) && Resting(s.workers[w].pc) && s.workers[w].pc != Stopped
    ensures var pc := NextRound(s, w).pc;
            UpToDate(s, w, pc) && Phase(s, w, pc) < Phase(s, w, s.workers[w].pc)
  {
    PlanInRange(s.cfg, w);
    if !(s.global.Empty() && s.locals[w].Empty()) { FindsOwn(s, w); }
    match s.workers[w].pc
    case ExitGlobalTail(h0) => SizeIsExact(s.global, h0);
    case ExitOwnTail(h0) => SizeIsExact(s.locals[w], h0);
    case _ =>
  }

  lemma SameQueues(s: State, s': State, w: nat, pc: WPc)
    requires s'.global == s.global && s'.locals == s.locals && s'.cfg == s.cfg && w < |s.locals|
    ensures Queued(s') == Queued(s) && Drains(s, s')
    ensures UpToDate(s', w, pc) == UpToDate(s, w, pc) && Phase(s', w, pc) == Phase(s, w, pc)
  {
    forall i: nat ensures Hopeful(s', w, i) == Hopeful(s, w, i) {
      assert forall q :: Has(s', q) == Has(s, q);
      assert forall q :: Has(s, q) ==> QueueAt(s', q) == QueueAt(s, q);
    }
  }

  lemma SoloRound(s: State, w: nat)
    requires Fit(s, w) && Resting(s.workers[w].pc) && s.workers[w].pc != Stopped
    ensures var s' := StepRound(s, w);
            Alone(s, s', w) && UpToDate(s', w, s'.workers[w].pc) && Closer(s, s', w)
  {
    RoundAlone(s, w);
    SameQueues(s, StepRound(s, w), w, NextRound(s, w).pc);
  }

  lemma SoloTask(s: State, w: nat)
    requires Fit(s, w) && Holding(s.workers[w].pc)
    ensures var s' := StepTask(s, w);
            Alone(s, s', w) && w < |s'.locals| && UpToDate(s', w, s'.workers[w].pc) && Closer(s, s', w)
  {
    TaskEffect(s, w);
    SameQueues(s, StepTask(s, w), w, AfterTask(s.workers[w].pc));
  }

  lemma SoloProbe(s: State, w: nat)
    requires Fit(s, w) && s.workers[w].pc.Probe?
    ensures var s' := StepProbe(s, w, true);
            Alone(s, s', w) && w < |s'.locals| && UpToDate(s', w, s'.workers[w].pc) && Closer(s, s', w)
  {
    var s', q, i := StepProbe(s, w, true), Probed(s, w), s.workers[w].pc.i;
    assert WorkerShape(s, w, s.workers[w].pc);
    WorkerDrains(s, WStep(w));
    if QueueAt(s, q).Empty() {
      SameQueues(s, s', w, s'.workers[w].pc);
      HopeStays(s, w, i);
    } else {
      ProbeEffect(s, w, true);
      QueuedPop(s, s', q);
    }
  }

  /** An empty queue is no loss of hope. */
  lemma HopeStays(s: State, w: nat, i: nat)
    requires i < |Plan(s.cfg, w)| && Has(s, Plan(s.cfg, w)[i]) && QueueAt(s, Plan(s.cfg, w)[i]).Empty()
    ensures Hopeful(s, w, i) <==> Hopeful(s, w, i + 1)
    ensures Hopeful(s, w, i) ==> i + 1 < |Plan(s.cfg, w)|
  {
  }

  lemma SoloStep(s: State, w: nat)
    requires Fit(s, w) && s.workers[w].pc != Stopped
    ensures Enabled(s, WStep(w))
    ensures var s' := Apply(s, WStep(w)); Alone(s, s', w) && Fit(s', w) && Closer(s, s', w)
  {
    ShapeKept(s, WStep(w));
    if s.workers[w].pc.Probe? {
      SoloProbe(s, w);
    } else if Holding(s.workers[w].pc) {
      SoloTask(s, w);
    } else {
      SoloRound(s, w);
    }
  }

  // ---- a worker with an empty global queue ----

  /** In its rounds the worker finds its own tasks before it looks elsewhere. */
  predicate Calm(s: State, w: nat, pc: WPc)
    requires w < |s.locals|
  {
    && s.global.Empty()
    && match pc
       case Probe(i, _) => !s.locals[w].Empty() && (i == 0 || (s.cfg.priority && i == 1))
       case NapGlobalHead => false
       case NapGlobalTail(_) => false
       case NapOwnHead => false
       case NapOwnTail(_) => false
       case Napping => false
       case _ => true
  }

  /** The queues of others and the global one are untouched. */
  ghost predicate OthersKeep(s: State, s': State, w: nat) {
    && s'.global == s.global && |s'.locals| == |s.locals|
    && forall i :: 0 <= i < |s.locals| && i != w ==> s'.locals[i] == s.locals[i]
  }

  lemma CalmStep(s: State, w: nat)
    requires Fit(s, w) && s.workers[w].pc != Stopped && Calm(s, w, s.workers[w].pc)
    ensures Enabled(s, WStep(w))
    ensures var s' := Apply(s, WStep(w));
            OthersKeep(s, s', w) && w < |s'.workers| && w < |s'.locals| && Calm(s', w, s'.workers[w].pc)
  {
    if s.workers[w].pc.Probe? {
      CalmProbe(s, w);
    } else if Holding(s.workers[w].pc) {
      TaskEffect(s, w);
    } else {
      CalmRound(s, w);
    }
  }

  lemma CalmRound(s: State, w: nat)
    requires Fit(s, w) && Resting(s.workers[w].pc) && Calm(s, w, s.workers[w].pc)
    ensures Calm(s, w, NextRound(s, w).pc)
  {
    match s.workers[w].pc
    case ExitGlobalTail(h0) => SizeIsExact(s.global, h0);
    case ExitOwnTail(h0) => SizeIsExact(s.locals[w], h0);
    case _ =>
  }

  lemma CalmProbe(s: State, w: nat)
    requires Fit(s, w) && s.workers[w].pc.Probe? && Calm(s, w, s.workers[w].pc)
    ensures var s' := StepProbe(s, w, true);
            OthersKeep(s, s', w) && w < |s'.workers| && w < |s'.locals| && Calm(s', w, s'.workers[w].pc)
  {
    PlanInRange(s.cfg, w);
    assert WorkerShape(s, w, s.workers[w].pc);
  }

  lemma AloneTrans(s: State, s': State, s'': State, w: nat)
    requires Alone(s, s', w) && Alone(s', s'', w)
    ensures Alone(s, s'', w)
  {
  }

  /** Worker `w` runs alone until it stops; if it was calm it took only its own tasks. */
  lemma Solo(s0: State, acts: seq<Action>, s: State, w: nat) returns (acts': seq<Action>, s': State)
    requires Leads(s0, acts, s) && Fit(s, w)
    ensures Leads(s0, acts', s') && Alone(s, s', w) && Fit(s', w) && s'.workers[w].pc == Stopped
    ensures Calm(s, w, s.workers[w].pc) ==> OthersKeep(s, s', w)
  {
    acts', s' := acts, s;
    QueuedNonNegative(s');
    while s'.workers[w].pc != Stopped
      invariant Leads(s0, acts', s') && Alone(s, s', w) && Fit(s', w)
      invariant Calm(s, w, s.workers[w].pc) ==> OthersKeep(s, s', w) && Calm(s', w, s'.workers[w].pc)
      decreases Queued(s'), Phase(s', w, s'.workers[w].pc)
    {
      acts', s' := SoloOn(s0, acts', s, s', w);
    }
  }

  /** One more step of worker `w`, alone since `s`. */
  lemma SoloOn(s0: State, acts: seq<Action>, s: State, s1: State, w: nat) returns (acts': seq<Action>, s': State)
    requires Leads(s0, acts, s1) && Alone(s, s1, w) && Fit(s1, w) && s1.workers[w].pc != Stopped
    ensures Leads(s0, acts', s') && Alone(s, s', w) && Fit(s', w) && Closer(s1, s', w) && Queued(s') >= 0
    ensures Calm(s1, w, s1.workers[w].pc) && OthersKeep(s, s1, w) ==>
              OthersKeep(s, s', w) && Calm(s', w, s'.workers[w].pc)
  {
    acts', s' := acts + [WStep(w)], Apply(s1, WStep(w));
    SoloStep(s1, w);
    if Calm(s1, w, s1.workers[w].pc) { CalmStep(s1, w); }
    Then(s0, acts, s1, WStep(w));
    AloneTrans(s, s1, s', w);
    QueuedNonNegative(s');
  }

  lemma QueuedNonNegative(s: State)
    ensures Queued(s) >= 0
  {
    TotalNonNegative(QueueLength, s.locals);
  }

  // ---- an is_idle call that nobody interleaves ----

  /** One load with both counters at zero, and the rest of the call. */
  lemma LoadThen(s: State, k: nat, next: Call, rest: seq<Action>, c: Call)
    requires Shape(s) && k < |s.calls| && !Occupied(s) && LoadsZero(s, s.calls[k], next)
    requires Shape(SetCall(s, k, next)) ==> Leads(SetCall(s, k, next), rest, SetCall(SetCall(s, k, next), k, c))
    ensures Leads(s, [CStep(k)] + rest, SetCall(s, k, c))
  {
    ZeroLoad(s, k, next);
    assert s.calls[k := next][k := c] == s.calls[k := c];
    Cons(s, CStep(k), rest, SetCall(s, k, c));
  }

  lemma LastLoad(s: State, k: nat)
    requires Shape(s) && k < |s.calls| && !Occupied(s) && s.calls[k].IdleActive2? && s.calls[k].p == 0
    ensures Leads(s, [CStep(k)], SetCall(s, k, IdleDone(true, s.calls[k].snap)))
  {
    var c := IdleDone(true, s.calls[k].snap);
    ZeroLoad(s, k, c);
    Nothing(SetCall(s, k, c));
    Cons(s, CStep(k), [], SetCall(s, k, c));
    assert [CStep(k)] + [] == [CStep(k)];
  }

  lemma SecondPass(s: State, k: nat)
    requires Shape(s) && k < |s.calls| && !Occupied(s) && s.calls[k] == IdlePending2
    ensures Leads(s, [CStep(k), CStep(k)], SetCall(s, k, IdleDone(true, RaisedTasks(s))))
  {
    var c := IdleActive2(0, RaisedTasks(s));
    ZeroLoad(s, k, c);
    LastLoad(SetCall(s, k, c), k);
    LoadThen(s, k, c, [CStep(k)], IdleDone(true, RaisedTasks(s)));
    assert [CStep(k)] + [CStep(k)] == [CStep(k), CStep(k)];
  }

  lemma FirstPass(s: State, k: nat)
    requires Shape(s) && k < |s.calls| && !Occupied(s) && s.calls[k] == IdleActive1(0)
    ensures Leads(s, [CStep(k), CStep(k), CStep(k)], SetCall(s, k, IdleDone(true, RaisedTasks(s))))
  {
    ZeroLoad(s, k, IdlePending2);
    SecondPass(SetCall(s, k, IdlePending2), k);
    LoadThen(s, k, IdlePending2, [CStep(k), CStep(k)], IdleDone(true, RaisedTasks(s)));
    assert [CStep(k)] + [CStep(k), CStep(k)] == [CStep(k), CStep(k), CStep(k)];
  }

  /** It answers true when it begins with both counters at zero. */
  lemma IdleAnswersTrue(s: State, k: nat)
    requires Shape(s) && k < |s.calls| && s.calls[k] == IdlePending1 && !Occupied(s)
    ensures Leads(s, [CStep(k), CStep(k), CStep(k), CStep(k)], SetCall(s, k, IdleDone(true, RaisedTasks(s))))
  {
    ZeroLoad(s, k, IdleActive1(0));
    FirstPass(SetCall(s, k, IdleActive1(0)), k);
    LoadThen(s, k, IdleActive1(0), [CStep(k), CStep(k), CStep(k)], IdleDone(true, RaisedTasks(s)));
    assert [CStep(k)] + [CStep(k), CStep(k), CStep(k)] == [CStep(k), CStep(k), CStep(k), CStep(k)];
  }
}
