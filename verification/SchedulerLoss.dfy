/** When shutdown can lose a task: exactly when a harmful submit is in its window at the
    first flag store. The schedule that loses it is spelled out: everybody but the
    submitter runs until all workers have stopped, and then the submitter pushes. */
module SchedulerLoss {
  import opened Common
  import opened SchedulerModel
  import opened SchedulerShape
  import opened SchedulerPlaces
  import opened SchedulerShutdown
  import opened SchedulerSafe
  import opened SchedulerRuns
  import opened SchedulerSolo

  /** Every queue has room for a task, as every queue fq_queue_create makes for a
      request of at most 2^24. */
  ghost predicate Roomy(s: State) {
    s.global.room > 0 && forall i :: 0 <= i < |s.locals| ==> s.locals[i].room > 0
  }

  // ---- everybody but one ----

  /** Where the push of thread `k`'s submit goes first. */
  ghost function Aim(s: State, k: nat): Target
    requires k < |s.calls| && InWindow(s.calls[k]) && k < |s.next| && s.cfg.workers > 0
  {
    if s.calls[k].SubSpill? || Urgent(s, s.calls[k].task) then Global else Local(FirstChoice(s, k))
  }

  /** Thread `k` has stood still and no queue was replaced. */
  ghost predicate Waits(s: State, s': State, k: nat) {
    && s'.cfg == s.cfg && (s.shut.flag ==> s'.shut.flag) && |s'.workers| == |s.workers|
    && k < |s.calls| == |s'.calls| == |s'.next| && |s.next| == |s.calls|
    && s'.calls[k] == s.calls[k] && s'.next[k] == s.next[k]
    && (k < |s.workers| ==> s'.workers[k] == s.workers[k])
    && (Roomy(s) ==> Roomy(s'))
  }

  lemma WaitsTrans(s: State, s': State, s'': State, k: nat)
    requires Waits(s, s', k) && Waits(s', s'', k)
    ensures Waits(s, s'', k)
  {
  }

  lemma CallWaits(s: State, s': State, u: nat, k: nat)
    requires Shape(s) && OwnCall(s, s', u) && u != k && k < |s.calls|
    ensures Waits(s, s', k)
  {
  }

  lemma AloneWaits(s: State, s': State, u: nat, k: nat)
    requires Shape(s) && Alone(s, s', u) && u != k && k < |s.calls|
    ensures Waits(s, s', k)
  {
  }

  /** The first `n` workers, thread `k` aside, are in no call. */
  ghost predicate Returned(s: State, n: nat, k: nat) {
    n <= |s.calls| && forall u :: 0 <= u < n && u != k ==> s.calls[u] == NoCall
  }

  lemma ReturnAll(s0: State, acts: seq<Action>, s: State, k: nat) returns (acts': seq<Action>, s': State)
    requires Leads(s0, acts, s) && k < |s.calls|
    requires forall u :: 0 <= u < |s.workers| && u != k ==> !InShut(s.calls[u])
    ensures Leads(s0, acts', s') && Waits(s, s', k) && s'.workers == s.workers
    ensures Returned(s', |s'.workers|, k)
  {
    acts', s' := acts, s;
    for n := 0 to |s.workers|
      invariant Leads(s0, acts', s') && Waits(s, s', k) && s'.workers == s.workers
      invariant Returned(s', n, k)
      invariant forall u :: n <= u < |s.workers| && u != k ==> !InShut(s'.calls[u])
    {
      if n != k {
        var s1 := s';
        acts', s' := FinishCall(s0, acts', s', n);
        CallWaits(s1, s', n, k);
        WaitsTrans(s, s1, s', k);
      }
    }
  }

  /** The first `n` workers, thread `k` aside, have stopped and left nothing behind. */
  ghost predicate Gone(s: State, n: nat, k: nat) {
    && n <= |s.workers| == |s.locals|
    && forall u :: 0 <= u < n && u != k ==> s.workers[u].pc == Stopped && s.locals[u].Empty() && s.global.Empty()
  }

  /** The rest are in no call and have not begun to stop. */
  ghost predicate Pending(s: State, n: nat, k: nat) {
    && Returned(s, |s.workers|, k)
    && forall u :: n <= u < |s.workers| && u != k ==> !Exiting(s.workers[u].pc)
  }

  lemma OneGone(s: State, s': State, n: nat, k: nat)
    requires Shape(s) && Gone(s, n, k) && Pending(s, n, k) && n < |s.workers| && n != k
    requires Alone(s, s', n) && Fit(s', n) && s'.workers[n].pc == Stopped
    ensures Gone(s', n + 1, k) && Pending(s', n + 1, k)
  {
  }

  lemma OwnGone(s: State, k: nat)
    requires Gone(s, k, k) && Pending(s, k, k) && k < |s.workers|
    ensures Gone(s, k + 1, k) && Pending(s, k + 1, k)
  {
  }

  lemma StopOne(s0: State, acts: seq<Action>, s: State, n: nat, k: nat) returns (acts': seq<Action>, s': State)
    requires Leads(s0, acts, s) && k < |s.calls| && s.shut.flag && n < |s.workers| && n != k
    requires Gone(s, n, k) && Pending(s, n, k)
    ensures Leads(s0, acts', s') && Waits(s, s', k) && s'.calls == s.calls
    ensures Gone(s', n + 1, k) && Pending(s', n + 1, k)
  {
    acts', s' := Solo(s0, acts, s, n);
    AloneWaits(s, s', n, k);
    OneGone(s, s', n, k);
  }

  lemma StopAll(s0: State, acts: seq<Action>, s: State, k: nat) returns (acts': seq<Action>, s': State)
    requires Leads(s0, acts, s) && k < |s.calls| && s.shut.flag && Pending(s, 0, k)
    ensures Leads(s0, acts', s') && Waits(s, s', k) && Gone(s', |s'.workers|, k) && s'.calls == s.calls
  {
    acts', s' := acts, s;
    for n := 0 to |s.workers|
      invariant Leads(s0, acts', s') && Waits(s, s', k) && s'.calls == s.calls
      invariant |s'.workers| == |s.workers| && Gone(s', n, k) && Pending(s', n, k)
    {
      if n != k {
        var s1 := s';
        acts', s' := StopOne(s0, acts', s', n, k);
        WaitsTrans(s, s1, s', k);
      } else {
        OwnGone(s', n);
      }
    }
  }

  // ---- the push that comes too late ----

  /** Thread `k` moved within its submit and nothing else happened. */
  ghost predicate OnlySubmits(s: State, s': State, k: nat) {
    && k < |s.calls| == |s'.calls| && s'.cfg == s.cfg && s'.shut.flag == s.shut.flag
    && s'.workers == s.workers && s'.global == s.global && s'.locals == s.locals && s'.next == s.next
    && s'.calls == s.calls[k := s'.calls[k]]
  }

  lemma Nears(s: State, k: nat)
    requires Shape(s) && k < |s.calls| && (s.calls[k].SubCount? || s.calls[k].SubRaise?)
    ensures Enabled(s, CStep(k))
    ensures var s' := Apply(s, CStep(k));
            && OnlySubmits(s, s', k) && s'.calls[k].task == s.calls[k].task
            && s'.calls[k] == if s.calls[k].SubCount? then SubRaise(s.calls[k].task) else SubPush(s.calls[k].task)
  {
  }

  /** The submit up to its push. */
  lemma Arrive(s0: State, acts: seq<Action>, s: State, k: nat) returns (acts': seq<Action>, s': State)
    requires Leads(s0, acts, s) && k < |s.calls| && InWindow(s.calls[k])
    ensures Leads(s0, acts', s') && OnlySubmits(s, s', k) && (s'.calls[k].SubPush? || s'.calls[k].SubSpill?)
    ensures k < |s.next| == |s'.next| && s.cfg.workers > 0 && Aim(s', k) == Aim(s, k)
  {
    acts', s' := acts, s;
    while s'.calls[k].SubCount? || s'.calls[k].SubRaise?
      invariant Leads(s0, acts', s') && OnlySubmits(s, s', k) && InWindow(s'.calls[k])
      invariant s'.calls[k].task == s.calls[k].task && (s'.calls[k].SubSpill? <==> s.calls[k].SubSpill?)
      decreases Steps(s'.calls[k])
    {
      Nears(s', k);
      Then(s0, acts', s', CStep(k));
      acts', s' := acts' + [CStep(k)], Apply(s', CStep(k));
    }
  }

  lemma Lands(s: State, k: nat)
    requires Shape(s) && k < |s.calls| && (s.calls[k].SubPush? || s.calls[k].SubSpill?)
    requires Has(s, Aim(s, k)) && !QueueAt(s, Aim(s, k)).Full()
    ensures Enabled(s, CStep(k)) && Pushed(s, Apply(s, CStep(k)), k, Aim(s, k), s.calls[k].task)
  {
  }

  /** A task is queued and there is no worker left to take it. */
  ghost predicate Lost(s: State) {
    && (forall w :: 0 <= w < |s.workers| ==> s.workers[w].pc == Stopped)
    && exists q :: Has(s, q) && !QueueAt(s, q).Empty()
  }

  /** Such a task was accepted, and it is never executed, whatever happens next. */
  lemma LostForGood(s: State, acts: seq<Action>) returns (t: Task)
    requires Known(s) && Lost(s) && Legal(s, acts)
    ensures t in s.log.accepted && t !in s.log.dropped && t !in Run(s, acts).log.ran
  {
    var q :| Has(s, q) && !QueueAt(s, q).Empty();
    t := QueueAt(s, q).Items()[0];
    QueuedOnce(s, q, t);
    NothingRuns(s, acts);
  }

  lemma {:induction false} NothingRuns(s: State, acts: seq<Action>)
    requires Legal(s, acts) && forall w :: 0 <= w < |s.workers| ==> s.workers[w].pc == Stopped
    ensures Run(s, acts).log.ran == s.log.ran
    decreases |acts|
  {
    if acts != [] {
      NobodyMoves(s, acts[0]);
      NothingRuns(Apply(s, acts[0]), acts[1..]);
    }
  }

  lemma NobodyMoves(s: State, a: Action)
    requires Shape(s) && Enabled(s, a) && forall w :: 0 <= w < |s.workers| ==> s.workers[w].pc == Stopped
    ensures Apply(s, a).workers == s.workers && Apply(s, a).log.ran == s.log.ran
  {
    if a.CStep? {
      CStepEffect(s, a.k);
    }
  }

  /** A client pushes after all workers have stopped. */
  lemma ClientLoses(s0: State, acts: seq<Action>, s: State, k: nat) returns (acts': seq<Action>, s': State)
    requires Leads(s0, acts, s) && Roomy(s) && |s.workers| <= k < |s.calls| && InWindow(s.calls[k])
    requires Gone(s, |s.workers|, k)
    ensures Leads(s0, acts', s') && Lost(s')
  {
    var s1;
    acts', s1 := Arrive(s0, acts, s, k);
    assert s.workers[0].pc == Stopped && s.global.Empty();
    AimInRange(s1, k);
    Lands(s1, k);
    Then(s0, acts', s1, CStep(k));
    acts', s' := acts' + [CStep(k)], Apply(s1, CStep(k));
    assert !QueueAt(s', Aim(s1, k)).Empty();
  }

  lemma AimInRange(s: State, k: nat)
    requires Shape(s) && k < |s.calls| && InWindow(s.calls[k])
    ensures Has(s, Aim(s, k))
  {
  }

  /** A callback pushes to the queue of a worker that has stopped ... */
  lemma WorkerPushes(s0: State, acts: seq<Action>, s: State, k: nat) returns (acts': seq<Action>, s': State, v: nat)
    requires Leads(s0, acts, s) && Roomy(s) && s.shut.flag && k < |s.workers| && k < |s.calls|
    requires InWindow(s.calls[k]) && !StaysHome(s, k, s.calls[k])
    requires Gone(s, |s.workers|, k)
    ensures Leads(s0, acts', s') && s'.workers == s.workers && s'.shut.flag && s'.global == s.global
    ensures k < |s'.calls| && s'.calls[k].SubDone?
    ensures v < |s'.locals| == |s.workers| && v != k && s.global.Empty() && !s'.locals[v].Empty()
  {
    var s1;
    acts', s1 := Arrive(s0, acts, s, k);
    AimInRange(s1, k);
    v := FirstChoice(s, k);
    assert Aim(s1, k) == Local(v) && s.workers[v].pc == Stopped && s.locals[v].Empty();
    Lands(s1, k);
    Then(s0, acts', s1, CStep(k));
    acts', s' := acts' + [CStep(k)], Apply(s1, CStep(k));
  }

  /** ... and then its own worker stops without looking there. */
  lemma WorkerLoses(s0: State, acts: seq<Action>, s: State, k: nat) returns (acts': seq<Action>, s': State)
    requires Leads(s0, acts, s) && Roomy(s) && s.shut.flag && k < |s.workers| && k < |s.calls|
    requires InWindow(s.calls[k]) && !StaysHome(s, k, s.calls[k])
    requires Gone(s, |s.workers|, k)
    ensures Leads(s0, acts', s') && Lost(s')
  {
    var s1, s2, v;
    acts', s1, v := WorkerPushes(s0, acts, s, k);
    assert CallShape(s1, k, s1.calls[k]);
    Answers(s1, k);
    Then(s0, acts', s1, CStep(k));
    acts', s2 := acts' + [CStep(k)], SetCall(s1, k, NoCall);
    acts', s' := Solo(s0, acts', s2, k);
    assert !QueueAt(s', Local(v)).Empty();
  }

  lemma Answers(s: State, k: nat)
    requires Shape(s) && k < |s.calls| && s.calls[k].SubDone?
    ensures Enabled(s, CStep(k)) && Apply(s, CStep(k)) == SetCall(s, k, NoCall)
  {
  }

  // ---- a worker that joins itself ----

  /** A shutdown called from a callback waits for its own worker. */
  ghost predicate JoinsItself(s: State, w: nat) {
    && w < |s.workers| && w < |s.calls| && s.workers[w].pc.Running?
    && (s.calls[w].ShutFlag? || (s.calls[w].ShutJoin? && s.calls[w].i <= w))
  }

  lemma InShutJoins(s: State, w: nat)
    requires Shape(s) && Closing(s) && w < |s.workers| && InShut(s.calls[w])
    ensures JoinsItself(s, w)
  {
    assert CallShape(s, w, s.calls[w]) && Joined(s, s.calls[w]);
  }

  lemma StaysJoining(s: State, a: Action, w: nat)
    requires Shape(s) && Enabled(s, a) && JoinsItself(s, w)
    ensures JoinsItself(Apply(s, a), w)
  {
    CallsAfter(s, a, w);
    if a == CStep(w) {
      CStepEffect(s, w);
    } else {
      assert !(a.WContend? && a.w == w) && a != WStep(w);
      SameWorker(s, a, w);
    }
  }

  lemma {:induction false} NeverStops(s: State, acts: seq<Action>, w: nat)
    requires Legal(s, acts) && JoinsItself(s, w)
    ensures JoinsItself(Run(s, acts), w)
    decreases |acts|
  {
    if acts != [] {
      StaysJoining(s, acts[0], w);
      NeverStops(Apply(s, acts[0]), acts[1..], w);
    }
  }

  // ---- exactly when a task can be lost ----

  ghost predicate NoWorkerJoins(s: State) {
    forall w :: 0 <= w < |s.workers| && w < |s.calls| ==> !InShut(s.calls[w])
  }

  ghost predicate CanLose(s: State) {
    exists acts :: Legal(s, acts) && Lost(Run(s, acts))
  }

  lemma HarmLoses(s: State, k: nat)
    requires Shape(s) && Roomy(s) && s.shut.flag && k < |s.calls| && Harmful(s, k) && NoWorkerJoins(s)
    requires forall w :: 0 <= w < |s.workers| ==> !Exiting(s.workers[w].pc)
    ensures CanLose(s)
  {
    Nothing(s);
    var acts, s1 := ReturnAll(s, [], s, k);
    var s2, s3;
    acts, s2 := StopAll(s, acts, s1, k);
    WaitsTrans(s, s1, s2, k);
    if k < |s.workers| {
      acts, s3 := WorkerLoses(s, acts, s2, k);
    } else {
      acts, s3 := ClientLoses(s, acts, s2, k);
    }
  }

  lemma SafeKeeps(s: State, acts: seq<Action>)
    requires Known(s) && s.shut.safe && Legal(s, acts)
    ensures !Lost(Run(s, acts))
  {
    SafeOverRun(s, acts);
    var s' := Run(s, acts);
    if forall w :: 0 <= w < |s'.workers| ==> s'.workers[w].pc == Stopped {
      StoppedMeansEmpty(s');
      NoItemsNoTask(s');
    }
  }

  lemma NoItemsNoTask(s: State)
    requires s.global.Items() == [] && forall i :: 0 <= i < |s.locals| ==> s.locals[i].Items() == []
    ensures forall q :: Has(s, q) ==> QueueAt(s, q).Items() == []
    ensures Shape(s) ==> !Lost(s)
  {
  }

  lemma {:induction false} SafeOverRun(s: State, acts: seq<Action>)
    requires Known(s) && s.shut.safe && Legal(s, acts)
    ensures Known(Run(s, acts)) && Run(s, acts).shut.safe
    decreases |acts|
  {
    if acts != [] {
      KnownKept(s, acts[0]);
      BitsAfter(s, acts[0]);
      SafeOverRun(Apply(s, acts[0]), acts[1..]);
    }
  }

  lemma LosesExactly(s0: State, store: Action)
    requires Known(s0) && Roomy(s0) && Enabled(s0, store) && !s0.shut.flag && Apply(s0, store).shut.flag
    ensures CanLose(Apply(s0, store)) <==> !NoneHarmful(Apply(s0, store)) && NoWorkerJoins(Apply(s0, store))
  {
    var s := Apply(s0, store);
    KnownKept(s0, store);
    BitsAfter(s0, store);
    RoomsKept(s0, store);
    if !NoWorkerJoins(s) {
      var w :| 0 <= w < |s.workers| && InShut(s.calls[w]);
      InShutJoins(s, w);
      forall acts | Legal(s, acts) ensures !Lost(Run(s, acts)) {
        NeverStops(s, acts, w);
      }
    } else if NoneHarmful(s) {
      forall acts | Legal(s, acts) ensures !Lost(Run(s, acts)) {
        SafeKeeps(s, acts);
      }
    } else {
      var k :| 0 <= k < |s.calls| && Harmful(s, k);
      HarmLoses(s, k);
    }
  }

  /** "Waits for all pending tasks to complete": let `store` be the first store of the
      shutdown flag after any run of a created scheduler. Some schedule leaves a task in
      a queue with every worker stopped if and only if a harmful submit is in its window
      at the store, and no worker's callback has called shutdown itself, which would
      wait for itself for ever. */
  lemma ShutdownLosesExactly(cfg: Config, localRoom: nat, globalRoom: nat, clients: nat,
                             before: seq<Action>, store: Action)
    requires cfg.workers > 0 && localRoom > 0 && globalRoom > 0
    requires Legal(Initial(cfg, localRoom, globalRoom, clients), before)
    requires var s0 := Run(Initial(cfg, localRoom, globalRoom, clients), before);
             Enabled(s0, store) && !s0.shut.flag && Apply(s0, store).shut.flag
    ensures var s := Apply(Run(Initial(cfg, localRoom, globalRoom, clients), before), store);
            CanLose(s) <==> !NoneHarmful(s) && NoWorkerJoins(s)
  {
    var start := Initial(cfg, localRoom, globalRoom, clients);
    InitialKnown(cfg, localRoom, globalRoom, clients);
    KnownOverRun(start, before);
    RoomsOverRun(start, before);
    LosesExactly(Run(start, before), store);
  }
}
