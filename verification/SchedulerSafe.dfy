/** When no harmful submit is in its window at the first flag store, shutdown leaves no
    task behind: a worker's own callback may still push to its own queue or to the
    global one, because that worker looks at both before it stops. */
module SchedulerSafe {
  import opened Common
  import opened SchedulerModel
  import opened SchedulerShape
  import opened SchedulerPlaces
  import opened SchedulerIdle
  import opened SchedulerShutdown

  /** Somebody will still look at the global queue: a callback that has yet to push, or
      a worker whose exit test holds what it has learned of that queue. */
  ghost predicate Watched(s: State) {
    || (exists k :: 0 <= k < |s.calls| && InWindow(s.calls[k]))
    || (exists w :: 0 <= w < |s.workers| && GlobalSound(s, s.workers[w].pc))
  }

  /** Every exit test holds what it has learned of the worker's own queue. */
  ghost predicate OwnQueuesSound(s: State) {
    forall w :: 0 <= w < |s.workers| && w < |s.locals| ==> OwnSound(s, w, s.workers[w].pc)
  }

  ghost predicate Guarded(s: State) {
    && (s.shut.quiet ==> s.shut.safe)
    && (s.shut.safe ==> s.shut.flag && NoneHarmful(s) && OwnQueuesSound(s) && Watched(s))
  }

  // ---- the flag store ----

  /** Before the flag is up nobody tests for exit, so nothing is known wrongly. */
  lemma StoreGuards(s: State, s': State)
    requires Shape(s) && Closing(s) && !s.shut.flag && |s'.workers| == |s.workers| && s'.workers == s.workers
    ensures OwnQueuesSound(s') && Watched(s')
  {
    assert !Exiting(s.workers[0].pc);
    assert GlobalSound(s', s'.workers[0].pc);
  }

  /** How an action of thread `k` changes the bits. */
  lemma BitsAfter(s: State, a: Action)
    requires Shape(s) && Closing(s) && Enabled(s, a)
    ensures var s' := Apply(s, a);
            && (s'.shut.flag == s.shut.flag ==> s'.shut.quiet == s.shut.quiet && s'.shut.safe == s.shut.safe)
            && (s.shut.flag ==> s'.shut.flag)
            && (s'.shut.flag && !s.shut.flag ==>
                 && a.CStep? && s'.workers == s.workers
                 && (s'.shut.quiet ==> s'.shut.safe) && (s'.shut.safe <==> NoneHarmful(s')))
  {
    match a
    case WStep(w) => WStepEffect(s, a);
    case WContend(w) => WStepEffect(s, a);
    case Begin(_, _) =>
    case CStep(k) =>
      if InSubmit(s.calls[k]) {
        SubmitBits(s, k);
      } else if InIdle(s.calls[k]) {
      } else if InCancel(s.calls[k]) {
        assert CallShape(s, k, s.calls[k]);
        CancelBits(s, k);
        StoreSeesHarm(SetCall(s, k, Apply(s, a).calls[k]));
      } else {
        ShutBits(s, k);
        StoreSeesHarm(SetCall(s, k, Apply(s, a).calls[k]));
      }
  }

  lemma StoreSeesHarm(s: State)
    ensures !s.shut.flag ==>
              && (RaiseFlag(s).shut.quiet ==> RaiseFlag(s).shut.safe)
              && (RaiseFlag(s).shut.safe <==> NoneHarmful(RaiseFlag(s)))
  {
    forall k | 0 <= k < |s.calls| ensures Harmful(RaiseFlag(s), k) == Harmful(s, k) {
    }
  }

  lemma SubmitBits(s: State, k: nat)
    requires Shape(s) && k < |s.calls| && InSubmit(s.calls[k])
    ensures var s' := StepSubmit(s, k); s'.shut == s.shut
  {
    if s.calls[k].SubPush? || s.calls[k].SubSpill? {
      var q := AttemptEffect(s, k);
    }
  }

  lemma CancelBits(s: State, k: nat)
    requires Shape(s) && k < |s.calls| && InCancel(s.calls[k]) && CallShape(s, k, s.calls[k])
    ensures var s' := StepCancel(s, k);
            if s.calls[k].CancelFlag? then s' == RaiseFlag(SetCall(s, k, s'.calls[k]))
            else s'.shut == s.shut
  {
  }

  lemma ShutBits(s: State, k: nat)
    requires k < |s.calls|
    ensures var s' := StepShut(s, k);
            if s.calls[k].ShutFlag? then s' == RaiseFlag(SetCall(s, k, s'.calls[k]))
            else s'.shut == s.shut
  {
  }

  // ---- windows after the store ----

  /** With the flag up a submit only leaves its window, and its push stays where it was
      headed. */
  lemma SubmitStaysHarmless(s: State, k: nat)
    requires Shape(s) && s.shut.flag && k < |s.calls| && InSubmit(s.calls[k]) && !Harmful(s, k)
    ensures k < |StepSubmit(s, k).calls| && !Harmful(StepSubmit(s, k), k)
    ensures InWindow(StepSubmit(s, k).calls[k]) ==> InWindow(s.calls[k])
  {
    if s.calls[k].SubPush? || s.calls[k].SubSpill? {
      var q := AttemptEffect(s, k);
    }
  }

  lemma StaysHarmless(s: State, a: Action)
    requires Shape(s) && s.shut.flag && Enabled(s, a) && NoneHarmful(s)
    ensures NoneHarmful(Apply(s, a))
  {
    var s' := Apply(s, a);
    SameThreads(s, a);
    forall k | 0 <= k < |s'.calls| ensures !Harmful(s', k) {
      CallsAfter(s, a, k);
      assert !Harmful(s, k);
      if a == CStep(k) {
        MyWindow(s, k);
      } else if !(a.Begin? && a.k == k) {
        SameHome(s, a, k);
      }
    }
  }

  lemma MyWindow(s: State, k: nat)
    requires Shape(s) && s.shut.flag && Enabled(s, CStep(k)) && !Harmful(s, k)
    ensures k < |Apply(s, CStep(k)).calls| && !Harmful(Apply(s, CStep(k)), k)
    ensures InWindow(Apply(s, CStep(k)).calls[k]) ==> InWindow(s.calls[k])
  {
    if InSubmit(s.calls[k]) {
      SubmitStaysHarmless(s, k);
    } else if InCancel(s.calls[k]) {
      CancelEffect(s, k);
    } else if InIdle(s.calls[k]) {
      IdleEffect(s, k);
    }
  }

  /** The target of a thread's push does not depend on others. */
  lemma SameHome(s: State, a: Action, k: nat)
    requires Shape(s) && Enabled(s, a) && k < |s.calls| && a != CStep(k)
    ensures var s' := Apply(s, a);
            && s'.cfg == s.cfg && |s'.workers| == |s.workers| && |s'.next| == |s.next| && s'.next[k] == s.next[k]
  {
    match a
    case WStep(w) => WStepEffect(s, a);
    case WContend(w) => WStepEffect(s, a);
    case Begin(_, _) =>
    case CStep(j) => OtherCounter(s, j, k);
  }

  lemma OtherCounter(s: State, j: nat, k: nat)
    requires Shape(s) && Enabled(s, CStep(j)) && k < |s.calls| && j != k
    ensures var s' := Apply(s, CStep(j));
            && s'.cfg == s.cfg && |s'.workers| == |s.workers| && |s'.next| == |s.next| && s'.next[k] == s.next[k]
  {
    if s.calls[j].SubPush? || s.calls[j].SubSpill? {
      AttemptCounter(s, j, k);
    } else if InCancel(s.calls[j]) {
      assert CallShape(s, j, s.calls[j]);
    }
  }

  lemma AttemptCounter(s: State, j: nat, k: nat)
    requires Shape(s) && j < |s.calls| && (s.calls[j].SubPush? || s.calls[j].SubSpill?) && k < |s.calls| && j != k
    ensures var s' := StepAttempt(s, j, s.calls[j].task);
            && s'.cfg == s.cfg && |s'.workers| == |s.workers| && |s'.next| == |s.next| && s'.next[k] == s.next[k]
  {
  }

  // ---- what the exit tests know ----

  lemma OutsideWindow(s: State, a: Action)
    requires Shape(s) && Enabled(s, a) && (a.CStep? ==> !InWindow(s.calls[a.k]))
    ensures Drains(s, Apply(s, a))
  {
    match a
    case WStep(w) => WorkerDrains(s, a);
    case WContend(w) => WorkerDrains(s, a);
    case Begin(_, _) =>
    case CStep(k) =>
      if InCancel(s.calls[k]) {
        assert CallShape(s, k, s.calls[k]);
        CancelDrains(s, k);
      } else if InSubmit(s.calls[k]) {
        AnswerDrains(s, k);
      }
  }

  /** A harmless submit of worker `k` touches only `k`'s own queue and the global one. */
  lemma HarmlessPush(s: State, k: nat)
    requires Shape(s) && k < |s.calls| && InWindow(s.calls[k]) && !Harmful(s, k)
    ensures var s' := StepSubmit(s, k);
            && k < |s.workers| && s'.workers == s.workers && |s'.locals| == |s.locals|
            && (forall i :: 0 <= i < |s.locals| && i != k ==> s'.locals[i] == s.locals[i])
  {
  }

  /** Own queues after an action that is not worker `w`'s. */
  lemma OwnStays(s: State, a: Action, w: nat)
    requires Shape(s) && Closing(s) && s.shut.flag && NoneHarmful(s) && Enabled(s, a)
    requires w < |s.workers| && !((a.WStep? || a.WContend?) && a.w == w) && OwnSound(s, w, s.workers[w].pc)
    ensures var s' := Apply(s, a);
            w < |s'.workers| && w < |s'.locals| && OwnSound(s', w, s'.workers[w].pc)
  {
    var s' := Apply(s, a);
    ShapeKept(s, a);
    SameWorker(s, a, w);
    if a.CStep? && InWindow(s.calls[a.k]) {
      assert !Harmful(s, a.k) && CallShape(s, a.k, s.calls[a.k]);
      HarmlessPush(s, a.k);
    } else {
      OutsideWindow(s, a);
    }
  }

  lemma SameWorker(s: State, a: Action, w: nat)
    requires Shape(s) && Enabled(s, a) && w < |s.workers| && !((a.WStep? || a.WContend?) && a.w == w)
    ensures w < |Apply(s, a).workers| && Apply(s, a).workers[w] == s.workers[w]
  {
    if a.WStep? || a.WContend? {
      WStepEffect(s, a);
    } else if a.CStep? {
      CStepEffect(s, a.k);
    }
  }

  /** What a worker's own step does to what it knows. */
  lemma RoundKnows(s: State, w: nat)
    requires Shape(s) && w < |s.workers| && Resting(s.workers[w].pc)
    ensures OwnSound(s, w, s.workers[w].pc) ==> OwnSound(StepRound(s, w), w, StepRound(s, w).workers[w].pc)
    ensures GlobalSound(s, s.workers[w].pc) ==> GlobalSound(StepRound(s, w), StepRound(s, w).workers[w].pc)
  {
    match s.workers[w].pc
    case ExitGlobalTail(h0) => SizeIsExact(s.global, h0);
    case ExitOwnTail(h0) => SizeIsExact(s.locals[w], h0);
    case _ =>
  }

  lemma OwnStepKnows(s: State, a: Action)
    requires Shape(s) && Enabled(s, a) && (a.WStep? || a.WContend?)
    ensures var s', w := Apply(s, a), a.w;
            && w < |s'.workers| && w < |s'.locals|
            && (OwnSound(s, w, s.workers[w].pc) ==> OwnSound(s', w, s'.workers[w].pc))
            && (GlobalSound(s, s.workers[w].pc) ==> GlobalSound(s', s'.workers[w].pc))
  {
    ShapeKept(s, a);
    if s.workers[a.w].pc.Probe? {
      ProbeEffect(s, a.w, a.WStep?);
    } else if Holding(s.workers[a.w].pc) {
      TaskEffect(s, a.w);
    } else {
      RoundKnows(s, a.w);
    }
  }

  lemma OwnQueuesKept(s: State, a: Action)
    requires Shape(s) && Closing(s) && s.shut.flag && NoneHarmful(s) && OwnQueuesSound(s) && Enabled(s, a)
    ensures OwnQueuesSound(Apply(s, a))
  {
    var s' := Apply(s, a);
    ShapeKept(s, a);
    SameThreads(s, a);
    forall w | 0 <= w < |s'.workers| && w < |s'.locals| ensures OwnSound(s', w, s'.workers[w].pc) {
      assert OwnSound(s, w, s.workers[w].pc);
      if (a.WStep? || a.WContend?) && a.w == w {
        OwnStepKnows(s, a);
      } else {
        OwnStays(s, a, w);
      }
    }
  }

  /** While a callback is in its window it watches; the one that leaves its window last
      is still running its callback, and from then on nothing is pushed. */
  lemma WatchedKept(s: State, a: Action)
    requires Shape(s) && s.shut.flag && NoneHarmful(s) && Watched(s) && Enabled(s, a)
    ensures Watched(Apply(s, a))
  {
    var s' := Apply(s, a);
    SameThreads(s, a);
    if k :| 0 <= k < |s.calls| && InWindow(s.calls[k]) {
      CallsAfter(s, a, k);
      if a == CStep(k) {
        assert !Harmful(s, k) && CallShape(s, k, s.calls[k]);
        CStepEffect(s, k);
        assert GlobalSound(s', s'.workers[k].pc);
      } else {
        assert InWindow(s'.calls[k]);
      }
    } else {
      var w :| 0 <= w < |s.workers| && GlobalSound(s, s.workers[w].pc);
      OutsideWindow(s, a);
      ShapeKept(s, a);
      if (a.WStep? || a.WContend?) && a.w == w {
        OwnStepKnows(s, a);
      } else {
        SameWorker(s, a, w);
      }
      assert GlobalSound(s', s'.workers[w].pc);
    }
  }

  lemma GuardedKept(s: State, a: Action)
    requires Shape(s) && Closing(s) && Guarded(s) && Enabled(s, a)
    ensures Guarded(Apply(s, a))
  {
    BitsAfter(s, a);
    if s.shut.safe {
      StaysHarmless(s, a);
      OwnQueuesKept(s, a);
      WatchedKept(s, a);
    } else if Apply(s, a).shut.flag && !s.shut.flag {
      StoreGuards(s, Apply(s, a));
    }
  }

  // ---- what shutdown guarantees ----

  /** When all workers have stopped after a safe flag store, all queues are empty and
      no worker has a task. */
  lemma StoppedMeansEmpty(s: State)
    requires Shape(s) && Guarded(s) && s.shut.safe
    requires forall w :: 0 <= w < |s.workers| ==> s.workers[w].pc == Stopped
    ensures s.global.Items() == [] && forall i :: 0 <= i < |s.locals| ==> s.locals[i].Items() == []
    ensures Queued(s) == 0
  {
    forall k | 0 <= k < |s.calls| ensures !InWindow(s.calls[k]) {
      assert !Harmful(s, k) && CallShape(s, k, s.calls[k]);
    }
    forall i | 0 <= i < |s.locals| ensures s.locals[i].Items() == [] {
      assert OwnSound(s, i, s.workers[i].pc);
    }
    TotalRange(QueueLength, s.locals, 0);
  }

  /** Graceful shutdown: when fq_scheduler_shutdown is through its joins and no harmful
      submit was in its window when the flag was first stored, every accepted task was
      executed or dropped by a cancel_all, exactly once and not both, but for those a
      cancel_all still has in its batch. */
  lemma ShutdownFinishesAll(s: State, k: nat, t: Task)
    requires Sound(s) && Closing(s) && Guarded(s) && s.shut.safe && k < |s.calls| && s.calls[k].ShutDone?
    ensures Queued(s) == 0
    ensures t in s.log.accepted ==>
              multiset(s.log.ran)[t] + multiset(s.log.dropped)[t] + Total(Batching(t), s.calls) == 1
    ensures t in s.log.accepted && (forall j :: 0 <= j < |s.calls| ==> !InCancel(s.calls[j])) ==>
              (t in s.log.ran <==> t !in s.log.dropped)
  {
    assert Joined(s, s.calls[k]);
    StoppedMeansEmpty(s);
    assert ConservedFor(s, t);
    NothingWaits(s, t);
    PlacesTerms(s, t);
    TotalRange(Handling(t), s.workers, 0);
    if forall j :: 0 <= j < |s.calls| ==> !InCancel(s.calls[j]) {
      TotalRange(Batching(t), s.calls, 0);
    }
  }
}
