/** The exit test of worker_main and the joins of fq_scheduler_shutdown: what a worker
    knows when it stops after a quiet flag store. */
module SchedulerShutdown {
  import opened SchedulerModel
  import opened SchedulerShape

  // ---- the exit test ----

  predicate Exiting(pc: WPc) {
    pc.ExitGlobalHead? || pc.ExitGlobalTail? || pc.ExitOwnHead? || pc.ExitOwnTail? || pc.Stopped?
  }

  /** `h0` is a number of pops of `f` from which the size is still read correctly. */
  predicate Near(f: Fifo, h0: nat) {
    h0 <= f.popped <= |f.pushed| <= h0 + f.room
  }

  /** What a worker's exit test knows of the global queue, with pushes to it stopped. */
  predicate GlobalSound(s: State, pc: WPc) {
    match pc
    case ExitGlobalTail(h0) => Near(s.global, h0)
    case ExitOwnHead => s.global.Empty()
    case ExitOwnTail(_) => s.global.Empty()
    case Stopped => s.global.Empty()
    case _ => true
  }

  /** ... and of worker `w`'s own queue. */
  predicate OwnSound(s: State, w: nat, pc: WPc)
    requires w < |s.locals|
  {
    match pc
    case ExitOwnTail(h0) => Near(s.locals[w], h0)
    case Stopped => s.locals[w].Empty()
    case _ => true
  }

  predicate ExitSound(s: State, w: nat, pc: WPc)
    requires w < |s.locals|
  {
    GlobalSound(s, pc) && OwnSound(s, w, pc)
  }

  /** A shutdown has joined the workers before the one it waits for. */
  ghost predicate Joined(s: State, c: Call) {
    && (c.ShutJoin? ==> forall w :: 0 <= w < |s.workers| && w < c.i ==> s.workers[w].pc == Stopped)
    && (c.ShutDone? ==> forall w :: 0 <= w < |s.workers| ==> s.workers[w].pc == Stopped)
  }

  ghost predicate Closing(s: State) {
    && (s.shut.quiet ==> s.shut.flag && NoneInWindow(s))
    && (forall w :: 0 <= w < |s.workers| && Exiting(s.workers[w].pc) ==> s.shut.flag)
    && (forall w :: 0 <= w < |s.workers| && w < |s.locals| && s.shut.quiet ==> ExitSound(s, w, s.workers[w].pc))
    && (forall k :: 0 <= k < |s.calls| ==> Joined(s, s.calls[k]))
  }

  /** Queues only lose tasks. */
  ghost predicate Drains(s: State, s': State) {
    && FifoDrains(s.global, s'.global)
    && |s'.locals| == |s.locals|
    && forall i :: 0 <= i < |s.locals| ==> FifoDrains(s.locals[i], s'.locals[i])
  }

  predicate FifoDrains(f: Fifo, f': Fifo) {
    f'.pushed == f.pushed && f.popped <= f'.popped && f'.room == f.room
  }

  lemma WorkerDrains(s: State, a: Action)
    requires Shape(s) && Enabled(s, a) && (a.WStep? || a.WContend?)
    ensures Drains(s, Apply(s, a))
  {
    if s.workers[a.w].pc.Probe? {
      ProbeEffect(s, a.w, a.WStep?);
    } else if Holding(s.workers[a.w].pc) {
      TaskEffect(s, a.w);
    } else {
      RoundEffect(s, a.w);
    }
  }

  /** Once no submit is in its window and the flag is up, nothing is pushed. */
  lemma QuietDrains(s: State, a: Action)
    requires Shape(s) && Closing(s) && s.shut.quiet && Enabled(s, a)
    ensures Drains(s, Apply(s, a))
  {
    match a
    case WStep(w) => WorkerDrains(s, a);
    case WContend(w) => WorkerDrains(s, a);
    case Begin(k, c) =>
    case CStep(k) =>
      assert !InWindow(s.calls[k]);
      if InCancel(s.calls[k]) {
        assert CallShape(s, k, s.calls[k]);
        CancelDrains(s, k);
      } else if InSubmit(s.calls[k]) {
        AnswerDrains(s, k);
      }
  }

  lemma CancelDrains(s: State, k: nat)
    requires Shape(s) && k < |s.calls| && InCancel(s.calls[k]) && CallShape(s, k, s.calls[k])
    ensures Drains(s, StepCancel(s, k))
  {
  }

  lemma AnswerDrains(s: State, k: nat)
    requires Shape(s) && k < |s.calls| && InSubmit(s.calls[k]) && !s.calls[k].SubPush? && !s.calls[k].SubSpill?
    ensures Drains(s, StepSubmit(s, k))
  {
  }

  lemma ExitStays(s: State, s': State, w: nat, pc: WPc)
    requires w < |s.locals| && ExitSound(s, w, pc) && Drains(s, s')
    requires s'.global.Valid() && s'.locals[w].Valid()
    ensures ExitSound(s', w, pc)
  {
  }

  // ---- the invariant is kept ----

  /** Flag, quiet bit and window after one action. */
  lemma WindowKept(s: State, a: Action)
    requires Shape(s) && Closing(s) && Enabled(s, a)
    ensures var s' := Apply(s, a);
            && (s.shut.flag ==> s'.shut.flag && s'.shut.quiet == s.shut.quiet)
            && (s'.shut.quiet ==> s'.shut.flag && NoneInWindow(s'))
  {
    var s' := Apply(s, a);
    match a
    case WStep(w) => WStepEffect(s, a);
    case WContend(w) => WStepEffect(s, a);
    case Begin(k, c) =>
    case CStep(k) =>
      CStepEffect(s, k);
      if InSubmit(s.calls[k]) {
        SubmitWindow(s, k);
      } else if InCancel(s.calls[k]) {
        CancelEffect(s, k);
        CancelFlagOnly(s, k);
      }
  }

  lemma SubmitWindow(s: State, k: nat)
    requires Shape(s) && k < |s.calls| && InSubmit(s.calls[k])
    ensures var s' := StepSubmit(s, k);
            && s'.shut.flag == s.shut.flag && s'.shut.quiet == s.shut.quiet
            && (s.shut.flag && !InWindow(s.calls[k]) ==> !InWindow(s'.calls[k]))
  {
  }

  lemma CancelFlagOnly(s: State, k: nat)
    requires Shape(s) && k < |s.calls| && InCancel(s.calls[k])
    ensures var s' := StepCancel(s, k);
            && (!s.calls[k].CancelFlag? ==> s'.shut.flag == s.shut.flag && s'.shut.quiet == s.shut.quiet)
            && (s.calls[k].CancelFlag? ==>
                  (s'.shut.flag
                    && s'.shut.quiet == if s.shut.flag then s.shut.quiet else NoneInWindow(SetCall(s, k, s'.calls[k]))))
  {
    assert CallShape(s, k, s.calls[k]);
  }

  /** A worker enters the exit test only with the flag up, and each of its loads
      learns what it should. */
  lemma RoundExits(s: State, w: nat)
    requires Shape(s) && w < |s.workers| && Resting(s.workers[w].pc)
    requires s.shut.quiet ==> ExitSound(s, w, s.workers[w].pc)
    requires Exiting(s.workers[w].pc) ==> s.shut.flag
    ensures Exiting(StepRound(s, w).workers[w].pc) ==> s.shut.flag
    ensures s.shut.quiet ==> ExitSound(StepRound(s, w), w, StepRound(s, w).workers[w].pc)
    ensures s.workers[w].pc.Stopped? ==> StepRound(s, w).workers[w].pc.Stopped?
  {
    match s.workers[w].pc
    case ExitGlobalTail(h0) => SizeIsExact(s.global, h0);
    case ExitOwnTail(h0) => SizeIsExact(s.locals[w], h0);
    case _ =>
  }

  /** With pushes stopped since the head load, a size of 0 means empty. */
  lemma SizeIsExact(f: Fifo, h0: nat)
    ensures Near(f, h0) ==> f.SizeSince(h0) == |f.pushed| - h0
    ensures Near(f, h0) && f.SizeSince(h0) == 0 ==> f.Empty()
  {
  }

  lemma WorkerExits(s: State, a: Action)
    requires Shape(s) && Closing(s) && Enabled(s, a) && (a.WStep? || a.WContend?)
    ensures var s', w := Apply(s, a), a.w;
            && w < |s'.workers|
            && (Exiting(s'.workers[w].pc) ==> s.shut.flag)
            && (s.shut.quiet && w < |s'.locals| ==> ExitSound(s', w, s'.workers[w].pc))
            && s.workers[w].pc != Stopped
  {
    var w := a.w;
    if s.workers[w].pc.Probe? {
      ProbeEffect(s, w, a.WStep?);
    } else if Holding(s.workers[w].pc) {
      TaskEffect(s, w);
    } else {
      RoundExits(s, w);
    }
  }

  lemma ClosingWorkers(s: State, a: Action)
    requires Shape(s) && Closing(s) && Enabled(s, a)
    ensures var s' := Apply(s, a);
            && (forall w :: 0 <= w < |s'.workers| && Exiting(s'.workers[w].pc) ==> s'.shut.flag)
            && (forall w :: 0 <= w < |s.workers| && s.workers[w].pc == Stopped ==>
                              w < |s'.workers| && s'.workers[w].pc == Stopped)
  {
    WindowKept(s, a);
    if a.WStep? || a.WContend? {
      WorkerExits(s, a);
      WStepEffect(s, a);
    } else if a.CStep? {
      CStepEffect(s, a.k);
    }
  }

  lemma ClosingExits(s: State, a: Action)
    requires Shape(s) && Closing(s) && Enabled(s, a)
    ensures var s' := Apply(s, a);
            forall w :: 0 <= w < |s'.workers| && w < |s'.locals| && s'.shut.quiet ==> ExitSound(s', w, s'.workers[w].pc)
  {
    var s' := Apply(s, a);
    ShapeKept(s, a);
    WindowKept(s, a);
    if a.WStep? || a.WContend? {
      WorkerExits(s, a);
      WStepEffect(s, a);
    } else if a.CStep? {
      CStepEffect(s, a.k);
    }
    forall w | 0 <= w < |s'.workers| && w < |s'.locals| && s'.shut.quiet
      ensures ExitSound(s', w, s'.workers[w].pc)
    {
      if !s.shut.quiet {
        assert !s.shut.flag;
        assert !Exiting(s.workers[w].pc);
      } else if !((a.WStep? || a.WContend?) && a.w == w) {
        QuietDrains(s, a);
        ExitStays(s, s', w, s.workers[w].pc);
      }
    }
  }

  lemma ClosingJoins(s: State, a: Action)
    requires Shape(s) && Closing(s) && Enabled(s, a)
    ensures var s' := Apply(s, a);
            forall k :: 0 <= k < |s'.calls| ==> Joined(s', s'.calls[k])
  {
    var s' := Apply(s, a);
    ClosingWorkers(s, a);
    SameThreads(s, a);
    forall k | 0 <= k < |s'.calls|
      ensures Joined(s', s'.calls[k])
    {
      CallsAfter(s, a, k);
      assert Joined(s, s.calls[k]);
      if a == CStep(k) {
        JoinStep(s, k);
      } else {
        StaysJoined(s, s', s.calls[k]);
      }
    }
  }

  lemma StaysJoined(s: State, s': State, c: Call)
    requires Joined(s, c) && |s'.workers| == |s.workers|
    requires forall w :: 0 <= w < |s.workers| && s.workers[w].pc == Stopped ==> s'.workers[w].pc == Stopped
    ensures Joined(s', c)
  {
  }

  lemma JoinStep(s: State, k: nat)
    requires Shape(s) && Enabled(s, CStep(k)) && Joined(s, s.calls[k])
    ensures Joined(Apply(s, CStep(k)), Apply(s, CStep(k)).calls[k])
  {
    CStepEffect(s, k);
    if InCancel(s.calls[k]) {
      CancelEffect(s, k);
    } else if s.calls[k].SubPush? || s.calls[k].SubSpill? {
      AttemptStep(s, k);
    } else if InSubmit(s.calls[k]) {
      SubmitEffect(s, k);
    }
  }

  lemma ClosingKept(s: State, a: Action)
    requires Shape(s) && Closing(s) && Enabled(s, a)
    ensures Closing(Apply(s, a))
  {
    WindowKept(s, a);
    ClosingWorkers(s, a);
    ClosingExits(s, a);
    ClosingJoins(s, a);
  }
}
