/** What callers may conclude from a future: an FQ_OK answer means the task's callback
    returned, no waiter sleeps through a fulfilment, and a finished task leaves no
    future pending but for a fulfilment already on its way. */
module FutureOutcome {
  import opened Common
  import opened FutureModel
  import opened FutureFacts

  // ---- answers ----

  /** fq_future_wait returns the status itself; the timed wait returns FQ_OK and
      stores it, or returns FQ_ERR_TIMEOUT. */
  predicate AnswerForm(pc: Pc) {
    pc.WDone? ==> pc.ret == if pc.timed then (if pc.st == Timeout then Timeout else OK) else pc.st
  }

  predicate AnswerRange(pc: Pc) {
    && (pc.WDone? ==> pc.st == OK || pc.st == Canceled || (pc.timed && pc.st == Timeout))
    && (pc.SDone? ==> pc.ret == OK || pc.ret == Canceled || pc.ret == Busy)
    && (pc.RInvoke? ==> pc.st == OK || pc.st == Canceled)
    && (pc.RUnlock? ==> pc.now != Some(Busy) && (pc.now.Some? ==> pc.now.value == OK || pc.now.value == Canceled))
  }

  /** Every thread's answer is well formed, and every completion callback that was
      told FQ_OK was told so after the task's callback returned. */
  ghost predicate Answers(s: State) {
    && (forall k :: 0 <= k < |s.pcs| ==> AnswerForm(s.pcs[k]) && AnswerRange(s.pcs[k]))
    && (forall i :: 0 <= i < |s.log.invoked| ==> Told(s, s.log.invoked[i].1))
  }

  predicate Told(s: State, st: Status) {
    && s.future.ready
    && (st == OK || st == Canceled)
    && (st == OK ==> s.task.body == Finished)
  }

  lemma MoveAnswers(s: State, a: Action)
    requires Enabled(s, a) && Outcome(s.future, s.task)
    requires AnswerForm(s.pcs[a.k]) && AnswerRange(s.pcs[a.k])
    ensures AnswerForm(MoveOf(s, a).pc) && AnswerRange(MoveOf(s, a).pc)
  {
    if a.Step? && InWait(s.pcs[a.k]) {
    } else if a.Step? && InRegister(s.pcs[a.k]) {
    }
  }

  /** At most one callback is invoked, with an outcome the mover carries. */
  lemma MoveInvokes(s: State, a: Action)
    requires Enabled(s, a) && Mine(s.future, s.task, a.k, s.pcs[a.k]) && AnswerRange(s.pcs[a.k])
    ensures var old', new' := s.log.invoked, Record(s, a).invoked;
            new' == old' || (|new'| == |old'| + 1 && new'[..|old'|] == old' && Told(s, new'[|old'|].1))
  {}

  lemma AnswersKept(s: State, a: Action)
    requires Enabled(s, a) && Facts(s) && Answers(s)
    ensures Answers(Apply(s, a))
  {
    var k, s' := a.k, Apply(s, a);
    MoveKeeps(s, a);
    MoveAnswers(s, a);
    MoveInvokes(s, a);
    forall j | 0 <= j < |s'.pcs| ensures AnswerForm(s'.pcs[j]) && AnswerRange(s'.pcs[j]) {
      if j != k {
        Others(s, a, j);
      }
    }
    forall i | 0 <= i < |s'.log.invoked| ensures Told(s', s'.log.invoked[i].1) {
      if i < |s.log.invoked| {
        assert s'.log.invoked[i] == s'.log.invoked[..|s.log.invoked|][i];
        assert Told(s, s.log.invoked[i].1);
      }
    }
  }

  // ---- fulfilments on their way ----

  /** Committed to fulfilling the future, before the store to `ready`. */
  predicate Committed(pc: Pc) {
    pc.FLock? || pc.FStatus? || pc.FReady?
  }

  ghost predicate Coming(s: State) {
    exists j :: 0 <= j < |s.pcs| && Committed(s.pcs[j])
  }

  /** Whoever set `canceled` or `executed`, and whoever freed the task, left the future
      fulfilled or a fulfilment on its way. */
  ghost predicate Promised(s: State) {
    && (s.future.canceled || s.task.executed || s.task.freed ==> s.future.ready || Coming(s))
    && (forall k :: 0 <= k < |s.pcs| && s.pcs[k].DFree? ==> s.future.ready || Coming(s))
  }

  lemma ComingKept(s: State, a: Action)
    requires Enabled(s, a) && Facts(s) && (s.future.ready || Coming(s))
    ensures Apply(s, a).future.ready || Coming(Apply(s, a))
  {
    MoveKeeps(s, a);
    if !s.future.ready {
      var j :| 0 <= j < |s.pcs| && Committed(s.pcs[j]);
      if j != a.k {
        Others(s, a, j);
        assert Committed(Apply(s, a).pcs[j]);
      } else {
        CommittedMoves(s, a);
        assert Apply(s, a).pcs[j] == MoveOf(s, a).pc;
      }
    }
  }

  lemma CommittedMoves(s: State, a: Action)
    requires Enabled(s, a) && Committed(s.pcs[a.k])
    ensures MoveOf(s, a).future.ready || Committed(MoveOf(s, a).pc)
  {}

  /** A flag goes up in the same action that commits to a fulfilment, or after one. */
  lemma FlagsCommit(s: State, a: Action)
    requires Enabled(s, a) && Mine(s.future, s.task, a.k, s.pcs[a.k])
    ensures var m := MoveOf(s, a);
            && (m.future.canceled ==> s.future.canceled || Committed(m.pc))
            && (m.task.executed ==> s.task.executed || Committed(m.pc))
            && (m.task.freed ==> s.task.freed || s.pcs[a.k].DFree?)
            && (m.pc.DFree? ==> s.future.ready || s.future.canceled)
  {}

  lemma PromisedKept(s: State, a: Action)
    requires Enabled(s, a) && Facts(s) && Promised(s)
    ensures Promised(Apply(s, a))
  {
    var k, s' := a.k, Apply(s, a);
    FlagsCommit(s, a);
    if s.future.ready || Coming(s) {
      ComingKept(s, a);
    } else {
      if s'.future.canceled || s'.task.executed {
        assert Committed(s'.pcs[k]);
      }
      forall j | 0 <= j < |s'.pcs| ensures !s'.pcs[j].DFree? {
        if j != k {
          Others(s, a, j);
        }
      }
    }
  }

  // ---- sleepers ----

  /** The mutex is held by a fulfilment that has stored `ready` and is about to
      broadcast. */
  ghost predicate Broadcasting(s: State) {
    s.future.lock.Some? && s.future.lock.value < |s.pcs| && s.pcs[s.future.lock.value].FBroadcast?
  }

  /** No lost wakeup: a waiter asleep and not signalled sees an unfulfilled future, or
      the broadcast is the next thing the lock holder does. */
  ghost predicate NoneForgotten(s: State) {
    forall j :: 0 <= j < |s.pcs| && s.pcs[j].WSleep? && !s.pcs[j].signalled && s.future.ready ==> Broadcasting(s)
  }

  lemma SleepMoves(s: State, a: Action)
    requires Enabled(s, a)
    ensures var m := MoveOf(s, a);
            && (m.pc.WSleep? ==> !m.future.ready)
            && (m.future.ready ==> s.future.ready || m.pc.FBroadcast?)
  {}

  lemma NoneForgottenKept(s: State, a: Action)
    requires Enabled(s, a) && Facts(s) && NoneForgotten(s)
    ensures NoneForgotten(Apply(s, a))
  {
    var k, s' := a.k, Apply(s, a);
    SleepMoves(s, a);
    FactsKept(s, a);
    MoveKeeps(s, a);
    forall j | 0 <= j < |s'.pcs| && s'.pcs[j].WSleep? && !s'.pcs[j].signalled && s'.future.ready
      ensures Broadcasting(s')
    {
      Others(s, a, j);
      if s.future.ready {
        BroadcasterStays(s, a, j);
      } else {
        assert HoldsLock(s'.pcs[k]);
      }
    }
  }

  /** Until it broadcasts, the broadcaster keeps the lock. */
  lemma BroadcasterStays(s: State, a: Action, j: nat)
    requires Enabled(s, a) && Facts(s) && Broadcasting(s)
    requires LockMoved(s.future, a.k, s.pcs[a.k], MoveOf(s, a).future, MoveOf(s, a).pc)
    requires j < |s.pcs| && j != a.k && Apply(s, a).pcs[j].WSleep? && !Apply(s, a).pcs[j].signalled
    ensures Broadcasting(Apply(s, a))
  {
    var h := s.future.lock.value;
    assert a.k != h;
    Others(s, a, h);
    if a.Step? && HoldsLock(MoveOf(s, a).pc) && !HoldsLock(s.pcs[a.k]) {
      OnlyLockersLock(s.future, s.task, a.k, s.pcs[a.k]);
    }
  }

  // ---- over every run ----

  ghost predicate Sound(s: State) {
    Facts(s) && Answers(s) && Promised(s) && NoneForgotten(s)
  }

  lemma SoundKept(s: State, a: Action)
    requires Enabled(s, a) && Sound(s)
    ensures Sound(Apply(s, a))
  {
    FactsKept(s, a);
    AnswersKept(s, a);
    PromisedKept(s, a);
    NoneForgottenKept(s, a);
  }

  lemma {:induction false} SoundOverRun(s: State, acts: seq<Action>)
    requires Sound(s) && Legal(s, acts)
    ensures Sound(Run(s, acts))
    decreases |acts|
  {
    if acts != [] {
      SoundKept(s, acts[0]);
      SoundOverRun(Apply(s, acts[0]), acts[1..]);
    }
  }

  /** In every interleaving of any number of waiters, registrations, cancels and the
      execution or the drain of the task: an FQ_OK outcome, whether read by a wait, a
      timed wait or a status call or handed to a completion callback, means that the
      task's callback has returned. The placeholder FQ_OK is never reported. */
  lemma OkMeansFinished(n: nat, acts: seq<Action>, k: nat)
    requires Legal(Initial(n), acts) && k < |Run(Initial(n), acts).pcs|
    ensures var s := Run(Initial(n), acts);
            && (s.pcs[k].WDone? && s.pcs[k].st == OK ==> s.task.body == Finished)
            && (s.pcs[k].WDone? && !s.pcs[k].timed ==>
                 s.pcs[k].ret == s.pcs[k].st && s.future.ready && (s.pcs[k].ret == OK || s.pcs[k].ret == Canceled))
            && (s.pcs[k].SDone? && s.pcs[k].ret == OK ==> s.task.body == Finished)
            && (forall i :: 0 <= i < |s.log.invoked| && s.log.invoked[i].1 == OK ==> s.task.body == Finished)
  {
    SoundOverRun(Initial(n), acts);
    var s := Run(Initial(n), acts);
    assert Mine(s.future, s.task, k, s.pcs[k]);
    assert AnswerForm(s.pcs[k]) && AnswerRange(s.pcs[k]);
    assert forall i :: 0 <= i < |s.log.invoked| ==> Told(s, s.log.invoked[i].1);
  }

  /** A waiter blocked and not signalled implies that the future is not fulfilled, but
      for the instant between the store to `ready` and the broadcast. */
  lemma NoLostWakeup(n: nat, acts: seq<Action>, k: nat)
    requires Legal(Initial(n), acts) && k < |Run(Initial(n), acts).pcs|
    requires Run(Initial(n), acts).pcs[k].WSleep? && !Run(Initial(n), acts).pcs[k].signalled
    ensures !Run(Initial(n), acts).future.ready || Broadcasting(Run(Initial(n), acts))
  {
    SoundOverRun(Initial(n), acts);
  }

  /** And no deadlock: while some thread is inside a call and is not waiting for a
      signal, some thread can take its next step. */
  lemma NoDeadlock(s: State, k: nat)
    requires Facts(s) && k < |s.pcs| && s.pcs[k] != Idle && !s.pcs[k].WSleep?
    ensures exists j :: Enabled(s, Step(j))
  {
    if TakesLock(s.pcs[k]) && s.future.lock.Some? {
      var h := s.future.lock.value;
      assert HoldsLock(s.pcs[h]);
      assert Enabled(s, Step(h));
    } else {
      assert Enabled(s, Step(k));
    }
  }

  // ---- cancelling in time ----

  /** The task is marked cancelled and its execution has not passed the check. */
  ghost predicate Stopped(s: State) {
    s.task.canceled && s.task.body == NotRun && forall k :: 0 <= k < |s.pcs| ==> !s.pcs[k].XCall?
  }

  lemma StoppedKept(s: State, a: Action)
    requires Enabled(s, a) && Facts(s) && Stopped(s)
    ensures Stopped(Apply(s, a))
  {
    MoveKeeps(s, a);
    assert Mine(s.future, s.task, a.k, s.pcs[a.k]);
    StoppedMove(s, a);
    forall j | 0 <= j < |s.pcs| ensures !Apply(s, a).pcs[j].XCall? {
      if j != a.k {
        Others(s, a, j);
      }
    }
  }

  lemma StoppedMove(s: State, a: Action)
    requires Enabled(s, a) && s.task.canceled && s.task.body == NotRun && !s.pcs[a.k].XCall?
    requires Mine(s.future, s.task, a.k, s.pcs[a.k])
    ensures MoveOf(s, a).task.body == NotRun && !MoveOf(s, a).pc.XCall?
  {}

  /** A task marked cancelled before the worker's check never runs, in any later run,
      and no outcome of it is ever FQ_OK. */
  lemma {:induction false} CanceledInTimeNeverRuns(s: State, acts: seq<Action>)
    requires Facts(s) && Stopped(s) && Legal(s, acts)
    ensures Run(s, acts).task.body == NotRun
    ensures Run(s, acts).future.ready ==> Run(s, acts).future.status == Canceled
    decreases |acts|
  {
    if acts != [] {
      FactsKept(s, acts[0]);
      StoppedKept(s, acts[0]);
      CanceledInTimeNeverRuns(Apply(s, acts[0]), acts[1..]);
    }
  }

  lemma Chain(s: State, a: Action, s': State, rest: seq<Action>)
    requires Enabled(s, a) && Apply(s, a) == s' && Legal(s', rest)
    ensures Legal(s, [a] + rest) && Run(s, [a] + rest) == Run(s', rest)
  {
    assert ([a] + rest)[1..] == rest;
  }

  lemma Unmoved(s: State, acts: seq<Action>)
    requires acts == []
    ensures Legal(s, acts) && Run(s, acts) == s
  {}

  /** And that is exactly when fq_task_cancel prevents the execution: once some thread
      has passed the check, a run in which the callback runs is possible although the
      cancel returned FQ_OK. */
  lemma CancelPreventsExactly(s: State)
    requires Facts(s) && s.task.canceled
    ensures (forall acts | Legal(s, acts) :: Run(s, acts).task.body == NotRun) <==> Stopped(s)
  {
    if Stopped(s) {
      forall acts | Legal(s, acts) ensures Run(s, acts).task.body == NotRun {
        CanceledInTimeNeverRuns(s, acts);
      }
    } else if s.task.body != NotRun {
      Unmoved(s, []);
    } else {
      var k :| 0 <= k < |s.pcs| && s.pcs[k].XCall?;
      Chain(s, Step(k), Apply(s, Step(k)), []);
      assert Legal(s, [Step(k)] + []);
    }
  }
}
