/** The future of a task that has been destroyed: exactly when it is fulfilled. */
module FutureFreed {
  import opened Common
  import opened FutureModel
  import opened FutureFacts
  import opened FutureOutcome
  import opened FutureCallbacks

  // ---- an executed task ----

  /** A thread that executed the task and has not stored `ready` yet. */
  predicate Executing(pc: Pc) {
    Committed(pc) && pc.who == ByExecute
  }

  ghost predicate Delivering(s: State) {
    exists j :: 0 <= j < |s.pcs| && Executing(s.pcs[j])
  }

  /** An executed task's own fulfilment is made or on its way, and nobody owns a task
      that was freed. */
  ghost predicate Settled(s: State) {
    && (s.task.executed ==> s.future.ready || Delivering(s))
    && (s.task.freed ==> forall j :: 0 <= j < |s.pcs| ==> !Owns(s.pcs[j]))
  }

  lemma ExecutingMoves(s: State, a: Action)
    requires Enabled(s, a)
    ensures Executing(s.pcs[a.k]) ==> MoveOf(s, a).future.ready || Executing(MoveOf(s, a).pc)
    ensures MoveOf(s, a).task.executed ==> s.task.executed || Executing(MoveOf(s, a).pc)
  {}

  /** Owning starts with an unowned task and the freeing ends it. */
  lemma OwningMoves(s: State, a: Action)
    requires Enabled(s, a) && Mine(s.future, s.task, a.k, s.pcs[a.k]) && Outcome(s.future, s.task)
    ensures Owns(MoveOf(s, a).pc) ==> Owns(s.pcs[a.k]) || !s.task.freed
    ensures MoveOf(s, a).task.freed && !s.task.freed ==> Owns(s.pcs[a.k]) && MoveOf(s, a).pc == Idle
  {}

  lemma SettledKept(s: State, a: Action)
    requires Enabled(s, a) && Facts(s) && Settled(s)
    ensures Settled(Apply(s, a))
  {
    assert Mine(s.future, s.task, a.k, s.pcs[a.k]);
    MoveKeeps(s, a);
    ExecutingMoves(s, a);
    DeliveringKept(s, a);
    NobodyOwns(s, a);
  }

  lemma DeliveringKept(s: State, a: Action)
    requires Enabled(s, a) && Settled(s)
    requires s.future.ready ==> MoveOf(s, a).future.ready
    requires Executing(s.pcs[a.k]) ==> MoveOf(s, a).future.ready || Executing(MoveOf(s, a).pc)
    requires MoveOf(s, a).task.executed ==> s.task.executed || Executing(MoveOf(s, a).pc)
    ensures var s' := Apply(s, a); s'.task.executed ==> s'.future.ready || Delivering(s')
  {
    var s', k := Apply(s, a), a.k;
    assert s'.pcs[k] == MoveOf(s, a).pc;
    if s'.task.executed && !s'.future.ready && !Executing(s'.pcs[k]) {
      var j :| 0 <= j < |s.pcs| && Executing(s.pcs[j]);
      Others(s, a, j);
      assert Executing(s'.pcs[j]);
    }
  }

  lemma NobodyOwns(s: State, a: Action)
    requires Enabled(s, a) && Facts(s) && Settled(s)
    ensures Apply(s, a).task.freed ==> forall j :: 0 <= j < |Apply(s, a).pcs| ==> !Owns(Apply(s, a).pcs[j])
  {
    var s', k := Apply(s, a), a.k;
    assert Mine(s.future, s.task, k, s.pcs[k]);
    OwningMoves(s, a);
    if s'.task.freed {
      forall j | 0 <= j < |s'.pcs| ensures !Owns(s'.pcs[j]) {
        if j != k {
          Others(s, a, j);
          assert Mine(s.future, s.task, j, s.pcs[j]);
        }
      }
    }
  }

  // ---- a fulfilled future ----

  /** After the store to `ready`, before the critical section commits. */
  function Storing(pc: Pc): int {
    if pc.FBroadcast? || pc.FCapture? then 1 else 0
  }

  /** The store to `ready` was made by a fulfilment that has committed or will next. */
  ghost predicate Backed(s: State) {
    s.future.ready ==> Total(IsFul, s.log.order) + Total(Storing, s.pcs) > 0
  }

  lemma StoringMoves(s: State, a: Action)
    requires Enabled(s, a)
    ensures MoveOf(s, a).future.ready ==> s.future.ready || Storing(MoveOf(s, a).pc) == 1
    ensures var c := Commits(s.pcs[a.k]);
            Storing(s.pcs[a.k]) <= Storing(MoveOf(s, a).pc) + Bit(c.Some? && c.value.Ful?)
  {}

  lemma BackedKept(s: State, a: Action)
    requires Enabled(s, a) && Backed(s)
    ensures Backed(Apply(s, a))
  {
    var pcs, pc := Signalled(s, a), s.pcs[a.k];
    StoringMoves(s, a);
    RecordCommits(s, a);
    TotalSame(Storing, s.pcs, pcs, |pcs|);
    TotalUpdate(Storing, pcs, a.k, MoveOf(s, a).pc);
    TotalNonNegative(IsFul, s.log.order);
    if Commits(pc).Some? {
      TotalAppend(IsFul, s.log.order, Commits(pc).value);
    } else {
      assert Record(s, a).order == s.log.order;
    }
    TotalBounds(Storing, Apply(s, a).pcs, a.k);
  }

  /** Each fulfilment counts before its commit as well. */
  lemma StoringFulfils(s: State, j: nat)
    requires j < |s.pcs| && Committed(s.pcs[j])
    ensures Total(Storing, s.pcs) + 1 <= Total(Fulfils, s.pcs)
  {
    var rest := s.pcs[j := Idle];
    TotalUpdate(Storing, s.pcs, j, Idle);
    TotalUpdate(Fulfils, s.pcs, j, Idle);
    TotalToMono(Storing, Fulfils, rest, |rest|);
  }

  /** With the task not executed there is one fulfilment at most, so one on its way
      means an unfulfilled future. */
  lemma UnreadyWhileComing(s: State)
    requires Counted(s) && Backed(s) && Coming(s) && !s.task.executed
    ensures !s.future.ready
  {
    var j :| 0 <= j < |s.pcs| && Committed(s.pcs[j]);
    StoringFulfils(s, j);
    TotalNonNegative(IsFul, s.log.order);
  }

  // ---- over every run ----

  lemma {:induction false} AllOverRun(s: State, acts: seq<Action>)
    requires Sound(s) && Linear(s) && Settled(s) && Backed(s) && Legal(s, acts)
    ensures var s' := Run(s, acts); Sound(s') && Linear(s') && Settled(s') && Backed(s')
    decreases |acts|
  {
    if acts != [] {
      SoundKept(s, acts[0]);
      LinearKept(s, acts[0]);
      SettledKept(s, acts[0]);
      BackedKept(s, acts[0]);
      AllOverRun(Apply(s, acts[0]), acts[1..]);
    }
  }

  /** In every run, once the task was freed, executed or drained, its future is
      fulfilled if and only if the task was executed or no cancel is between winning
      `canceled` and storing `ready`; and it is then fulfilled with FQ_OK only if the
      callback returned, and with FQ_ERR_CANCELED whenever it never ran. */
  lemma FreedMeansFulfilled(n: nat, acts: seq<Action>)
    requires Legal(Initial(n), acts) && Run(Initial(n), acts).task.freed
    ensures var s := Run(Initial(n), acts);
            && (s.future.ready <==> s.task.executed || !Coming(s))
            && (s.future.ready ==>
                 && (s.future.status == OK ==> s.task.body == Finished)
                 && (s.task.body == NotRun ==> s.future.status == Canceled)
                 && (s.future.status == Canceled ==> s.future.canceled || s.task.canceled))
  {
    InitialLinear(n);
    AllOverRun(Initial(n), acts);
    var s := Run(Initial(n), acts);
    if Coming(s) && !s.task.executed {
      UnreadyWhileComing(s);
    }
  }

  // ---- the exception is real ----

  /** From `s` to `s'` by `acts`. */
  ghost predicate Leads(s: State, acts: seq<Action>, s': State) {
    Legal(s, acts) && Run(s, acts) == s'
  }

  lemma {:induction false} Then(s: State, acts: seq<Action>, s1: State, a: Action)
    requires Leads(s, acts, s1) && Enabled(s1, a)
    ensures Leads(s, acts + [a], Apply(s1, a))
    decreases |acts|
  {
    if acts == [] {
      assert [a][1..] == [];
    } else {
      Then(Apply(s, acts[0]), acts[1..], s1, a);
      assert (acts + [a])[1..] == acts[1..] + [a];
    }
  }

  /** Thread 0's cancel stands still before its lock; thread 1 is at `pc`. */
  function Racing(t: Job, pc: Pc): State {
    State(Future(false, true, OK, None, None), t, [FLock(Canceled, ByUser), pc], History({}, [], []))
  }

  /** One step of thread 1 meanwhile. */
  lemma RacingStep(s: State, acts: seq<Action>, t: Job, pc: Pc, t': Job, pc': Pc) returns (acts': seq<Action>)
    requires Leads(s, acts, Racing(t, pc)) && (pc.DReady? || pc.CCas? || pc.DFree?)
    requires Next(Racing(t, pc).future, t, 1, pc) == Move(Racing(t, pc).future, t', pc')
    ensures Leads(s, acts', Racing(t', pc'))
  {
    Then(s, acts, Racing(t, pc), Step(1));
    acts' := acts + [Step(1)];
    assert Apply(Racing(t, pc), Step(1)) == Racing(t', pc');
  }

  /** Thread 0 has won `canceled`. */
  lemma CancelComes() returns (acts: seq<Action>)
    ensures Leads(Initial(2), acts, Racing(Job(false, false, NotRun, None, false), Idle))
  {
    var s, t := Initial(2), Job(false, false, NotRun, None, false);
    var s1 := State(s.future, t, [CCas(ByUser), Idle], s.log);
    assert s == State(s.future, t, [Idle, Idle], s.log);
    assert Apply(s, Begin(0, CCas(ByUser))) == s1;
    Then(s, [], s, Begin(0, CCas(ByUser)));
    assert Apply(s1, Step(0)) == Racing(t, Idle);
    Then(s, [] + [Begin(0, CCas(ByUser))], s1, Step(0));
    acts := [] + [Begin(0, CCas(ByUser))] + [Step(0)];
  }

  /** Thread 1 has drained the task and is about to destroy it. */
  lemma DrainComes() returns (acts: seq<Action>)
    ensures Leads(Initial(2), acts, Racing(Job(false, false, NotRun, Some(1), false), DReady))
  {
    var t := Job(false, false, NotRun, None, false);
    acts := CancelComes();
    Then(Initial(2), acts, Racing(t, Idle), Begin(1, DReady));
    acts := acts + [Begin(1, DReady)];
    assert Apply(Racing(t, Idle), Begin(1, DReady)) == Racing(t.(owner := Some(1)), DReady);
  }

  /** A destroyer finds the future pending and its cancellation won by thread 0. */
  lemma FindsCancelled(t: Job)
    ensures var f := Racing(t, DReady).future;
            Next(f, t, 1, DReady) == Move(f, t, CCas(ByDestroy)) && Next(f, t, 1, CCas(ByDestroy)) == Move(f, t, DFree)
  {
  }

  /** The destruction finds the future pending, but somebody else has cancelled it. */
  lemma DestroyRuns() returns (acts: seq<Action>)
    ensures Leads(Initial(2), acts, Racing(Job(false, false, NotRun, Some(1), false), DFree))
  {
    var s, taken := Initial(2), Job(false, false, NotRun, Some(1), false);
    acts := DrainComes();
    FindsCancelled(taken);
    acts := RacingStep(s, acts, taken, DReady, taken, CCas(ByDestroy));
    acts := RacingStep(s, acts, taken, CCas(ByDestroy), taken, DFree);
  }

  /** With the task drained and freed by thread 1, the future is still pending while
      thread 0's cancel is on its way. */
  lemma FreedWhileComing() returns (acts: seq<Action>)
    ensures Legal(Initial(2), acts)
    ensures var s := Run(Initial(2), acts); s.task.freed && !s.future.ready && s.pcs == [FLock(Canceled, ByUser), Idle]
  {
    var taken := Job(false, false, NotRun, Some(1), false);
    acts := DestroyRuns();
    acts := RacingStep(Initial(2), acts, taken, DFree, taken.(freed := true), Idle);
  }
}
