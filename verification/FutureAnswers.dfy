/** What waits, polls and cancels answer: the outcome a fulfilment has stored, for every
    run of any number of threads. */
module FutureAnswers {
  import opened Common
  import opened FutureModel
  import opened FutureFacts
  import opened FutureOutcome
  import opened FutureCallbacks

  // ---- outcomes that were stored ----

  /** A fulfilment with outcome `st` that has stored it and not committed yet. */
  predicate Stores(pc: Pc, st: Status) {
    (pc.FReady? || pc.FBroadcast? || pc.FCapture?) && pc.st == st
  }

  /** Some fulfilment has stored `st`. */
  ghost predicate Stored(s: State, st: Status) {
    || (exists i :: 0 <= i < |s.log.order| && s.log.order[i] == Ful(st))
    || (exists j :: 0 <= j < |s.pcs| && Stores(s.pcs[j], st))
  }

  /** The outcome of the task that a thread has read, to answer it or to tell a
      completion callback. */
  function Outcomes(pc: Pc): Option<Status> {
    match pc
    case WDone(timed, ret, st) => if st == Timeout then None else Some(st)
    case SDone(ret) => if ret == Busy then None else Some(ret)
    case RUnlock(r, now) => now
    case RInvoke(r, st) => Some(st)
    case _ => None
  }

  lemma StoredKept(s: State, a: Action, st: Status)
    requires Enabled(s, a) && Stored(s, st)
    ensures Stored(Apply(s, a), st)
  {
    var s' := Apply(s, a);
    RecordCommits(s, a);
    if i :| 0 <= i < |s.log.order| && s.log.order[i] == Ful(st) {
      assert s'.log.order[i] == Ful(st);
    } else {
      var j :| 0 <= j < |s.pcs| && Stores(s.pcs[j], st);
      StoringGoesOn(s, a, j, st);
    }
  }

  lemma StoringGoesOn(s: State, a: Action, j: nat, st: Status)
    requires Enabled(s, a) && j < |s.pcs| && Stores(s.pcs[j], st)
    ensures Stored(Apply(s, a), st)
  {
    var s' := Apply(s, a);
    if j != a.k {
      Others(s, a, j);
      assert Stores(s'.pcs[j], st);
    } else if s.pcs[j].FCapture? {
      assert s'.log.order == s.log.order + [Ful(st)];
      assert s'.log.order[|s.log.order|] == Ful(st);
    } else {
      assert Stores(s'.pcs[j], st);
    }
  }

  /** What is in the future, once it is ready, and what was read from it is what some
      fulfilment has stored; and only a cancelled task has FQ_ERR_CANCELED stored. */
  ghost predicate Truthful(s: State) {
    && (s.future.ready ==> Stored(s, s.future.status))
    && (forall k :: 0 <= k < |s.pcs| && Outcomes(s.pcs[k]).Some? ==> Stored(s, Outcomes(s.pcs[k]).value))
    && (Stored(s, Canceled) ==> s.future.canceled || s.task.canceled)
  }

  /** What a move reads is the status of a fulfilled future. */
  lemma MoveReads(s: State, a: Action)
    requires Enabled(s, a) && Mine(s.future, s.task, a.k, s.pcs[a.k])
    ensures var pc' := MoveOf(s, a).pc;
            Outcomes(pc').Some? ==>
              Outcomes(pc') == Outcomes(s.pcs[a.k]) || (s.future.ready && Outcomes(pc').value == s.future.status)
  {
    if a.Step? && InWait(s.pcs[a.k]) {
    } else if a.Step? && InRegister(s.pcs[a.k]) {
    }
  }

  /** A move leaves the status of the future alone, or stores it. */
  lemma MoveStores(s: State, a: Action)
    requires Enabled(s, a) && Mine(s.future, s.task, a.k, s.pcs[a.k])
    ensures var m := MoveOf(s, a);
            m.future.ready ==> Stores(m.pc, m.future.status)
                               || (s.future.ready && m.future.status == s.future.status)
  {
    if a.Step? && InWait(s.pcs[a.k]) {
    } else if a.Step? && InRegister(s.pcs[a.k]) {
    }
  }

  /** Whoever stores FQ_ERR_CANCELED carries a cancel. */
  lemma StoredCanceled(s: State, a: Action)
    requires Enabled(s, a) && Facts(s) && Truthful(s) && Stored(Apply(s, a), Canceled)
    ensures Apply(s, a).future.canceled || Apply(s, a).task.canceled
  {
    var s' := Apply(s, a);
    FactsKept(s, a);
    MoveKeeps(s, a);
    RecordCommits(s, a);
    if i :| 0 <= i < |s'.log.order| && s'.log.order[i] == Ful(Canceled) {
      if i < |s.log.order| {
        assert s.log.order[i] == Ful(Canceled);
      } else {
        assert Mine(s.future, s.task, a.k, s.pcs[a.k]);
      }
    } else {
      var j :| 0 <= j < |s'.pcs| && Stores(s'.pcs[j], Canceled);
      assert Mine(s'.future, s'.task, j, s'.pcs[j]);
    }
  }

  lemma TruthfulKept(s: State, a: Action)
    requires Enabled(s, a) && Facts(s) && Truthful(s)
    ensures Truthful(Apply(s, a))
  {
    var s', k := Apply(s, a), a.k;
    MoveReads(s, a);
    MoveStores(s, a);
    if s'.future.ready {
      if Stores(MoveOf(s, a).pc, s'.future.status) {
        assert Stores(s'.pcs[k], s'.future.status);
      } else {
        StoredKept(s, a, s.future.status);
      }
    }
    forall j | 0 <= j < |s'.pcs| && Outcomes(s'.pcs[j]).Some?
      ensures Stored(s', Outcomes(s'.pcs[j]).value)
    {
      if j != k {
        Others(s, a, j);
      }
      StoredKept(s, a, Outcomes(s'.pcs[j]).value);
    }
    if Stored(s', Canceled) {
      StoredCanceled(s, a);
    }
  }

  lemma {:induction false} TruthfulOverRun(s: State, acts: seq<Action>)
    requires Sound(s) && Truthful(s) && Legal(s, acts)
    ensures Sound(Run(s, acts)) && Truthful(Run(s, acts))
    decreases |acts|
  {
    if acts != [] {
      SoundKept(s, acts[0]);
      TruthfulKept(s, acts[0]);
      TruthfulOverRun(Apply(s, acts[0]), acts[1..]);
    }
  }

  /** A fulfilment has stored `st`, and with reason. */
  ghost predicate TrueOutcome(s: State, st: Status) {
    && Stored(s, st) && (st == OK || st == Canceled)
    && (st == OK ==> s.task.body == Finished)
    && (st == Canceled ==> s.future.canceled || s.task.canceled)
  }

  /** In every interleaving, the outcome that a wait, a timed wait that did not time out,
      a status call other than FQ_ERR_BUSY or an immediate completion callback reports is
      one that a fulfilment has stored: FQ_OK only if the task's callback has returned,
      FQ_ERR_CANCELED only if somebody cancelled the future or the task, and no other. A
      wait returns it, the timed wait returns FQ_OK with it, and only the timed wait
      returns FQ_ERR_TIMEOUT. */
  lemma AnswersAreOutcomes(n: nat, acts: seq<Action>, k: nat)
    requires Legal(Initial(n), acts) && k < |Run(Initial(n), acts).pcs|
    ensures var s := Run(Initial(n), acts);
            && AnswerForm(s.pcs[k])
            && (s.pcs[k].WDone? && s.pcs[k].st == Timeout ==> s.pcs[k].timed)
            && (Outcomes(s.pcs[k]).Some? ==> TrueOutcome(s, Outcomes(s.pcs[k]).value))
  {
    TruthfulOverRun(Initial(n), acts);
    AnswerIsOutcome(Run(Initial(n), acts), k);
  }

  lemma AnswerIsOutcome(s: State, k: nat)
    requires Sound(s) && Truthful(s) && k < |s.pcs|
    ensures AnswerForm(s.pcs[k])
    ensures s.pcs[k].WDone? && s.pcs[k].st == Timeout ==> s.pcs[k].timed
    ensures Outcomes(s.pcs[k]).Some? ==> TrueOutcome(s, Outcomes(s.pcs[k]).value)
  {
    assert AnswerForm(s.pcs[k]) && AnswerRange(s.pcs[k]);
    assert Mine(s.future, s.task, k, s.pcs[k]);
  }

  ghost predicate OnlyStores(s: State, st: Status) {
    && (forall i :: 0 <= i < |s.log.order| && s.log.order[i].Ful? ==> s.log.order[i] == Ful(st))
    && (forall j :: 0 <= j < |s.pcs| && Fulfils(s.pcs[j]) == 1 ==> s.pcs[j].st == st)
  }

  /** If all fulfilments so far, committed or on their way, have outcome `st`, then so has
      every answer: with one fulfilment that is what everybody is told. */
  lemma OneOutcome(n: nat, acts: seq<Action>, st: Status, k: nat)
    requires Legal(Initial(n), acts) && k < |Run(Initial(n), acts).pcs|
    requires OnlyStores(Run(Initial(n), acts), st)
    ensures var s := Run(Initial(n), acts);
            && (Outcomes(s.pcs[k]).Some? ==> Outcomes(s.pcs[k]).value == st)
            && (s.future.ready ==> s.future.status == st)
  {
    TruthfulOverRun(Initial(n), acts);
    var s := Run(Initial(n), acts);
    if s.future.ready { OneStored(s, st, s.future.status); }
    if Outcomes(s.pcs[k]).Some? { OneStored(s, st, Outcomes(s.pcs[k]).value); }
  }

  lemma OneStored(s: State, st: Status, other: Status)
    requires OnlyStores(s, st) && Stored(s, other)
    ensures other == st
  {
  }

  // ---- a fulfilled future is seen ----

  /** In no wait that sleeps, times out or has timed out, and not about to answer
      FQ_ERR_BUSY to a status call. */
  predicate Prompt(pc: Pc) {
    && !pc.WSleep? && !pc.WExpire? && !(pc.WLock? && pc.expired)
    && (pc.WDone? ==> pc.st != Timeout) && (pc.SDone? ==> pc.ret != Busy)
  }

  lemma PromptMoves(s: State, a: Action)
    requires Enabled(s, a) && s.future.ready && Prompt(s.pcs[a.k])
    requires Mine(s.future, s.task, a.k, s.pcs[a.k]) && Outcome(s.future, s.task)
    ensures Prompt(MoveOf(s, a).pc)
  {
    if a.Step? && InWait(s.pcs[a.k]) {
    }
  }

  /** Every call that begins after the future was fulfilled sees it, over every run: no
      later wait of the thread blocks or times out, and no status call of it answers
      FQ_ERR_BUSY. */
  lemma {:induction false} ReadyIsSeen(s: State, acts: seq<Action>, k: nat)
    requires Facts(s) && Legal(s, acts) && s.future.ready && k < |s.pcs| && Prompt(s.pcs[k])
    ensures var s' := Run(s, acts); s'.future.ready && k < |s'.pcs| && Prompt(s'.pcs[k])
    decreases |acts|
  {
    if acts != [] {
      FactsKept(s, acts[0]);
      MoveKeeps(s, acts[0]);
      if acts[0].k == k {
        PromptMoves(s, acts[0]);
      } else {
        Others(s, acts[0], k);
      }
      ReadyIsSeen(Apply(s, acts[0]), acts[1..], k);
    }
  }

  // ---- cancelling a task ----

  /** What a task cancel's position says of the task. */
  predicate CancelAnswer(t: Job, pc: Pc) {
    && (pc.KDone? ==> (pc.ret == Busy && t.executed) || (pc.ret == OK && t.canceled))
    && (ByTaskCancel(pc) ==> t.canceled)
  }

  /** fq_task_cancel's answers: FQ_ERR_BUSY once the task was executed, else FQ_OK with
      the task marked, and the mark reaches the future. */
  ghost predicate CancelAnswers(s: State) {
    && (forall k :: 0 <= k < |s.pcs| ==> CancelAnswer(s.task, s.pcs[k]))
    && (s.task.canceled ==> s.future.canceled || exists k :: 0 <= k < |s.pcs| && s.pcs[k] == CCas(ByTask))
  }

  /** A task cancel that is cancelling the future. */
  predicate ByTaskCancel(pc: Pc) {
    (pc.CCas? || InFulfil(pc)) && pc.who == ByTask
  }

  lemma MoveCancels(s: State, a: Action)
    requires Enabled(s, a) && CancelAnswer(s.task, s.pcs[a.k])
    ensures var m := MoveOf(s, a);
            && CancelAnswer(m.task, m.pc)
            && (m.task.canceled ==> s.task.canceled || m.pc == CCas(ByTask))
            && (s.pcs[a.k] == CCas(ByTask) ==> m.future.canceled)
  {
    if a.Step? && InFulfil(s.pcs[a.k]) {
    } else if a.Step? && InCancel(s.pcs[a.k]) {
    }
  }

  lemma CancelAnswersKept(s: State, a: Action)
    requires Enabled(s, a) && Facts(s) && CancelAnswers(s)
    ensures CancelAnswers(Apply(s, a))
  {
    var s', k := Apply(s, a), a.k;
    MoveKeeps(s, a);
    MoveCancels(s, a);
    forall j | 0 <= j < |s.pcs| ensures CancelAnswer(s'.task, s'.pcs[j]) {
      if j != k {
        Others(s, a, j);
        assert CancelAnswer(s.task, s.pcs[j]);
      }
    }
    if s'.task.canceled && !s'.future.canceled {
      CancelComes(s, a);
    }
  }

  /** The thread that marked the task is on its way to the future's mark. */
  lemma CancelComes(s: State, a: Action)
    requires Enabled(s, a) && Facts(s) && CancelAnswers(s)
    requires Apply(s, a).task.canceled && !Apply(s, a).future.canceled
    ensures exists k :: 0 <= k < |Apply(s, a).pcs| && Apply(s, a).pcs[k] == CCas(ByTask)
  {
    var s' := Apply(s, a);
    MoveKeeps(s, a);
    MoveCancels(s, a);
    if s.task.canceled {
      var j :| 0 <= j < |s.pcs| && s.pcs[j] == CCas(ByTask);
      Others(s, a, j);
      assert s'.pcs[j] == CCas(ByTask);
    } else {
      assert s'.pcs[a.k] == CCas(ByTask);
    }
  }

  lemma {:induction false} CancelAnswersOverRun(s: State, acts: seq<Action>)
    requires Facts(s) && CancelAnswers(s) && Legal(s, acts)
    ensures CancelAnswers(Run(s, acts))
    decreases |acts|
  {
    if acts != [] {
      FactsKept(s, acts[0]);
      CancelAnswersKept(s, acts[0]);
      CancelAnswersOverRun(Apply(s, acts[0]), acts[1..]);
    }
  }

  /** In every run, fq_task_cancel answers FQ_ERR_BUSY only of an executed task and FQ_OK
      only of one that is marked cancelled; and when all calls have returned, the future
      of a task so marked has been cancelled as well, and fulfilled. */
  lemma TaskCancelAnswers(n: nat, acts: seq<Action>, k: nat)
    requires Legal(Initial(n), acts) && k < |Run(Initial(n), acts).pcs|
    ensures var s := Run(Initial(n), acts);
            && (s.pcs[k].KDone? ==> s.pcs[k].ret == OK || s.pcs[k].ret == Busy)
            && (s.pcs[k] == KDone(Busy) ==> s.task.executed)
            && (s.pcs[k] == KDone(OK) ==> s.task.canceled)
            && (AllReturned(s) && s.task.canceled ==> s.future.canceled && s.future.ready)
  {
    InitialFacts(n);
    CancelAnswersOverRun(Initial(n), acts);
    SoundOverRun(Initial(n), acts);
  }

  /** Neither has read `executed` as 0 in a task cancel, nor gone on from there. */
  predicate NotPast(pc: Pc) {
    pc != KCas && pc != KDone(OK) && !ByTaskCancel(pc)
  }

  lemma NotPastMoves(s: State, a: Action)
    requires Enabled(s, a) && s.task.executed && NotPast(s.pcs[a.k])
    ensures NotPast(MoveOf(s, a).pc)
  {
    if a.Step? && InFulfil(s.pcs[a.k]) {
    }
  }

  /** And a task cancel that begins after the execution is refused, over every run. */
  lemma {:induction false} ExecutedRefusesCancel(s: State, acts: seq<Action>, k: nat)
    requires Facts(s) && Legal(s, acts) && s.task.executed && k < |s.pcs| && NotPast(s.pcs[k])
    ensures var s' := Run(s, acts); s'.task.executed && k < |s'.pcs| && NotPast(s'.pcs[k])
    decreases |acts|
  {
    if acts != [] {
      FactsKept(s, acts[0]);
      MoveKeeps(s, acts[0]);
      if acts[0].k == k {
        NotPastMoves(s, acts[0]);
      } else {
        Others(s, acts[0], k);
      }
      ExecutedRefusesCancel(Apply(s, acts[0]), acts[1..], k);
    }
  }

  // ---- nobody cancels ----

  /** Calls fq_future_cancel or fq_task_cancel, or is on its way in one. */
  predicate Cancels(pc: Pc) {
    || pc.KExecuted? || pc.KCas? || pc.KDone?
    || ((pc.CCas? || InFulfil(pc)) && (pc.who == ByUser || pc.who == ByTask))
  }

  /** No cancel call begins. */
  predicate NoCancels(acts: seq<Action>) {
    forall i :: 0 <= i < |acts| ==> !(acts[i].Begin? && (acts[i].first.CCas? || acts[i].first.KExecuted?))
  }

  /** Between taking the task to execute it and its destruction. */
  predicate Executes(pc: Pc) {
    pc.XLoad? || pc.XCall? || pc.XReturn? || pc.XExecuted? || (InFulfil(pc) && pc.who == ByExecute)
  }

  /** What a thread's position says when nobody cancels: only the destruction of a task that
      was not executed cancels its future. */
  predicate Spared(f: Future, t: Job, pc: Pc) {
    && !Cancels(pc)
    && (Executes(pc) ==> !f.canceled)
    && ((pc.CCas? || InFulfil(pc)) && pc.who == ByDestroy ==> !t.executed)
    && (pc.DReady? && t.executed ==> f.ready)
    && (InFulfil(pc) && pc.st == Canceled ==> f.canceled)
  }

  ghost predicate AllSpared(s: State) {
    && WordsSpared(s.future, s.task)
    && forall k :: 0 <= k < |s.pcs| ==> Spared(s.future, s.task, s.pcs[k])
  }

  /** The words of a future and its task when nobody cancels. */
  predicate WordsSpared(f: Future, t: Job) {
    && !t.canceled && (t.executed ==> !f.canceled)
    && (f.status == Canceled ==> f.canceled) && (f.canceled ==> t.owner.Some?)
  }

  lemma NextSpares(f: Future, t: Job, k: nat, pc: Pc)
    requires Before(f, t, k, pc) && Spared(f, t, pc) && WordsSpared(f, t)
    ensures var m := Next(f, t, k, pc); Spared(m.future, m.task, m.pc) && WordsSpared(m.future, m.task)
  {
    if InFulfil(pc) {
      FulfilSpares(f, t, k, pc);
    } else if InWait(pc) {
      WaitSpares(f, t, k, pc);
    } else if InRegister(pc) {
    } else {
      WorkSpares(f, t, k, pc);
    }
  }

  lemma FulfilSpares(f: Future, t: Job, k: nat, pc: Pc)
    requires InFulfil(pc) && Before(f, t, k, pc) && Spared(f, t, pc) && WordsSpared(f, t)
    ensures var m := Fulfil(f, t, k, pc); Spared(m.future, m.task, m.pc) && WordsSpared(m.future, m.task)
  {
  }

  lemma WaitSpares(f: Future, t: Job, k: nat, pc: Pc)
    requires InWait(pc) && Before(f, t, k, pc) && Spared(f, t, pc) && WordsSpared(f, t)
    ensures var m := Wait(f, t, k, pc); Spared(m.future, m.task, m.pc) && WordsSpared(m.future, m.task)
  {
  }

  lemma WorkSpares(f: Future, t: Job, k: nat, pc: Pc)
    requires !InFulfil(pc) && !InWait(pc) && !InRegister(pc)
    requires Before(f, t, k, pc) && Spared(f, t, pc) && WordsSpared(f, t)
    ensures var m := Next(f, t, k, pc); Spared(m.future, m.task, m.pc) && WordsSpared(m.future, m.task)
  {
  }

  /** Only a destruction cancels, and only an execution marks the task. */
  lemma NextMarks(f: Future, t: Job, k: nat, pc: Pc)
    requires Before(f, t, k, pc) && Spared(f, t, pc)
    ensures var m := Next(f, t, k, pc);
            && (m.future.canceled ==> f.canceled || (pc.CCas? && pc.who == ByDestroy))
            && (m.task.executed ==> t.executed || pc.XExecuted?)
  {
  }

  lemma MoveSpares(s: State, a: Action)
    requires Enabled(s, a) && Facts(s) && AllSpared(s) && NoCancels([a])
    ensures var m := MoveOf(s, a);
            && Spared(m.future, m.task, m.pc) && WordsSpared(m.future, m.task)
            && (m.future.canceled ==> s.future.canceled || (s.pcs[a.k].CCas? && s.pcs[a.k].who == ByDestroy))
            && (m.task.executed ==> s.task.executed || s.pcs[a.k].XExecuted?)
  {
    assert !(a.Begin? && (a.first.CCas? || a.first.KExecuted?)) by { assert [a][0] == a; }
    assert Mine(s.future, s.task, a.k, s.pcs[a.k]) && Spared(s.future, s.task, s.pcs[a.k]);
    if a.Step? {
      NextSpares(s.future, s.task, a.k, s.pcs[a.k]);
      NextMarks(s.future, s.task, a.k, s.pcs[a.k]);
    }
  }

  /** The task has one owner, so nobody else is executing or destroying it. */
  lemma OtherSpared(s: State, a: Action, j: nat)
    requires Enabled(s, a) && Facts(s) && AllSpared(s) && NoCancels([a]) && j < |s.pcs| && j != a.k
    ensures var s' := Apply(s, a); Spared(s'.future, s'.task, s'.pcs[j])
  {
    MoveSpares(s, a);
    MoveKeeps(s, a);
    Others(s, a, j);
    assert Mine(s.future, s.task, j, s.pcs[j]) && Mine(s.future, s.task, a.k, s.pcs[a.k]);
    assert Spared(s.future, s.task, s.pcs[j]);
  }

  lemma AllSparedKept(s: State, a: Action)
    requires Enabled(s, a) && Facts(s) && AllSpared(s) && NoCancels([a])
    ensures AllSpared(Apply(s, a))
  {
    var s' := Apply(s, a);
    MoveSpares(s, a);
    forall j | 0 <= j < |s'.pcs| ensures Spared(s'.future, s'.task, s'.pcs[j]) {
      if j != a.k {
        OtherSpared(s, a, j);
      }
    }
  }

  lemma {:induction false} SparedOverRun(s: State, acts: seq<Action>)
    requires Facts(s) && AllSpared(s) && Legal(s, acts) && NoCancels(acts)
    ensures Facts(Run(s, acts)) && AllSpared(Run(s, acts))
    decreases |acts|
  {
    if acts != [] {
      assert NoCancels([acts[0]]);
      FactsKept(s, acts[0]);
      AllSparedKept(s, acts[0]);
      SparedOverRun(Apply(s, acts[0]), acts[1..]);
    }
  }

  /** In every run without a call of fq_future_cancel or fq_task_cancel, an executed task's
      callback has run, and once its future is fulfilled its outcome is FQ_OK and stays
      so: neither the worker's destruction of the task nor anything else cancels it. */
  lemma UncancelledIsOk(n: nat, acts: seq<Action>)
    requires Legal(Initial(n), acts) && NoCancels(acts) && Run(Initial(n), acts).task.executed
    ensures var s := Run(Initial(n), acts);
            && s.task.body == Finished && !s.future.canceled
            && (s.future.ready ==> s.future.status == OK)
  {
    InitialFacts(n);
    SparedOverRun(Initial(n), acts);
    ExecutedHasRun(n, acts);
  }

  /** An executed task that was not cancelled has run. */
  lemma ExecutedHasRun(n: nat, acts: seq<Action>)
    requires Legal(Initial(n), acts)
    ensures var s := Run(Initial(n), acts); s.task.executed && !s.task.canceled ==> s.task.body == Finished
  {
    InitialFacts(n);
    RanOverRun(Initial(n), acts);
  }

  lemma {:induction false} RanOverRun(s: State, acts: seq<Action>)
    requires Facts(s) && Legal(s, acts) && (s.task.executed && !s.task.canceled ==> s.task.body == Finished)
    ensures var s' := Run(s, acts); s'.task.executed && !s'.task.canceled ==> s'.task.body == Finished
    decreases |acts|
  {
    if acts != [] {
      FactsKept(s, acts[0]);
      MoveKeeps(s, acts[0]);
      assert Mine(s.future, s.task, acts[0].k, s.pcs[acts[0].k]);
      MoveRuns(s, acts[0]);
      RanOverRun(Apply(s, acts[0]), acts[1..]);
    }
  }

  lemma MoveRuns(s: State, a: Action)
    requires Enabled(s, a) && Mine(s.future, s.task, a.k, s.pcs[a.k]) && Outcome(s.future, s.task)
    ensures var m := MoveOf(s, a);
            m.task.executed && !m.task.canceled ==> (s.task.executed && !s.task.canceled) || m.task.body == Finished
    ensures s.task.body == Finished ==> MoveOf(s, a).task.body == Finished
  {
  }
}
