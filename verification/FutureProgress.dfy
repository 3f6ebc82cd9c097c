/** Calls on a task and its future come to their answers: what each call does when it runs
    alone, how many steps it takes among others, and when a wait times out. */
module FutureProgress {
  import opened Common
  import opened FutureModel
  import opened FutureFacts
  import opened FutureFreed

  // ---- a call that runs alone ----

  ghost predicate AllBy(acts: seq<Action>, k: nat) {
    forall i :: 0 <= i < |acts| ==> acts[i].k == k
  }

  /** The run `acts` of thread `k` alone leads from `s` to `s'`; the other threads have at
      most been signalled. */
  ghost predicate Alone(s: State, acts: seq<Action>, s': State, k: nat) {
    && Leads(s, acts, s') && AllBy(acts, k) && k < |s.pcs| == |s'.pcs|
    && forall j :: 0 <= j < |s.pcs| && j != k ==> s'.pcs[j] == s.pcs[j] || s'.pcs[j] == Woken(s.pcs[j])
  }

  lemma Begins(s: State, k: nat, first: Pc) returns (acts: seq<Action>, s': State)
    requires k < |s.pcs| && s.pcs[k] == Idle && Entry(s, first)
    ensures Alone(s, acts, s', k) && s'.pcs[k] == first && s'.future == s.future
    ensures s'.task == if first.XLoad? || first.DReady? then s.task.(owner := Some(k)) else s.task
    ensures s'.log == if first.RLock? then s.log.(regs := s.log.regs + {first.r}) else s.log
  {
    acts, s' := [] + [Begin(k, first)], Apply(s, Begin(k, first));
    Then(s, [], s, Begin(k, first));
  }

  lemma GoesOn(s: State, acts: seq<Action>, s1: State, k: nat) returns (acts': seq<Action>, s': State)
    requires Alone(s, acts, s1, k) && Enabled(s1, Step(k))
    ensures Alone(s, acts', s', k) && s'.log == Record(s1, Step(k))
    ensures Move(s'.future, s'.task, s'.pcs[k]) == Next(s1.future, s1.task, k, s1.pcs[k])
  {
    acts', s' := acts + [Step(k)], Apply(s1, Step(k));
    Then(s, acts, s1, Step(k));
    forall j | 0 <= j < |s.pcs| && j != k
      ensures s'.pcs[j] == s.pcs[j] || s'.pcs[j] == Woken(s.pcs[j])
    {
      Others(s1, Step(k), j);
    }
  }

  /** What a fulfilment with `st` makes of the future and of the history. */
  predicate FulfilledWith(s: State, s': State, st: Status) {
    && s'.future == s.future.(ready := true, status := st)
    && s'.task == s.task && s'.log.regs == s.log.regs && s'.log.order == s.log.order + [Ful(st)]
    && s'.log.invoked
       == s.log.invoked + if s.future.callback.Some? then [(s.future.callback.value, st)] else []
  }

  /** The first half of fq_future_set_result: the stores. */
  lemma StoresAlone(s: State, acts: seq<Action>, s1: State, k: nat, st: Status, who: Caller)
      returns (acts': seq<Action>, s': State)
    requires Alone(s, acts, s1, k) && s1.pcs[k] == FLock(st, who) && s1.future.lock == None
    ensures Alone(s, acts', s', k) && s'.pcs[k] == FBroadcast(st, who) && s'.task == s1.task && s'.log == s1.log
    ensures s'.future == s1.future.(ready := true, status := st, lock := Some(k))
  {
    acts', s' := GoesOn(s, acts, s1, k);
    acts', s' := PublishesAlone(s, acts', s', k, st, who);
  }

  lemma PublishesAlone(s: State, acts: seq<Action>, s1: State, k: nat, st: Status, who: Caller)
      returns (acts': seq<Action>, s': State)
    requires Alone(s, acts, s1, k) && s1.pcs[k] == FStatus(st, who)
    ensures Alone(s, acts', s', k) && s'.pcs[k] == FBroadcast(st, who) && s'.task == s1.task && s'.log == s1.log
    ensures s'.future == s1.future.(ready := true, status := st)
  {
    acts', s' := GoesOn(s, acts, s1, k);
    acts', s' := GoesOn(s, acts', s', k);
  }

  /** The broadcast, and the capture of the callback, at which the fulfilment commits. */
  lemma CapturesAlone(s: State, acts: seq<Action>, s1: State, k: nat, st: Status, who: Caller)
      returns (acts': seq<Action>, s': State)
    requires Alone(s, acts, s1, k) && s1.pcs[k] == FBroadcast(st, who)
    ensures Alone(s, acts', s', k) && s'.pcs[k] == FUnlock(st, who, s1.future.callback)
    ensures s'.future == s1.future && s'.task == s1.task
    ensures s'.log == s1.log.(order := s1.log.order + [Ful(st)])
  {
    acts', s' := GoesOn(s, acts, s1, k);
    acts', s' := GoesOn(s, acts', s', k);
  }

  /** The unlock and the callback. */
  lemma TellsAlone(s: State, acts: seq<Action>, s1: State, k: nat, st: Status, who: Caller, cb: Option<nat>)
      returns (acts': seq<Action>, s': State)
    requires Alone(s, acts, s1, k) && s1.pcs[k] == FUnlock(st, who, cb)
    ensures Alone(s, acts', s', k) && s'.pcs[k] == AfterFulfil(who) && s'.task == s1.task
    ensures s'.future == s1.future.(lock := None)
    ensures s'.log.regs == s1.log.regs && s'.log.order == s1.log.order
    ensures s'.log.invoked == s1.log.invoked + if cb.Some? then [(cb.value, st)] else []
  {
    acts', s' := GoesOn(s, acts, s1, k);
    acts', s' := GoesOn(s, acts', s', k);
  }

  lemma FulfilsAlone(s: State, acts: seq<Action>, s1: State, k: nat, st: Status, who: Caller)
      returns (acts': seq<Action>, s': State)
    requires Alone(s, acts, s1, k) && s1.pcs[k] == FLock(st, who) && s1.future.lock == None
    ensures Alone(s, acts', s', k) && s'.pcs[k] == AfterFulfil(who) && FulfilledWith(s1, s', st)
  {
    acts', s' := StoresAlone(s, acts, s1, k, st, who);
    acts', s' := CapturesAlone(s, acts', s', k, st, who);
    acts', s' := TellsAlone(s, acts', s', k, st, who, s1.future.callback);
  }

  /** fq_future_status: the status of a fulfilled future, FQ_ERR_BUSY of a pending one. */
  lemma StatusAlone(s: State, k: nat) returns (acts: seq<Action>, s': State)
    requires k < |s.pcs| && s.pcs[k] == Idle
    ensures Alone(s, acts, s', k) && s'.pcs[k] == SDone(if s.future.ready then s.future.status else Busy)
    ensures s'.future == s.future && s'.task == s.task && s'.log == s.log
  {
    acts, s' := Begins(s, k, SReady);
    acts, s' := GoesOn(s, acts, s', k);
    if s.future.ready {
      acts, s' := GoesOn(s, acts, s', k);
    }
  }

  /** fq_future_wait and fq_future_wait_timeout of a fulfilled future: its status. */
  lemma WaitAlone(s: State, k: nat, timed: bool, left: nat) returns (acts: seq<Action>, s': State)
    requires k < |s.pcs| && s.pcs[k] == Idle && s.future.ready && s.future.lock == None
    requires Entry(s, WSpin(timed, left))
    ensures Alone(s, acts, s', k)
    ensures s'.pcs[k] == WDone(timed, if timed then OK else s.future.status, s.future.status)
    ensures s'.future == s.future && s'.task == s.task && s'.log == s.log
  {
    acts, s' := Begins(s, k, WSpin(timed, left));
    acts, s' := GoesOn(s, acts, s', k);
    if left == 0 {
      acts, s' := LooksAlone(s, acts, s', k);
    }
    acts, s' := GoesOn(s, acts, s', k);
  }

  /** The look under the mutex. */
  lemma LooksAlone(s: State, acts: seq<Action>, s1: State, k: nat) returns (acts': seq<Action>, s': State)
    requires Alone(s, acts, s1, k) && s1.pcs[k].WLock? && !s1.pcs[k].expired
    requires s1.future.ready && s1.future.lock == None
    ensures Alone(s, acts', s', k) && s'.pcs[k] == WStatus(s1.pcs[k].timed)
    ensures s'.future == s1.future && s'.task == s1.task && s'.log == s1.log
  {
    acts', s' := GoesOn(s, acts, s1, k);
    acts', s' := GoesOn(s, acts', s', k);
    acts', s' := GoesOn(s, acts', s', k);
  }

  /** fq_future_cancel: the first one fulfils with FQ_ERR_CANCELED, others do nothing. */
  lemma CancelAlone(s: State, k: nat) returns (acts: seq<Action>, s': State)
    requires k < |s.pcs| && s.pcs[k] == Idle && s.future.lock == None
    ensures Alone(s, acts, s', k) && s'.pcs[k] == Idle
    ensures if s.future.canceled then s'.future == s.future && s'.task == s.task && s'.log == s.log
            else FulfilledWith(s.(future := s.future.(canceled := true)), s', Canceled)
  {
    acts, s' := Begins(s, k, CCas(ByUser));
    acts, s' := CancelsAlone(s, acts, s', k, ByUser);
  }

  /** fq_task_cancel: FQ_ERR_BUSY once the task was executed; else the first one marks the
      task and cancels the future. */
  lemma TaskCancelAlone(s: State, k: nat) returns (acts: seq<Action>, s': State)
    requires k < |s.pcs| && s.pcs[k] == Idle && s.future.lock == None
    ensures Alone(s, acts, s', k) && s'.pcs[k] == KDone(if s.task.executed then Busy else OK)
    ensures if s.task.executed || s.task.canceled
            then s'.future == s.future && s'.task == s.task && s'.log == s.log
            else if s.future.canceled
            then s'.future == s.future && s'.task == s.task.(canceled := true) && s'.log == s.log
            else FulfilledWith(s.(future := s.future.(canceled := true), task := s.task.(canceled := true)), s',
                               Canceled)
  {
    acts, s' := Begins(s, k, KExecuted);
    acts, s' := GoesOn(s, acts, s', k);
    if !s.task.executed {
      acts, s' := MarksAlone(s, acts, s', k);
    }
  }

  lemma MarksAlone(s: State, acts: seq<Action>, s1: State, k: nat) returns (acts': seq<Action>, s': State)
    requires Alone(s, acts, s1, k) && s1.pcs[k] == KCas && s1.future.lock == None
    ensures Alone(s, acts', s', k) && s'.pcs[k] == KDone(OK)
    ensures if s1.task.canceled then s'.future == s1.future && s'.task == s1.task && s'.log == s1.log
            else if s1.future.canceled
            then s'.future == s1.future && s'.task == s1.task.(canceled := true) && s'.log == s1.log
            else FulfilledWith(s1.(future := s1.future.(canceled := true), task := s1.task.(canceled := true)), s',
                               Canceled)
  {
    acts', s' := GoesOn(s, acts, s1, k);
    if !s1.task.canceled {
      acts', s' := CancelsAlone(s, acts', s', k, ByTask);
    }
  }

  /** fq_future_on_complete: the callback is kept, and told at once if there is an
      outcome. */
  lemma RegisterAlone(s: State, k: nat, r: nat) returns (acts: seq<Action>, s': State)
    requires k < |s.pcs| && s.pcs[k] == Idle && s.future.lock == None && r !in s.log.regs
    ensures Alone(s, acts, s', k) && s'.pcs[k] == Idle
    ensures s'.future == s.future.(callback := Some(r)) && s'.task == s.task
    ensures s'.log.order == s.log.order + [Reg(r)]
    ensures s'.log.invoked == s.log.invoked + if s.future.ready then [(r, s.future.status)] else []
  {
    acts, s' := Begins(s, k, RLock(r));
    acts, s' := GoesOn(s, acts, s', k);
    acts, s' := GoesOn(s, acts, s', k);
    acts, s' := ChecksAlone(s, acts, s', k);
  }

  lemma ChecksAlone(s: State, acts: seq<Action>, s1: State, k: nat) returns (acts': seq<Action>, s': State)
    requires Alone(s, acts, s1, k) && s1.pcs[k].RCheck?
    ensures Alone(s, acts', s', k) && s'.pcs[k] == Idle && s'.task == s1.task
    ensures s'.future == s1.future.(lock := None) && s'.log.order == s1.log.order + [Reg(s1.pcs[k].r)]
    ensures s'.log.invoked == s1.log.invoked + if s1.future.ready then [(s1.pcs[k].r, s1.future.status)] else []
  {
    acts', s' := GoesOn(s, acts, s1, k);
    acts', s' := GoesOn(s, acts', s', k);
    if s1.future.ready {
      acts', s' := GoesOn(s, acts', s', k);
    }
  }

  /** fq_task_destroy from its look at the future: a pending one is cancelled, a fulfilled
      one left as it is. */
  lemma DisposesAlone(s: State, acts: seq<Action>, s1: State, k: nat) returns (acts': seq<Action>, s': State)
    requires Alone(s, acts, s1, k) && s1.pcs[k] == DReady && s1.future.lock == None
    ensures Alone(s, acts', s', k) && s'.pcs[k] == DFree && s'.task == s1.task
    ensures if s1.future.ready || s1.future.canceled then s'.future == s1.future && s'.log == s1.log
            else FulfilledWith(s1.(future := s1.future.(canceled := true)), s', Canceled)
  {
    acts', s' := GoesOn(s, acts, s1, k);
    if !s1.future.ready {
      acts', s' := CancelsAlone(s, acts', s', k, ByDestroy);
    }
  }

  /** The compare-and-exchange of a cancel and, if it succeeds, its fulfilment. */
  lemma CancelsAlone(s: State, acts: seq<Action>, s1: State, k: nat, who: Caller)
      returns (acts': seq<Action>, s': State)
    requires Alone(s, acts, s1, k) && s1.pcs[k] == CCas(who) && s1.future.lock == None
    ensures Alone(s, acts', s', k) && s'.pcs[k] == AfterFulfil(who)
    ensures if s1.future.canceled then s'.future == s1.future && s'.task == s1.task && s'.log == s1.log
            else FulfilledWith(s1.(future := s1.future.(canceled := true)), s', Canceled)
  {
    acts', s' := GoesOn(s, acts, s1, k);
    if !s1.future.canceled {
      acts', s' := FulfilsAlone(s, acts', s', k, Canceled, who);
    }
  }

  lemma FreesAlone(s: State, acts: seq<Action>, s1: State, k: nat) returns (acts': seq<Action>, s': State)
    requires Alone(s, acts, s1, k) && s1.pcs[k] == DFree
    ensures Alone(s, acts', s', k) && s'.pcs[k] == Idle
    ensures s'.task == s1.task.(freed := true) && s'.future == s1.future && s'.log == s1.log
  {
    acts', s' := GoesOn(s, acts, s1, k);
  }

  /** fq_task_destroy of a drained task: its future is not left pending, a fulfilled one
      keeps its outcome, and the task is freed. */
  lemma DestroyAlone(s: State, k: nat) returns (acts: seq<Action>, s': State)
    requires k < |s.pcs| && s.pcs[k] == Idle && s.future.lock == None && s.task.owner == None
    ensures Alone(s, acts, s', k) && s'.pcs[k] == Idle && s'.task == s.task.(owner := Some(k), freed := true)
    ensures if s.future.ready || s.future.canceled then s'.future == s.future && s'.log == s.log
            else FulfilledWith(s.(future := s.future.(canceled := true), task := s'.task), s', Canceled)
  {
    acts, s' := Begins(s, k, DReady);
    acts, s' := DisposesAlone(s, acts, s', k);
    acts, s' := FreesAlone(s, acts, s', k);
  }

  /** The callback runs unless the task was cancelled before. */
  lemma CallsAlone(s: State, acts: seq<Action>, s1: State, k: nat) returns (acts': seq<Action>, s': State)
    requires Alone(s, acts, s1, k) && s1.pcs[k] == XLoad
    ensures Alone(s, acts', s', k) && s'.pcs[k] == XExecuted(s1.task.canceled)
    ensures s'.task == if s1.task.canceled then s1.task else s1.task.(body := Finished)
    ensures s'.future == s1.future && s'.log == s1.log
  {
    acts', s' := GoesOn(s, acts, s1, k);
    if !s1.task.canceled {
      acts', s' := RunsAlone(s, acts', s', k);
    }
  }

  lemma RunsAlone(s: State, acts: seq<Action>, s1: State, k: nat) returns (acts': seq<Action>, s': State)
    requires Alone(s, acts, s1, k) && s1.pcs[k] == XCall
    ensures Alone(s, acts', s', k) && s'.pcs[k] == XExecuted(false) && s'.task == s1.task.(body := Finished)
    ensures s'.future == s1.future && s'.log == s1.log
  {
    acts', s' := GoesOn(s, acts, s1, k);
    acts', s' := GoesOn(s, acts', s', k);
  }

  /** The task is marked executed and its future gets the outcome, whatever it held. */
  lemma DeliversAlone(s: State, acts: seq<Action>, s1: State, k: nat) returns (acts': seq<Action>, s': State)
    requires Alone(s, acts, s1, k) && s1.pcs[k].XExecuted? && s1.future.lock == None
    ensures Alone(s, acts', s', k) && s'.pcs[k] == DReady
    ensures FulfilledWith(s1.(task := s1.task.(executed := true)), s', if s1.pcs[k].was then Canceled else OK)
  {
    acts', s' := GoesOn(s, acts, s1, k);
    acts', s' := FulfilsAlone(s, acts', s', k, if s1.pcs[k].was then Canceled else OK, ByExecute);
  }

  /** fq_task_execute and the worker's fq_task_destroy: the callback runs unless the task
      was cancelled before, the future gets the outcome whatever it held and keeps it, and
      the task is freed. */
  lemma ExecuteAlone(s: State, k: nat) returns (acts: seq<Action>, s': State)
    requires k < |s.pcs| && s.pcs[k] == Idle && s.future.lock == None && s.task.owner == None
    ensures Alone(s, acts, s', k) && s'.pcs[k] == Idle
    ensures s'.task == Job(true, s.task.canceled, if s.task.canceled then s.task.body else Finished, Some(k), true)
    ensures FulfilledWith(s.(task := s'.task), s', if s.task.canceled then Canceled else OK)
  {
    acts, s' := Begins(s, k, XLoad);
    acts, s' := CallsAlone(s, acts, s', k);
    acts, s' := DeliversAlone(s, acts, s', k);
    acts, s' := DisposesAlone(s, acts, s', k);
    acts, s' := FreesAlone(s, acts, s', k);
  }

  // ---- how many steps a call takes ----

  /** More than the steps a thread can take from here to its answer and its return, or to
      its next sleep. */
  function Rank(pc: Pc): nat {
    match pc
    case Idle => 0
    case WSpin(_, left) => 7 + left
    case WLock(_, _) => 6
    case WCheck(_) => 5
    case WUnlock(_) => 4
    case WExpire => 4
    case WStatus(_) => 3
    case WDone(_, _, _) => 2
    case WSleep(_, _) => 1
    case SReady => 3
    case SStatus => 2
    case SDone(_) => 1
    case RLock(_) => 5
    case RStore(_) => 4
    case RCheck(_) => 3
    case RUnlock(_, _) => 2
    case RInvoke(_, _) => 1
    case FLock(_, _) => 11
    case FStatus(_, _) => 10
    case FReady(_, _) => 9
    case FBroadcast(_, _) => 8
    case FCapture(_, _) => 7
    case FUnlock(_, _, _) => 6
    case FInvoke(_, who, _) => if who == ByExecute then 15 else 5
    case CCas(_) => 12
    case KExecuted => 14
    case KCas => 13
    case KDone(_) => 1
    case XLoad => 40
    case XCall => 39
    case XReturn => 38
    case XExecuted(_) => 37
    case DReady => 14
    case DFree => 1
  }

  /** A fulfilment that the execution makes still has the destruction before it. */
  function Distance(pc: Pc): nat {
    Rank(pc) + if InFulfil(pc) && pc.who == ByExecute && !pc.FInvoke? then 15 else 0
  }

  lemma StepsDescend(s: State, k: nat)
    requires Enabled(s, Step(k)) && Mine(s.future, s.task, k, s.pcs[k])
    ensures Distance(MoveOf(s, Step(k)).pc) < Distance(s.pcs[k])
  {
    if InFulfil(s.pcs[k]) {
      FulfilDescends(s.future, s.task, k, s.pcs[k]);
    } else if InWait(s.pcs[k]) {
    }
  }

  lemma FulfilDescends(f: Future, t: Job, k: nat, pc: Pc)
    requires InFulfil(pc)
    ensures Distance(Fulfil(f, t, k, pc).pc) < Distance(pc)
  {
  }

  /** The steps of thread `k` in a run, and its new starts: calls begun and awakenings. */
  function StepsBy(acts: seq<Action>, k: nat): nat {
    if acts == [] then 0 else (if acts[0] == Step(k) then 1 else 0) + StepsBy(acts[1..], k)
  }

  function StartsBy(acts: seq<Action>, k: nat): nat {
    if acts == [] then 0 else (if acts[0].k == k && !acts[0].Step? then 1 else 0) + StartsBy(acts[1..], k)
  }

  const LONGEST: nat := 136

  /** No call spins for ever: over every run, a thread takes no more steps than its distance
      from the return, and a fixed number for each call it begins and each time it is
      woken or its sleep expires. */
  lemma {:induction false} StepsBounded(s: State, acts: seq<Action>, k: nat)
    requires Facts(s) && Legal(s, acts) && k < |s.pcs|
    ensures StepsBy(acts, k) <= Distance(s.pcs[k]) + LONGEST * StartsBy(acts, k)
    decreases |acts|
  {
    if acts != [] {
      var a, s' := acts[0], Apply(s, acts[0]);
      FactsKept(s, a);
      StepsBounded(s', acts[1..], k);
      if a == Step(k) {
        assert Mine(s.future, s.task, k, s.pcs[k]);
        StepsDescend(s, k);
      } else if a.k == k {
        assert Distance(s'.pcs[k]) <= LONGEST;
      } else {
        Others(s, a, k);
        assert Distance(s'.pcs[k]) == Distance(s.pcs[k]);
      }
    }
  }

  // ---- when a wait times out ----

  /** On its way to answering FQ_ERR_TIMEOUT. */
  predicate TimedOut(pc: Pc) {
    (pc.WLock? && pc.expired) || pc.WExpire? || (pc.WDone? && pc.st == Timeout)
  }

  lemma TimedOutStep(s: State, a: Action, k: nat)
    requires Enabled(s, a) && Facts(s) && k < |s.pcs| && !TimedOut(s.pcs[k])
    ensures TimedOut(Apply(s, a).pcs[k]) ==> a == Expire(k) && s.pcs[k].WSleep? && s.pcs[k].timed
  {
    if a.k == k {
      if a.Step? && InWait(s.pcs[k]) {
        assert Mine(s.future, s.task, k, s.pcs[k]);
      }
    } else {
      Others(s, a, k);
    }
  }

  /** Over every run, a wait that answers FQ_ERR_TIMEOUT was a timed one whose sleep
      expired, the n-th action: signals and spurious wakeups never make one time out. */
  lemma {:induction false} TimeoutMeansExpired(s: State, acts: seq<Action>, k: nat) returns (n: nat)
    requires Facts(s) && Legal(s, acts) && k < |s.pcs| && !TimedOut(s.pcs[k])
    requires k < |Run(s, acts).pcs| && TimedOut(Run(s, acts).pcs[k])
    ensures n < |acts| && acts[n] == Expire(k) && Legal(s, acts[..n])
    ensures var m := Run(s, acts[..n]); k < |m.pcs| && m.pcs[k].WSleep? && m.pcs[k].timed
    decreases |acts|
  {
    var s1 := Apply(s, acts[0]);
    FactsKept(s, acts[0]);
    TimedOutStep(s, acts[0], k);
    if TimedOut(s1.pcs[k]) {
      n := 0;
    } else {
      var m := TimeoutMeansExpired(s1, acts[1..], k);
      n := m + 1;
      assert acts[..n][1..] == acts[1..][..m];
    }
  }

  /** And a sleep that expires decides the answer: until the wait has returned it is on its
      way to FQ_ERR_TIMEOUT, whatever happens to the future meanwhile. */
  lemma ExpiryDecides(s: State, acts: seq<Action>, k: nat)
    requires Facts(s) && Enabled(s, Expire(k)) && Legal(Apply(s, Expire(k)), acts)
    ensures var s1 := Apply(s, Expire(k));
            k < |Run(s1, acts).pcs| && (TimedOut(Run(s1, acts).pcs[k]) || Returned(s1, acts, k))
  {
    FactsKept(s, Expire(k));
    StaysTimedOut(Apply(s, Expire(k)), acts, k);
  }

  lemma {:induction false} StaysTimedOut(s: State, acts: seq<Action>, k: nat)
    requires Facts(s) && Legal(s, acts) && k < |s.pcs| && TimedOut(s.pcs[k])
    ensures k < |Run(s, acts).pcs| && (TimedOut(Run(s, acts).pcs[k]) || Returned(s, acts, k))
    decreases |acts|
  {
    if acts != [] {
      FactsKept(s, acts[0]);
      if acts[0].k != k {
        Others(s, acts[0], k);
      }
      if TimedOut(Apply(s, acts[0]).pcs[k]) {
        StaysTimedOut(Apply(s, acts[0]), acts[1..], k);
      } else {
        SameThreads(Apply(s, acts[0]), acts[1..]);
      }
    }
  }

  lemma {:induction false} SameThreads(s: State, acts: seq<Action>)
    requires Legal(s, acts)
    ensures |Run(s, acts).pcs| == |s.pcs|
    decreases |acts|
  {
    if acts != [] {
      SameThreads(Apply(s, acts[0]), acts[1..]);
    }
  }

  /** The wait of thread `k` has answered FQ_ERR_TIMEOUT and returned in this run. */
  ghost predicate Returned(s: State, acts: seq<Action>, k: nat)
    requires Legal(s, acts)
    decreases |acts|
  {
    && acts != []
    && ((acts[0] == Step(k) && k < |s.pcs| && s.pcs[k].WDone? && s.pcs[k].st == Timeout)
        || Returned(Apply(s, acts[0]), acts[1..], k))
  }
}
