/** What every action of the task and future machine keeps: who holds the mutex, who
    owns the task, and what each thread's position says about the shared words. */
module FutureFacts {
  import opened Common
  import opened FutureModel

  predicate HoldsLock(pc: Pc) {
    || pc.WCheck? || pc.WUnlock? || pc.WExpire?
    || pc.RStore? || pc.RCheck? || pc.RUnlock?
    || pc.FStatus? || pc.FReady? || pc.FBroadcast? || pc.FCapture? || pc.FUnlock?
  }

  /** The mutex is held by exactly the thread the lock word names. */
  ghost predicate Locked(s: State) {
    && (s.future.lock.Some? ==> s.future.lock.value < |s.pcs|)
    && forall k :: 0 <= k < |s.pcs| ==> (HoldsLock(s.pcs[k]) <==> s.future.lock == Some(k))
  }

  predicate ForTask(who: Caller) {
    who.ByExecute? || who.ByDestroy?
  }

  /** Between taking the task out of its queue and freeing it. */
  predicate Owns(pc: Pc) {
    || pc.XLoad? || pc.XCall? || pc.XReturn? || pc.XExecuted? || pc.DReady? || pc.DFree?
    || (InFulfil(pc) && ForTask(pc.who))
    || (pc.CCas? && ForTask(pc.who))
  }

  /** Has this thread seen the future fulfilled? */
  predicate SawReady(pc: Pc) {
    || pc.WUnlock? || pc.WStatus? || (pc.WDone? && pc.st != Timeout)
    || pc.SStatus? || (pc.SDone? && pc.ret != Busy)
    || (pc.RUnlock? && pc.now.Some?) || pc.RInvoke?
    || pc.FBroadcast? || pc.FCapture? || pc.FUnlock? || pc.FInvoke?
  }

  /** Does this thread carry FQ_OK as the outcome of the task? */
  predicate ClaimsOk(pc: Pc) {
    || (pc.WDone? && pc.st == OK)
    || (pc.SDone? && pc.ret == OK)
    || (pc.RUnlock? && pc.now == Some(OK))
    || (pc.RInvoke? && pc.st == OK)
    || (InFulfil(pc) && pc.st == OK)
    || (pc.XExecuted? && !pc.was)
  }

  /** What a thread's position says that no action of another thread can falsify. */
  predicate Lasting(f: Future, t: Job, k: nat, pc: Pc) {
    && (Owns(pc) ==> t.owner == Some(k))
    && (SawReady(pc) ==> f.ready)
    && (ClaimsOk(pc) ==> t.body == Finished)
    && (pc.XExecuted? && pc.was ==> t.canceled)
    && (pc.CCas? ==> pc.who != ByExecute)
    && (InFulfil(pc) ==> Fulfilment(f, t, pc.st, pc.who))
  }

  /** Only the owner fulfils with FQ_OK; a cancel has won the race for `canceled`. */
  predicate Fulfilment(f: Future, t: Job, st: Status, who: Caller) {
    if who == ByExecute
    then t.executed && (st == OK || (st == Canceled && t.canceled))
    else f.canceled && st == Canceled
  }

  /** What it says about words that only the owner or the lock holder writes. */
  predicate Private(f: Future, t: Job, pc: Pc) {
    && (pc.XLoad? || pc.XCall? || (pc.XExecuted? && pc.was) ==> t.body == NotRun)
    && (pc.XReturn? ==> t.body == Entered)
    && (pc.XLoad? || pc.XCall? || pc.XReturn? || pc.XExecuted? ==> !t.executed)
    && (pc.FReady? || pc.FBroadcast? || pc.FCapture? || pc.FUnlock? ==> f.status == pc.st)
  }

  predicate Outcome(f: Future, t: Job) {
    && (f.status == OK || f.status == Canceled)
    && (f.ready && f.status == OK ==> t.body == Finished)
    && (f.status == Canceled ==> f.canceled || t.canceled)
    && (t.owner == None ==> t.body == NotRun && !t.executed && !t.freed)
    && (t.body == Entered ==> !t.executed)
  }

  predicate Mine(f: Future, t: Job, k: nat, pc: Pc) {
    Lasting(f, t, k, pc) && Private(f, t, pc)
  }

  ghost predicate Facts(s: State) {
    && Locked(s)
    && (forall k :: 0 <= k < |s.pcs| ==> Mine(s.future, s.task, k, s.pcs[k]))
    && Outcome(s.future, s.task)
  }

  // ---- effects ----

  /** Flags only rise, the body only advances and an owner is for good. */
  predicate Rises(f: Future, t: Job, f': Future, t': Job) {
    && (f.ready ==> f'.ready)
    && (f.canceled ==> f'.canceled)
    && (t.executed ==> t'.executed)
    && (t.canceled ==> t'.canceled)
    && (t.freed ==> t'.freed)
    && (t.body == Finished ==> t'.body == Finished)
    && (t.body == Entered ==> t'.body != NotRun)
    && (t.owner.Some? ==> t'.owner == t.owner)
  }

  /** Who may write the words the private facts speak about. */
  predicate Writes(f: Future, t: Job, pc: Pc, f': Future, t': Job) {
    && ((t'.body != t.body || t'.executed != t.executed) ==> Owns(pc))
    && (f'.status != f.status ==> pc.FStatus?)
  }

  /** The lock word after a move, in terms of the mover's old and new position. */
  predicate LockMoved(f: Future, k: nat, pc: Pc, f': Future, pc': Pc) {
    if HoldsLock(pc) == HoldsLock(pc') then f'.lock == f.lock
    else f'.lock == if HoldsLock(pc') then Some(k) else None
  }

  /** What a move must keep. */
  predicate Keeps(k: nat, m: Move) {
    Mine(m.future, m.task, k, m.pc) && Outcome(m.future, m.task)
  }

  /** What a move may change. */
  predicate Changes(f: Future, t: Job, k: nat, pc: Pc, m: Move) {
    && Rises(f, t, m.future, m.task)
    && Writes(f, t, pc, m.future, m.task)
    && LockMoved(f, k, pc, m.future, m.pc)
  }

  predicate Good(f: Future, t: Job, k: nat, pc: Pc, m: Move) {
    Keeps(k, m) && Changes(f, t, k, pc, m)
  }

  predicate Before(f: Future, t: Job, k: nat, pc: Pc) {
    Mine(f, t, k, pc) && Outcome(f, t) && !pc.WSleep? && pc != Idle
  }

  lemma WaitKeeps(f: Future, t: Job, k: nat, pc: Pc)
    requires Before(f, t, k, pc) && InWait(pc)
    ensures Keeps(k, Wait(f, t, k, pc))
  {}

  lemma WaitChanges(f: Future, t: Job, k: nat, pc: Pc)
    requires Before(f, t, k, pc) && InWait(pc)
    ensures Changes(f, t, k, pc, Wait(f, t, k, pc))
  {}

  lemma RegisterKeeps(f: Future, t: Job, k: nat, pc: Pc)
    requires Before(f, t, k, pc) && InRegister(pc)
    ensures Keeps(k, Register(f, t, k, pc))
  {}

  lemma RegisterChanges(f: Future, t: Job, k: nat, pc: Pc)
    requires Before(f, t, k, pc) && InRegister(pc)
    ensures Changes(f, t, k, pc, Register(f, t, k, pc))
  {}

  lemma FulfilKeeps(f: Future, t: Job, k: nat, pc: Pc)
    requires Before(f, t, k, pc) && InFulfil(pc)
    ensures Keeps(k, Fulfil(f, t, k, pc))
  {}

  lemma FulfilChanges(f: Future, t: Job, k: nat, pc: Pc)
    requires Before(f, t, k, pc) && InFulfil(pc)
    ensures Changes(f, t, k, pc, Fulfil(f, t, k, pc))
  {}

  lemma CancelKeeps(f: Future, t: Job, k: nat, pc: Pc)
    requires Before(f, t, k, pc) && InCancel(pc)
    ensures Keeps(k, Cancel(f, t, pc))
  {}

  lemma CancelChanges(f: Future, t: Job, k: nat, pc: Pc)
    requires Before(f, t, k, pc) && InCancel(pc)
    ensures Changes(f, t, k, pc, Cancel(f, t, pc))
  {}

  lemma WorkKeeps(f: Future, t: Job, k: nat, pc: Pc)
    requires Before(f, t, k, pc) && !InWait(pc) && !InRegister(pc) && !InFulfil(pc) && !InCancel(pc)
    ensures Keeps(k, Work(f, t, pc))
  {}

  lemma WorkChanges(f: Future, t: Job, k: nat, pc: Pc)
    requires Before(f, t, k, pc) && !InWait(pc) && !InRegister(pc) && !InFulfil(pc) && !InCancel(pc)
    ensures Changes(f, t, k, pc, Work(f, t, pc))
  {}

  lemma NextGood(f: Future, t: Job, k: nat, pc: Pc)
    requires Before(f, t, k, pc)
    ensures Good(f, t, k, pc, Next(f, t, k, pc))
  {
    if InWait(pc) {
      WaitKeeps(f, t, k, pc);
      WaitChanges(f, t, k, pc);
    } else if InRegister(pc) {
      RegisterKeeps(f, t, k, pc);
      RegisterChanges(f, t, k, pc);
    } else if InFulfil(pc) {
      FulfilKeeps(f, t, k, pc);
      FulfilChanges(f, t, k, pc);
    } else if InCancel(pc) {
      CancelKeeps(f, t, k, pc);
      CancelChanges(f, t, k, pc);
    } else {
      WorkKeeps(f, t, k, pc);
      WorkChanges(f, t, k, pc);
    }
  }

  lemma MoveKeeps(s: State, a: Action)
    requires Enabled(s, a)
    requires Mine(s.future, s.task, a.k, s.pcs[a.k]) && Outcome(s.future, s.task)
    ensures Good(s.future, s.task, a.k, s.pcs[a.k], MoveOf(s, a))
  {
    if a.Step? {
      NextGood(s.future, s.task, a.k, s.pcs[a.k]);
    }
  }

  // ---- preservation ----

  /** The other threads stay where they are, except that some may be signalled. */
  lemma Others(s: State, a: Action, j: nat)
    requires Enabled(s, a) && j < |s.pcs| && j != a.k
    ensures Apply(s, a).pcs[j] == s.pcs[j] || Apply(s, a).pcs[j] == Woken(s.pcs[j])
  {}

  lemma LockedKept(s: State, a: Action)
    requires Enabled(s, a) && Locked(s)
    requires LockMoved(s.future, a.k, s.pcs[a.k], MoveOf(s, a).future, MoveOf(s, a).pc)
    requires HoldsLock(MoveOf(s, a).pc) && !HoldsLock(s.pcs[a.k]) ==> s.future.lock == None
    ensures Locked(Apply(s, a))
  {
    forall j | 0 <= j < |s.pcs| && j != a.k
      ensures HoldsLock(Apply(s, a).pcs[j]) == HoldsLock(s.pcs[j])
    {
      Others(s, a, j);
    }
  }

  lemma OnlyLockersLock(f: Future, t: Job, k: nat, pc: Pc)
    requires HoldsLock(Next(f, t, k, pc).pc) && !HoldsLock(pc)
    ensures TakesLock(pc)
  {}

  lemma OtherMine(f: Future, t: Job, f': Future, t': Job, k: nat, pc: Pc, j: nat, other: Pc, other': Pc)
    requires j != k && Mine(f, t, k, pc) && Mine(f, t, j, other)
    requires Rises(f, t, f', t') && Writes(f, t, pc, f', t')
    requires HoldsLock(pc) ==> !HoldsLock(other)
    requires other' == other || other' == Woken(other)
    ensures Mine(f', t', j, other')
  {}

  lemma FactsKept(s: State, a: Action)
    requires Enabled(s, a) && Facts(s)
    ensures Facts(Apply(s, a))
  {
    var k, s' := a.k, Apply(s, a);
    MoveKeeps(s, a);
    if a.Step? && HoldsLock(MoveOf(s, a).pc) && !HoldsLock(s.pcs[k]) {
      OnlyLockersLock(s.future, s.task, k, s.pcs[k]);
    }
    LockedKept(s, a);
    forall j | 0 <= j < |s'.pcs| ensures Mine(s'.future, s'.task, j, s'.pcs[j]) {
      if j != k {
        Others(s, a, j);
        OtherMine(s.future, s.task, s'.future, s'.task, k, s.pcs[k], j, s.pcs[j], s'.pcs[j]);
      }
    }
  }

  lemma InitialFacts(n: nat)
    ensures Facts(Initial(n))
  {}

  /** `ready`, `canceled` and the task's two flags never go back, in any run. */
  lemma {:induction false} FactsOverRun(s: State, acts: seq<Action>)
    requires Facts(s) && Legal(s, acts)
    ensures Facts(Run(s, acts))
    ensures Rises(s.future, s.task, Run(s, acts).future, Run(s, acts).task)
    decreases |acts|
  {
    if acts != [] {
      FactsKept(s, acts[0]);
      MoveKeeps(s, acts[0]);
      FactsOverRun(Apply(s, acts[0]), acts[1..]);
    }
  }
}
