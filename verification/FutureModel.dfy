/** One task and its future (src/task/task.c, src/future/future.c) as a step machine:
    one thread executes or drains the task, any number of threads wait, poll,
    register completion callbacks and cancel, one atomic action at a time. */
module FutureModel {
  import opened Common

  /** The body of the task's callback: not entered, entered, returned. */
  datatype Body = NotRun | Entered | Finished

  /** Who called fq_future_set_result, and hence what follows it. */
  datatype Caller = ByUser | ByTask | ByExecute | ByDestroy

  /** Where a thread is; each constructor names its next action. */
  datatype Pc =
    | Idle
    // fq_future_wait (timed is false) and fq_future_wait_timeout (timed is true)
    | WSpin(timed: bool, left: nat)
    | WLock(timed: bool, expired: bool)
    | WCheck(timed: bool)
    | WSleep(timed: bool, signalled: bool)
    | WUnlock(timed: bool)
    | WExpire
    | WStatus(timed: bool)
    | WDone(timed: bool, ret: Status, st: Status)
    // fq_future_status
    | SReady
    | SStatus
    | SDone(ret: Status)
    // fq_future_on_complete; `r` identifies the callback and its data
    | RLock(r: nat)
    | RStore(r: nat)
    | RCheck(r: nat)
    | RUnlock(r: nat, now: Option<Status>)
    | RInvoke(r: nat, st: Status)
    // fq_future_set_result
    | FLock(st: Status, who: Caller)
    | FStatus(st: Status, who: Caller)
    | FReady(st: Status, who: Caller)
    | FBroadcast(st: Status, who: Caller)
    | FCapture(st: Status, who: Caller)
    | FUnlock(st: Status, who: Caller, cb: Option<nat>)
    | FInvoke(st: Status, who: Caller, cb: Option<nat>)
    // fq_future_cancel
    | CCas(who: Caller)
    // fq_task_cancel
    | KExecuted
    | KCas
    | KDone(ret: Status)
    // fq_task_execute
    | XLoad
    | XCall
    | XReturn
    | XExecuted(was: bool)
    // fq_task_destroy
    | DReady
    | DFree

  /** The critical sections of the future's mutex, in the order they commit. */
  datatype Event = Reg(r: nat) | Ful(st: Status)

  /** The words of fq_future_t. */
  datatype Future = Future(ready: bool, canceled: bool, status: Status, callback: Option<nat>, lock: Option<nat>)

  /** The words of fq_task_t, what its callback has done, and the thread that took the
      task out of its queue. */
  datatype Job = Job(executed: bool, canceled: bool, body: Body, owner: Option<nat>, freed: bool)

  /** Registrations made, critical sections in the order they commit, and completion
      callbacks invoked. */
  datatype History = History(regs: set<nat>, order: seq<Event>, invoked: seq<(nat, Status)>)

  datatype State = State(future: Future, task: Job, pcs: seq<Pc>, log: History)

  datatype Action =
    | Begin(k: nat, first: Pc)
    | Step(k: nat)
    | Wake(k: nat)
    | Expire(k: nat)

  /** FQ_FUTURE_SPIN_COUNT, and the shorter spin of the timed wait. */
  const SPINS: nat := 128
  const TIMED_SPINS: nat := 32

  predicate Entry(s: State, pc: Pc) {
    match pc
    case WSpin(timed, left) => if timed then left == TIMED_SPINS || left == 0 else left == SPINS
    case SReady => true
    case RLock(r) => r !in s.log.regs
    case CCas(who) => who == ByUser
    case KExecuted => true
    case XLoad => s.task.owner == None
    case DReady => s.task.owner == None
    case _ => false
  }

  predicate TakesLock(pc: Pc) {
    pc.WLock? || pc.RLock? || pc.FLock?
  }

  predicate Enabled(s: State, a: Action) {
    && a.k < |s.pcs|
    && match a
       case Begin(k, first) => s.pcs[k] == Idle && Entry(s, first)
       case Step(k) => s.pcs[k] != Idle && !s.pcs[k].WSleep? && (TakesLock(s.pcs[k]) ==> s.future.lock == None)
       case Wake(k) => s.pcs[k].WSleep?
       case Expire(k) => s.pcs[k].WSleep? && s.pcs[k].timed
  }

  predicate InWait(pc: Pc) {
    pc.WSpin? || pc.WLock? || pc.WCheck? || pc.WSleep? || pc.WUnlock? || pc.WExpire? || pc.WStatus? || pc.WDone?
  }

  predicate InRegister(pc: Pc) {
    pc.RLock? || pc.RStore? || pc.RCheck? || pc.RUnlock? || pc.RInvoke?
  }

  predicate InFulfil(pc: Pc) {
    pc.FLock? || pc.FStatus? || pc.FReady? || pc.FBroadcast? || pc.FCapture? || pc.FUnlock? || pc.FInvoke?
  }

  predicate InCancel(pc: Pc) {
    pc.CCas? || pc.KExecuted? || pc.KCas? || pc.KDone?
  }

  /** What one action of thread `k` does to the words and to its own position. */
  datatype Move = Move(future: Future, task: Job, pc: Pc)

  function MoveOf(s: State, a: Action): Move
    requires Enabled(s, a)
  {
    var f, t, pc := s.future, s.task, s.pcs[a.k];
    match a
    case Begin(k, first) =>
      Move(f, if first.XLoad? || first.DReady? then t.(owner := Some(k)) else t, first)
    case Wake(k) => Move(f, t, WLock(pc.timed, false))
    case Expire(k) => Move(f, t, WLock(true, true))
    case Step(k) => Next(f, t, k, pc)
  }

  function Next(f: Future, t: Job, k: nat, pc: Pc): Move {
    if InWait(pc) then Wait(f, t, k, pc)
    else if InRegister(pc) then Register(f, t, k, pc)
    else if InFulfil(pc) then Fulfil(f, t, k, pc)
    else if InCancel(pc) then Cancel(f, t, pc)
    else Work(f, t, pc)
  }

  function Apply(s: State, a: Action): State
    requires Enabled(s, a)
  {
    var m := MoveOf(s, a);
    State(m.future, m.task, Signalled(s, a)[a.k := m.pc], Record(s, a))
  }

  /** fq_condition_broadcast: the threads, those asleep signalled if this is one. */
  function Signalled(s: State, a: Action): (pcs: seq<Pc>)
    requires a.k < |s.pcs|
    ensures |pcs| == |s.pcs|
  {
    if a.Step? && s.pcs[a.k].FBroadcast?
    then seq(|s.pcs|, j requires 0 <= j < |s.pcs| => Woken(s.pcs[j]))
    else s.pcs
  }

  function Woken(pc: Pc): Pc {
    if pc.WSleep? then WSleep(pc.timed, true) else pc
  }

  /** fq_future_wait and fq_future_wait_timeout. */
  function Wait(f: Future, t: Job, k: nat, pc: Pc): Move {
    match pc
    case WSpin(timed, left) =>
      Move(f, t, if left == 0 then WLock(timed, false) else if f.ready then WStatus(timed) else WSpin(timed, left - 1))
    case WLock(timed, expired) =>
      Move(f.(lock := Some(k)), t, if expired then WExpire else WCheck(timed))
    case WCheck(timed) =>
      if f.ready then Move(f, t, WUnlock(timed)) else Move(f.(lock := None), t, WSleep(timed, false))
    case WUnlock(timed) => Move(f.(lock := None), t, WStatus(timed))
    case WExpire => Move(f.(lock := None), t, WDone(true, Timeout, Timeout))
    case WStatus(timed) => Move(f, t, WDone(timed, if timed then OK else f.status, f.status))
    case _ => Move(f, t, Idle)
  }

  /** fq_future_on_complete. */
  function Register(f: Future, t: Job, k: nat, pc: Pc): Move {
    match pc
    case RLock(r) => Move(f.(lock := Some(k)), t, RStore(r))
    case RStore(r) => Move(f.(callback := Some(r)), t, RCheck(r))
    case RCheck(r) => Move(f, t, RUnlock(r, if f.ready then Some(f.status) else None))
    case RUnlock(r, now) => Move(f.(lock := None), t, if now.Some? then RInvoke(r, now.value) else Idle)
    case _ => Move(f, t, Idle)
  }

  /** fq_future_set_result. */
  function Fulfil(f: Future, t: Job, k: nat, pc: Pc): Move {
    match pc
    case FLock(st, who) => Move(f.(lock := Some(k)), t, FStatus(st, who))
    case FStatus(st, who) => Move(f.(status := st), t, FReady(st, who))
    case FReady(st, who) => Move(f.(ready := true), t, FBroadcast(st, who))
    case FBroadcast(st, who) => Move(f, t, FCapture(st, who))
    case FCapture(st, who) => Move(f, t, FUnlock(st, who, f.callback))
    case FUnlock(st, who, cb) => Move(f.(lock := None), t, FInvoke(st, who, cb))
    case FInvoke(st, who, cb) => Move(f, t, AfterFulfil(who))
    case _ => Move(f, t, pc)
  }

  function AfterFulfil(who: Caller): Pc {
    match who
    case ByUser => Idle
    case ByTask => KDone(OK)
    case ByExecute => DReady
    case ByDestroy => DFree
  }

  /** fq_future_cancel and fq_task_cancel. */
  function Cancel(f: Future, t: Job, pc: Pc): Move {
    match pc
    case CCas(who) =>
      if f.canceled then Move(f, t, AfterFulfil(who)) else Move(f.(canceled := true), t, FLock(Canceled, who))
    case KExecuted => Move(f, t, if t.executed then KDone(Busy) else KCas)
    case KCas =>
      if t.canceled then Move(f, t, KDone(OK)) else Move(f, t.(canceled := true), CCas(ByTask))
    case _ => Move(f, t, Idle)
  }

  /** fq_future_status, fq_task_execute and fq_task_destroy. */
  function Work(f: Future, t: Job, pc: Pc): Move {
    match pc
    case SReady => Move(f, t, if f.ready then SStatus else SDone(Busy))
    case SStatus => Move(f, t, SDone(f.status))
    case XLoad => Move(f, t, if t.canceled then XExecuted(true) else XCall)
    case XCall => Move(f, t.(body := Entered), XReturn)
    case XReturn => Move(f, t.(body := Finished), XExecuted(false))
    case XExecuted(was) => Move(f, t.(executed := true), FLock(if was then Canceled else OK, ByExecute))
    case DReady => Move(f, t, if f.ready then DFree else CCas(ByDestroy))
    case DFree => Move(f, t.(freed := true), Idle)
    case _ => Move(f, t, Idle)
  }

  /** What an action adds to the history. */
  function Record(s: State, a: Action): History
    requires a.k < |s.pcs|
  {
    var log := s.log;
    match a
    case Begin(k, first) => if first.RLock? then log.(regs := log.regs + {first.r}) else log
    case Step(k) =>
      (match s.pcs[k]
       case RCheck(r) => log.(order := log.order + [Reg(r)])
       case FCapture(st, who) => log.(order := log.order + [Ful(st)])
       case RInvoke(r, st) => log.(invoked := log.invoked + [(r, st)])
       case FInvoke(st, who, cb) => if cb.Some? then log.(invoked := log.invoked + [(cb.value, st)]) else log
       case _ => log)
    case _ => log
  }

  // ---- runs ----

  ghost predicate Legal(s: State, acts: seq<Action>)
    decreases |acts|
  {
    acts != [] ==> Enabled(s, acts[0]) && Legal(Apply(s, acts[0]), acts[1..])
  }

  ghost function Run(s: State, acts: seq<Action>): State
    requires Legal(s, acts)
    decreases |acts|
  {
    if acts == [] then s else Run(Apply(s, acts[0]), acts[1..])
  }

  /** A queued task with a fresh future, whose status is the placeholder FQ_OK, and
      `n` threads about to use them. */
  function Initial(n: nat): State {
    State(Future(false, false, OK, None, None), Job(false, false, NotRun, None, false),
          seq(n, _ => Idle), History({}, [], []))
  }
}
