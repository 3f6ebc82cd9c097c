/** src/scheduler/scheduler.c as a step machine: any number of workers and of
    threads that call the scheduler, one atomic action at a time, in any order.
    The queues are the atomic FIFOs that Ring.dfy refines; only the size of a
    queue is read in two loads, as fq_queue_size does. */
module SchedulerModel {
  import opened Common
  import opened Bits

  /** A bounded FIFO with its ticket history: `pushed` in ticket order, of which
      the first `popped` have been taken. */
  datatype Fifo = Fifo(pushed: seq<Task>, popped: nat, room: nat) {
    ghost predicate Valid() {
      popped <= |pushed| <= popped + room
    }
    function Items(): seq<Task> {
      if popped <= |pushed| then pushed[popped..] else []
    }
    function Push(t: Task): Fifo {
      this.(pushed := pushed + [t])
    }
    function Pop(): Fifo {
      this.(popped := popped + 1)
    }
    predicate Full() {
      |pushed| - popped >= room
    }
    predicate Empty() {
      popped >= |pushed|
    }
    /** What fq_queue_size answers now to a thread that loaded `head` when `h0`
        tasks had been taken. */
    function SizeSince(h0: nat): nat {
      if h0 <= |pushed| then Rem(|pushed| - h0, room + 1) else 0
    }
  }

  datatype Target = Global | Local(w: nat)

  datatype Config = Config(workers: nat, stealing: bool, priority: bool)

  /** Why a worker did not exit in this round: the flag was down, or it saw a
      queue that was not empty, whose `head` it loaded at ticket `h0`. */
  datatype Why = FlagDown | Saw(q: Target, h0: nat)

  /** Where a worker is in worker_main; each constructor names its next action. */
  datatype WPc =
    | Top
    | ExitGlobalHead
    | ExitGlobalTail(h0: nat)
    | ExitOwnHead
    | ExitOwnTail(h0: nat)
    | Probe(i: nat, why: Why)
    | Found(task: Task)
    | Raised(task: Task)
    | Running(task: Task)
    | Returned(task: Task)
    | Counted(task: Task)
    | Leaving(task: Task)
    | NapGlobalHead
    | NapGlobalTail(h0: nat)
    | NapOwnHead
    | NapOwnTail(h0: nat)
    | Napping
    | Stopped

  /** `seen` is the load of the scheduler (queued tasks and submits in their windows)
      when this round loaded the raised flag, and one more for each try_pop that the
      round has since lost to a taken lock. */
  datatype Worker = Worker(pc: WPc, seen: Option<nat>)

  /** Where a thread is in a call to the scheduler. */
  datatype Call =
    | NoCall
    // fq_scheduler_submit
    | SubFlag(task: Task)
    | SubCount(task: Task)
    | SubRaise(task: Task)
    | SubPush(task: Task)
    | SubSpill(task: Task)
    | SubUndo(task: Task)
    | SubDone(task: Task, st: Status)
    // fq_scheduler_is_idle
    | IdlePending1
    | IdleActive1(p: int)
    | IdlePending2
    | IdleActive2(p: int, snap: set<Task>)
    | IdleDone(idle: bool, snap: set<Task>)
    // fq_scheduler_cancel_all
    | CancelFlag
    | CancelDrain(from: Target, batch: seq<Task>)
    | CancelDestroy(from: Target, batch: seq<Task>)
    | CancelTally(from: Target, batch: seq<Task>)
    | CancelDone
    // fq_scheduler_shutdown
    | ShutFlag
    | ShutJoin(i: nat)
    | ShutDone

  /** The batch size of fq_scheduler_cancel_all. */
  const BATCH: nat := 256

  /** The atomic counters of fq_scheduler_t. */
  datatype Counters = Counters(submitted: int, completed: int, canceled: int, pending: int, active: int)

  /** What became of each task. `unraised`, `offered` and `accepted` are the tasks
      whose submit has not raised tasks_pending, has raised it without a
      successful push, and has pushed; the sequences list the tasks refused with
      CLOSED, the overflowed, the executed and the ones cancel_all destroyed. */
  datatype History = History(
    unraised: set<Task>,
    offered: set<Task>,
    accepted: set<Task>,
    refused: seq<Task>,
    overflowed: seq<Task>,
    ran: seq<Task>,
    dropped: seq<Task>)

  /** shutdown_flag; whether it was first stored with no submit in its window, that is,
      between its flag check and its push; and whether with no harmful one. */
  datatype Shut = Shut(flag: bool, quiet: bool, safe: bool)

  /** The fields of fq_scheduler_t, the threads and the history. Threads 0 to
      workers-1 of `calls` are the workers themselves, calling from inside a
      callback; `next` is the thread-local worker counter of submit. */
  datatype State = State(
    cfg: Config,
    global: Fifo,
    locals: seq<Fifo>,
    shut: Shut,
    count: Counters,
    workers: seq<Worker>,
    calls: seq<Call>,
    next: seq<nat>,
    log: History)

  datatype Action =
    | WStep(w: nat)
    | WContend(w: nat)
    | Begin(k: nat, call: Call)
    | CStep(k: nat)

  // ---- probing order ----

  /** The i-th candidate of try_steal. */
  function Victim(thief: nat, i: nat, n: nat): nat
    requires n > 0
  {
    Rem(thief + 1 + i, n)
  }

  /** The queues try_steal probes from its i-th round on. */
  function Steals(thief: nat, i: nat, n: nat): (qs: seq<Target>)
    decreases n - i
  {
    if i >= n then []
    else (if Victim(thief, i, n) == thief then [] else [Local(Victim(thief, i, n))]) + Steals(thief, i + 1, n)
  }

  /** The queues a worker probes in one round, in order. */
  function Plan(cfg: Config, w: nat): seq<Target> {
    var steals := if cfg.stealing then Steals(w, 0, cfg.workers) else [];
    if cfg.priority then [Global, Local(w)] + steals else [Local(w)] + steals + [Global]
  }

  // ---- queues ----

  predicate Has(s: State, q: Target) {
    q.Local? ==> q.w < |s.locals|
  }

  function QueueAt(s: State, q: Target): Fifo
    requires Has(s, q)
  {
    if q.Global? then s.global else s.locals[q.w]
  }

  function SetQueue(s: State, q: Target, f: Fifo): State
    requires Has(s, q)
  {
    if q.Global? then s.(global := f) else s.(locals := s.locals[q.w := f])
  }

  // ---- shape ----

  /** The structural facts every step relies on. */
  ghost predicate Shape(s: State) {
    && s.cfg.workers == |s.workers| == |s.locals| > 0
    && |s.workers| <= |s.calls| == |s.next|
    && s.global.Valid()
    && (forall i :: 0 <= i < |s.locals| ==> s.locals[i].Valid())
    && (forall w :: 0 <= w < |s.workers| ==> WorkerShape(s, w, s.workers[w].pc))
    && (forall k :: 0 <= k < |s.calls| ==> CallShape(s, k, s.calls[k]))
  }

  ghost predicate WorkerShape(s: State, w: nat, pc: WPc) {
    match pc
    case Probe(i, why) =>
      i < |Plan(s.cfg, w)| && Has(s, Plan(s.cfg, w)[i]) && (why.Saw? ==> Has(s, why.q))
    case _ => true
  }

  /** Callbacks call from inside a worker that is running its task. */
  ghost predicate CallShape(s: State, k: nat, c: Call) {
    && (k < |s.workers| && c != NoCall ==> s.workers[k].pc.Running?)
    && match c
       case CancelDrain(from, batch) => Has(s, from) && |batch| <= BATCH
       case CancelDestroy(from, batch) => Has(s, from)
       case CancelTally(from, batch) => Has(s, from)
       case ShutJoin(i) => i <= |s.workers|
       case _ => true
  }

  // ---- actions ----

  predicate Entry(s: State, c: Call) {
    match c
    case SubFlag(t) => t !in s.log.unraised && t !in s.log.offered && t !in s.log.accepted
    case IdlePending1 => true
    case CancelFlag => true
    case ShutFlag => true
    case _ => false
  }

  ghost predicate Enabled(s: State, a: Action) {
    match a
    case WStep(w) =>
      && w < |s.workers|
      && s.workers[w].pc != Stopped
      && (s.workers[w].pc.Running? ==> w < |s.calls| && s.calls[w] == NoCall)
    case WContend(w) => w < |s.workers| && s.workers[w].pc.Probe?
    case Begin(k, call) =>
      && k < |s.calls| && s.calls[k] == NoCall && Entry(s, call)
      && (k < |s.workers| ==> s.workers[k].pc.Running?)
    case CStep(k) =>
      && k < |s.calls| && s.calls[k] != NoCall
      && (s.calls[k].ShutJoin? && s.calls[k].i < |s.workers| ==> s.workers[s.calls[k].i].pc == Stopped)
  }

  ghost function Apply(s: State, a: Action): State
    requires Shape(s) && Enabled(s, a)
  {
    match a
    case WStep(w) =>
      if s.workers[w].pc.Probe? then StepProbe(s, w, true)
      else if Holding(s.workers[w].pc) then StepTask(s, w)
      else StepRound(s, w)
    case WContend(w) => StepProbe(s, w, false)
    case Begin(k, call) => StepBegin(s, k, call)
    case CStep(k) =>
      if InSubmit(s.calls[k]) then StepSubmit(s, k)
      else if InIdle(s.calls[k]) then StepIdle(s, k)
      else if InCancel(s.calls[k]) then StepCancel(s, k)
      else StepShut(s, k)
  }

  function Go(s: State, w: nat, pc: WPc): State
    requires w < |s.workers|
  {
    s.(workers := s.workers[w := s.workers[w].(pc := pc)])
  }

  function SetCall(s: State, k: nat, c: Call): State
    requires k < |s.calls|
  {
    s.(calls := s.calls[k := c])
  }

  predicate Holding(pc: WPc) {
    pc.Found? || pc.Raised? || pc.Running? || pc.Returned? || pc.Counted? || pc.Leaving?
  }

  /** The number of tasks in all queues. */
  ghost function Queued(s: State): int {
    |s.global.Items()| + Total(QueueLength, s.locals)
  }

  ghost function QueueLength(f: Fifo): int { |f.Items()| }

  /** Is some task still to be pushed by this call? */
  ghost function Windowing(c: Call): int { Bit(InWindow(c)) }

  /** The tasks in all queues and those that submits past their flag check may push. */
  ghost function Load(s: State): int {
    Queued(s) + Total(Windowing, s.calls)
  }

  /** The exit test and the idle nap of worker_main. */
  ghost function StepRound(s: State, w: nat): State
    requires Shape(s) && w < |s.workers|
  {
    s.(workers := s.workers[w := NextRound(s, w)])
  }

  ghost function NextRound(s: State, w: nat): Worker
    requires Shape(s) && w < |s.workers|
  {
    var me := s.workers[w];
    match me.pc
    case Top =>
      if s.shut.flag then Worker(ExitGlobalHead, Some(if Load(s) >= 0 then Load(s) else 0))
      else Worker(Probe(0, FlagDown), None)
    case ExitGlobalHead => me.(pc := ExitGlobalTail(s.global.popped))
    case ExitGlobalTail(h0) =>
      me.(pc := if s.global.SizeSince(h0) == 0 then ExitOwnHead else Probe(0, Saw(Global, h0)))
    case ExitOwnHead => me.(pc := ExitOwnTail(s.locals[w].popped))
    case ExitOwnTail(h0) =>
      me.(pc := if s.locals[w].SizeSince(h0) == 0 then Stopped else Probe(0, Saw(Local(w), h0)))
    case NapGlobalHead => me.(pc := NapGlobalTail(s.global.popped))
    case NapGlobalTail(h0) => me.(pc := if s.global.SizeSince(h0) == 0 then NapOwnHead else Top)
    case NapOwnHead => me.(pc := NapOwnTail(s.locals[w].popped))
    case NapOwnTail(h0) => me.(pc := if s.locals[w].SizeSince(h0) == 0 then Napping else Top)
    case Napping => me.(pc := Top)
    case _ => me
  }

  /** One fq_queue_try_pop; with `lock` false the pop lock was taken and it gives up. */
  ghost function StepProbe(s: State, w: nat, lock: bool): State
    requires Shape(s) && w < |s.workers| && s.workers[w].pc.Probe?
  {
    var Probe(i, why) := s.workers[w].pc;
    var q := Plan(s.cfg, w)[i];
    var f := QueueAt(s, q);
    if lock && !f.Empty() then
      SetQueue(Go(s, w, Found(f.pushed[f.popped])), q, f.Pop())
    else
      Missed(s, w, if i + 1 < |Plan(s.cfg, w)| then Probe(i + 1, why) else NapGlobalHead, lock)
  }

  /** A probe without a task, for lack of one or, with `lock` false, of the lock. */
  function Missed(s: State, w: nat, pc: WPc, lock: bool): State
    requires w < |s.workers|
  {
    var seen := s.workers[w].seen;
    s.(workers := s.workers[w := Worker(pc, if lock || seen.None? then seen else Some(seen.value + 1))])
  }

  /** From the pop of a task to its destruction. */
  ghost function StepTask(s: State, w: nat): State
    requires w < |s.workers|
  {
    var pc, n := s.workers[w].pc, s.count;
    var s' := Go(s, w, AfterTask(pc));
    match pc
    case Found(t) => s'.(count := n.(active := n.active + 1))
    case Raised(t) => s'.(count := n.(pending := n.pending - 1))
    case Returned(t) => s'.(count := n.(completed := n.completed + 1), log := s.log.(ran := s.log.ran + [t]))
    case Counted(t) => s'.(count := n.(active := n.active - 1))
    case _ => s'
  }

  function AfterTask(pc: WPc): WPc {
    match pc
    case Found(t) => Raised(t)
    case Raised(t) => Running(t)
    case Running(t) => Returned(t)
    case Returned(t) => Counted(t)
    case Counted(t) => Leaving(t)
    case _ => Top
  }

  ghost function StepBegin(s: State, k: nat, c: Call): State
    requires k < |s.calls|
  {
    var s' := SetCall(s, k, c);
    if c.SubFlag? then s'.(log := s.log.(unraised := s.log.unraised + {c.task})) else s'
  }

  predicate InSubmit(c: Call) {
    c.SubFlag? || c.SubCount? || c.SubRaise? || c.SubPush? || c.SubSpill? || c.SubUndo? || c.SubDone?
  }

  predicate InIdle(c: Call) {
    c.IdlePending1? || c.IdleActive1? || c.IdlePending2? || c.IdleActive2? || c.IdleDone?
  }

  predicate InCancel(c: Call) {
    c.CancelFlag? || c.CancelDrain? || c.CancelDestroy? || c.CancelTally? || c.CancelDone?
  }

  /** High and urgent tasks go to the global queue when priority is on. */
  predicate Urgent(s: State, t: Task) {
    s.cfg.priority && t.priority >= PRIORITY_HIGH
  }

  /** The worker this thread tries next: the thread-local counter, modulo. */
  function FirstChoice(s: State, k: nat): nat
    requires k < |s.next| && s.cfg.workers > 0
  {
    Rem(s.next[k], s.cfg.workers)
  }

  function Bump(counter: nat): nat {
    (counter + 1) % 0x1_0000_0000
  }

  ghost function StepSubmit(s: State, k: nat): State
    requires Shape(s) && k < |s.calls|
  {
    match s.calls[k]
    case SubFlag(t) =>
      if s.shut.flag then SetCall(s, k, SubDone(t, Closed)).(log := s.log.(refused := s.log.refused + [t]))
      else SetCall(s, k, SubCount(t))
    case SubCount(t) => SetCall(s, k, SubRaise(t)).(count := s.count.(submitted := s.count.submitted + 1))
    case SubRaise(t) =>
      SetCall(s, k, SubPush(t)).(
        count := s.count.(pending := s.count.pending + 1),
        log := s.log.(unraised := s.log.unraised - {t}, offered := s.log.offered + {t}))
    case SubPush(t) => StepAttempt(s, k, t)
    case SubSpill(t) => StepAttempt(s, k, t)
    case SubUndo(t) =>
      SetCall(s, k, SubDone(t, Overflow)).(
        count := s.count.(pending := s.count.pending - 1),
        log := s.log.(overflowed := s.log.overflowed + [t]))
    case _ => SetCall(s, k, NoCall)
  }

  /** The push attempts of a submit: high and urgent tasks to the global queue, others
      to the next worker's queue and, when that is full, to the global queue. */
  ghost function StepAttempt(s: State, k: nat, t: Task): State
    requires Shape(s) && k < |s.calls|
  {
    if s.calls[k].SubSpill? || Urgent(s, t) then PushOr(s, k, t, Global, SubUndo(t))
    else PushOr(s.(next := s.next[k := Bump(s.next[k])]), k, t, Local(FirstChoice(s, k)), SubSpill(t))
  }

  /** fq_queue_push on `q`, going on to `otherwise` when it is full. */
  ghost function PushOr(s: State, k: nat, t: Task, q: Target, otherwise: Call): State
    requires Has(s, q) && k < |s.calls|
  {
    if QueueAt(s, q).Full() then SetCall(s, k, otherwise)
    else SetQueue(SetCall(s, k, SubDone(t, OK)), q, QueueAt(s, q).Push(t)).(
           log := s.log.(offered := s.log.offered - {t}, accepted := s.log.accepted + {t}))
  }

  ghost function StepIdle(s: State, k: nat): State
    requires k < |s.calls|
  {
    SetCall(s, k, NextIdle(s, s.calls[k]))
  }

  ghost function NextIdle(s: State, c: Call): Call {
    match c
    case IdlePending1 => IdleActive1(s.count.pending)
    case IdleActive1(p) => if p != 0 || s.count.active != 0 then IdleDone(false, {}) else IdlePending2
    case IdlePending2 => IdleActive2(s.count.pending, s.log.offered + s.log.accepted)
    case IdleActive2(p, snap) => IdleDone(p == 0 && s.count.active == 0, snap)
    case _ => NoCall
  }

  /** Is some submit between its flag check and its push? */
  ghost predicate InWindow(c: Call) {
    c.SubCount? || c.SubRaise? || c.SubPush? || c.SubSpill?
  }

  ghost predicate NoneInWindow(s: State) {
    forall k :: 0 <= k < |s.calls| ==> !InWindow(s.calls[k])
  }

  /** A submit in its window whose push can reach a queue that nobody will look at
      again: a client's, or that of a worker's callback to another worker's queue. */
  ghost predicate Harmful(s: State, k: nat)
    requires k < |s.calls|
  {
    InWindow(s.calls[k]) && !(k < |s.workers| && StaysHome(s, k, s.calls[k]))
  }

  /** The push of `c` goes to the global queue or to thread `k`'s own. */
  ghost predicate StaysHome(s: State, k: nat, c: Call)
    requires InWindow(c)
  {
    c.SubSpill? || Urgent(s, c.task) || (k < |s.next| && s.cfg.workers > 0 && FirstChoice(s, k) == k)
  }

  ghost predicate NoneHarmful(s: State) {
    forall k :: 0 <= k < |s.calls| ==> !Harmful(s, k)
  }

  /** Storing 1 in shutdown_flag; `quiet` records whether the first store found no
      submit in its window, and `safe` whether it found no harmful one. */
  ghost function RaiseFlag(s: State): State {
    s.(shut := if s.shut.flag then s.shut else Shut(true, NoneInWindow(s), NoneHarmful(s)))
  }

  ghost function StepCancel(s: State, k: nat): State
    requires Shape(s) && k < |s.calls|
  {
    match s.calls[k]
    case CancelFlag => RaiseFlag(SetCall(s, k, CancelDrain(Global, [])))
    case CancelDrain(from, batch) =>
      var f := QueueAt(s, from);
      if |batch| < BATCH && !f.Empty() then
        SetQueue(SetCall(s, k, CancelDrain(from, batch + [f.pushed[f.popped]])), from, f.Pop())
      else if from == Global && batch == [] then
        SetCall(s, k, CancelDrain(Local(0), []))
      else
        SetCall(s, k, CancelDestroy(from, batch))
    case CancelDestroy(from, batch) =>
      if batch != [] then SetCall(s, k, CancelTally(from, batch[1..])).(
        log := s.log.(dropped := s.log.dropped + [batch[0]]))
      else if from == Global then SetCall(s, k, CancelDrain(Global, []))
      else if from.w + 1 < |s.locals| then SetCall(s, k, CancelDrain(Local(from.w + 1), []))
      else SetCall(s, k, CancelDone)
    case CancelTally(from, batch) => SetCall(s, k, CancelDestroy(from, batch)).(
        count := s.count.(canceled := s.count.canceled + 1))
    case _ => SetCall(s, k, NoCall)
  }

  ghost function StepShut(s: State, k: nat): State
    requires k < |s.calls|
  {
    match s.calls[k]
    case ShutFlag => RaiseFlag(SetCall(s, k, ShutJoin(0)))
    case ShutJoin(i) => SetCall(s, k, if i < |s.workers| then ShutJoin(i + 1) else ShutDone)
    case _ => SetCall(s, k, NoCall)
  }

  // ---- runs ----

  ghost predicate Legal(s: State, acts: seq<Action>)
    decreases |acts|
  {
    Shape(s) && (acts != [] ==> Enabled(s, acts[0]) && Legal(Apply(s, acts[0]), acts[1..]))
  }

  ghost function Run(s: State, acts: seq<Action>): (s': State)
    requires Legal(s, acts)
    ensures Shape(s')
    decreases |acts|
  {
    if acts == [] then s else Run(Apply(s, acts[0]), acts[1..])
  }

  /** A scheduler just created: all queues empty, all workers before their first
      round, `clients` more threads about to use it. */
  function Initial(cfg: Config, localRoom: nat, globalRoom: nat, clients: nat): State {
    State(cfg, Fifo([], 0, globalRoom), seq(cfg.workers, _ => Fifo([], 0, localRoom)), Shut(false, false, false),
          Counters(0, 0, 0, 0, 0),
          seq(cfg.workers, _ => Worker(Top, None)), seq(cfg.workers + clients, _ => NoCall),
          seq(cfg.workers + clients, _ => 0),
          History({}, {}, {}, [], [], [], []))
  }
}
