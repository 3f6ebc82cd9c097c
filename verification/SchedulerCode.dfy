/** The functions of src/scheduler/scheduler.c as code over the fields of
    fq_scheduler_t, running among other threads: before each of its atomic actions a
    function lets the others take any number of theirs. Every atomic action is one of
    SchedulerModel, so that what is proved of runs holds of this code. */
module SchedulerCode {
  import opened Common
  import opened Bits
  import opened SchedulerModel
  import opened SchedulerShape
  import opened SchedulerIdle
  import opened SchedulerShutdown
  import opened SchedulerSafe
  import opened SchedulerRuns

  // ---- what other threads may do ----

  /** Is `a` an action of thread `k`? */
  predicate OwnAction(a: Action, k: nat) {
    match a
    case WStep(w) => w == k
    case WContend(w) => w == k
    case Begin(j, _) => j == k
    case CStep(j) => j == k
  }

  ghost predicate ByOthers(acts: seq<Action>, k: nat) {
    forall i :: 0 <= i < |acts| ==> !OwnAction(acts[i], k)
  }

  /** What thread `k` can rely on across the actions of others. */
  ghost predicate Untouched(s: State, s': State, k: nat) {
    && k < |s.calls| == |s'.calls| && s'.calls[k] == s.calls[k]
    && |s'.next| == |s'.calls| && |s.next| == |s.calls| && s'.next[k] == s.next[k]
    && |s'.workers| == |s.workers| && (k < |s.workers| ==> s'.workers[k] == s.workers[k])
  }

  /** What holds of any later state. */
  ghost predicate Later(s: State, s': State) {
    && s'.cfg == s.cfg && |s'.calls| == |s.calls| && |s'.workers| == |s.workers|
    && (s.shut.flag ==> s'.shut.flag) && s.count.canceled <= s'.count.canceled
    && LogGrows(s.log, s'.log)
  }

  lemma LaterStep(s: State, a: Action)
    requires Known(s) && Enabled(s, a)
    ensures Later(s, Apply(s, a))
  {
    HistoryGrows(s, a);
    SameThreads(s, a);
    WindowKept(s, a);
    SameConfig(s, a);
    CanceledGrows(s, a);
  }

  lemma CanceledGrows(s: State, a: Action)
    requires Shape(s) && Enabled(s, a)
    ensures s.count.canceled <= Apply(s, a).count.canceled
  {
    match a
    case WStep(w) =>
      if s.workers[w].pc.Probe? {
        ProbeEffect(s, w, true);
      } else if !Holding(s.workers[w].pc) {
        RoundEffect(s, w);
      }
    case WContend(w) => ProbeEffect(s, w, false);
    case Begin(_, _) =>
    case CStep(k) =>
      if s.calls[k].SubPush? || s.calls[k].SubSpill? {
        var q := AttemptEffect(s, k);
      } else if InCancel(s.calls[k]) {
        assert CallShape(s, k, s.calls[k]);
      }
  }

  lemma LaterSelf(s: State)
    ensures Later(s, s)
  {
  }

  lemma LaterTrans(s: State, s': State, s'': State)
    requires Later(s, s') && Later(s', s'')
    ensures Later(s, s'')
  {
  }

  lemma UntouchedStep(s: State, a: Action, k: nat)
    requires Known(s) && Enabled(s, a) && k < |s.calls| && !OwnAction(a, k)
    ensures Untouched(s, Apply(s, a), k)
  {
    CallsAfter(s, a, k);
    SameThreads(s, a);
    ShapeKept(s, a);
    SameHome(s, a, k);
    if k < |s.workers| {
      SameWorker(s, a, k);
    }
  }

  lemma {:induction false} LaterRun(s: State, acts: seq<Action>)
    requires Known(s) && Legal(s, acts)
    ensures Known(Run(s, acts)) && Later(s, Run(s, acts))
    decreases |acts|
  {
    if acts != [] {
      var s1 := Apply(s, acts[0]);
      KnownKept(s, acts[0]);
      LaterStep(s, acts[0]);
      LaterRun(s1, acts[1..]);
      LaterTrans(s, s1, Run(s1, acts[1..]));
    }
  }

  lemma {:induction false} UntouchedRun(s: State, acts: seq<Action>, k: nat)
    requires Known(s) && Legal(s, acts) && k < |s.calls| && ByOthers(acts, k)
    ensures Untouched(s, Run(s, acts), k)
    decreases |acts|
  {
    if acts != [] {
      KnownKept(s, acts[0]);
      assert !OwnAction(acts[0], k);
      UntouchedStep(s, acts[0], k);
      UntouchedRun(Apply(s, acts[0]), acts[1..], k);
    } else {
      assert Shape(s);
    }
  }

  // ---- moments of a run ----

  /** A state of the machine and the actions that had led to it. */
  datatype Moment = Moment(s: State, past: seq<Action>)

  ghost predicate Precedes(m: Moment, m': Moment) {
    Later(m.s, m'.s) && m.past <= m'.past
  }

  lemma PrecedesTrans(m: Moment, m': Moment, m'': Moment)
    requires Precedes(m, m') && Precedes(m', m'')
    ensures Precedes(m, m'')
  {
    LaterTrans(m.s, m'.s, m''.s);
  }

  /** In the run from `start` the action `a` was taken at the moment `m`, not before
      `from` and before `to`. */
  ghost predicate Acted(start: State, from: Moment, m: Moment, a: Action, to: Moment) {
    Leads(start, m.past, m.s) && from.past <= m.past && m.past + [a] <= to.past
  }

  lemma ActedWider(start: State, from: Moment, m: Moment, a: Action, to: Moment, from': Moment, to': Moment)
    requires Acted(start, from, m, a, to) && from'.past <= from.past && to.past <= to'.past
    ensures Acted(start, from', m, a, to')
  {
  }

  ghost predicate AllDone(s: State, tasks: set<Task>) {
    forall t :: t in tasks ==> Done(s, t)
  }

  /** What the history says once a submit has its answer. */
  ghost predicate Answered(s: State, c: Call) {
    c.SubDone? ==>
      match c.st
      case OK => c.task in s.log.accepted
      case Overflow => c.task in s.log.overflowed
      case Closed => c.task in s.log.refused && s.shut.flag
      case _ => false
  }

  /** Thread `k`'s is_idle is about to answer `idle`. */
  ghost predicate Answers(s: State, k: nat, idle: bool) {
    k < |s.calls| && s.calls[k].IdleDone? && s.calls[k].idle == idle
  }

  lemma SnapCovers(s: State, k: nat, snap: set<Task>, early: set<Task>)
    requires Known(s) && k < |s.calls| && s.calls[k] == IdleDone(true, snap) && early <= snap
    ensures AllDone(s, early)
  {
    assert SnapSound(s, s.calls[k]);
  }

  lemma StaysAnswered(s: State, s': State, c: Call)
    requires Later(s, s') && Answered(s, c)
    ensures Answered(s', c)
  {
  }

  /** Thread `k` found queue `q` full at the moment `m`. */
  ghost predicate FoundFull(start: State, from: Moment, m: Moment, k: nat, q: Target, to: Moment) {
    Acted(start, from, m, CStep(k), to) && Has(m.s, q) && QueueAt(m.s, q).Full()
  }

  /** The worker whose queue thread `k` tries next. */
  function Turn(s: State, k: nat): Target
    requires k < |s.next| && s.cfg.workers > 0
  {
    Local(s.next[k] % s.cfg.workers)
  }

  /** Why a submit of `t` had no room: the global queue was full and, unless the task is
      urgent, so was that of the worker whose turn it was. */
  ghost predicate TurnedAway(start: State, from: Moment, k: nat, t: Task, local: Moment, global: Moment, to: Moment) {
    && FoundFull(start, from, global, k, Global, to)
    && (!Urgent(global.s, t) ==>
         && k < |local.s.next| && local.s.cfg.workers > 0
         && FoundFull(start, from, local, k, Turn(local.s, k), to) && local.past < global.past)
  }

  lemma TurnedAwayWider(start: State, from: Moment, k: nat, t: Task, local: Moment, global: Moment, to: Moment,
                        to': Moment)
    requires TurnedAway(start, from, k, t, local, global, to) && to.past <= to'.past
    ensures TurnedAway(start, from, k, t, local, global, to')
  {
  }

  /** A load of is_idle by thread `k` at the moment `m` that found a counter not zero. */
  ghost predicate Worked(start: State, from: Moment, m: Moment, k: nat, to: Moment) {
    && Acted(start, from, m, CStep(k), to)
    && k < |m.s.calls| && InIdle(m.s.calls[k]) && Occupied(m.s)
  }

  lemma WorkedWider(start: State, from: Moment, m: Moment, k: nat, to: Moment, from': Moment, to': Moment)
    requires Worked(start, from, m, k, to) && from'.past <= from.past && to.past <= to'.past
    ensures Worked(start, from', m, k, to')
  {
    ActedWider(start, from, m, CStep(k), to, from', to');
  }

  /** Such loads one after the other. */
  ghost predicate WorkedInTurn(start: State, from: Moment, busy: seq<Moment>, k: nat, to: Moment) {
    && (forall i :: 0 <= i < |busy| ==> Worked(start, from, busy[i], k, to))
    && (forall i :: 0 <= i < |busy| - 1 ==> busy[i].past < busy[i + 1].past)
  }

  lemma TurnsWider(start: State, from: Moment, busy: seq<Moment>, k: nat, to: Moment, to': Moment)
    requires WorkedInTurn(start, from, busy, k, to) && to.past <= to'.past
    ensures WorkedInTurn(start, from, busy, k, to')
  {
    forall i | 0 <= i < |busy| ensures Worked(start, from, busy[i], k, to') {
      WorkedWider(start, from, busy[i], k, to, from, to');
    }
  }

  lemma TurnsEarlier(start: State, from: Moment, busy: seq<Moment>, k: nat, to: Moment, from': Moment)
    requires WorkedInTurn(start, from, busy, k, to) && from'.past <= from.past
    ensures WorkedInTurn(start, from', busy, k, to)
  {
    forall i | 0 <= i < |busy| ensures Worked(start, from', busy[i], k, to) {
      WorkedWider(start, from, busy[i], k, to, from', to);
    }
  }

  lemma TurnsNext(start: State, from: Moment, was: seq<Moment>, k: nat, mid: Moment, m: Moment, to: Moment)
    requires WorkedInTurn(start, from, was, k, mid) && Worked(start, mid, m, k, to)
    requires from.past <= mid.past <= to.past
    ensures WorkedInTurn(start, from, was + [m], k, to)
  {
    TurnsWider(start, from, was, k, mid, to);
    WorkedWider(start, mid, m, k, to, from, to);
    if was != [] {
      assert Worked(start, from, was[|was| - 1], k, mid);
    }
  }

  /** The two push attempts of a submit. */
  lemma GlobalPush(s: State, k: nat, t: Task)
    requires Shape(s) && k < |s.calls| && (s.calls[k] == SubSpill(t) || (s.calls[k] == SubPush(t) && Urgent(s, t)))
    ensures Enabled(s, CStep(k)) && Apply(s, CStep(k)) == PushOr(s, k, t, Global, SubUndo(t))
  {
  }

  lemma LocalPush(s: State, k: nat, t: Task)
    requires Shape(s) && k < |s.calls| && s.calls[k] == SubPush(t) && !Urgent(s, t)
    ensures k < |s.next| && s.cfg.workers > 0 && FirstChoice(s, k) < |s.locals| && Enabled(s, CStep(k))
    ensures Apply(s, CStep(k))
         == PushOr(s.(next := s.next[k := Bump(s.next[k])]), k, t, Local(FirstChoice(s, k)), SubSpill(t))
  {
  }

  /** What that push changes, field by field. */
  ghost predicate Chosen(s: State, k: nat, t: Task, s': State)
    requires k < |s.calls| && k < |s.next| && s.cfg.workers > 0 && FirstChoice(s, k) < |s.locals|
  {
    var j := FirstChoice(s, k);
    && s'.cfg == s.cfg && s'.global == s.global && s'.shut == s.shut && s'.count == s.count
    && s'.workers == s.workers && s'.next == s.next[k := Bump(s.next[k])]
    && s'.log.unraised == s.log.unraised
    && s'.log.offered + s'.log.accepted <= s.log.offered + s.log.accepted + {t}
    && if s.locals[j].Full() then s'.locals == s.locals && s'.calls == s.calls[k := SubSpill(t)]
       else && s'.locals == s.locals[j := s.locals[j].Push(t)] && s'.calls == s.calls[k := SubDone(t, OK)]
            && t in s'.log.accepted
  }

  lemma LocalMirrors(s: State, k: nat, t: Task)
    requires k < |s.calls| && k < |s.next| && s.cfg.workers > 0 && FirstChoice(s, k) < |s.locals|
    ensures var j := FirstChoice(s, k);
            Chosen(s, k, t, PushOr(s.(next := s.next[k := Bump(s.next[k])]), k, t, Local(j), SubSpill(t)))
  {
  }

  /** No task handle from `n` on has been given to the scheduler. */
  ghost predicate HandlesBelow(s: State, n: nat) {
    forall t :: t in s.log.unraised + s.log.offered + s.log.accepted ==> t.id < n
  }

  /** The workers numbered in `ended` have stopped. */
  ghost predicate HaveStopped(workers: seq<Worker>, ended: set<nat>) {
    forall i :: i in ended ==> i < |workers| && workers[i].pc == Stopped
  }

  class Scheduler {
    /** worker_count, enable_work_stealing and enable_priority. */
    const cfg: Config
    var global: Fifo
    var locals: seq<Fifo>
    var shutdown: bool
    var count: Counters
    /** The thread-local worker counters of submit, one per thread. */
    var next: seq<nat>
    /** The number of task handles allocated. */
    var handles: nat
    /** The workers whose threads have ended, which a join waits for. */
    var ended: set<nat>

    /** The machine this code runs: its first state, the actions so far and where they
        have led. */
    ghost const start: State
    ghost var trace: seq<Action>
    ghost var s: State

    /** The fields are those of the machine's state. */
    ghost predicate Mirror()
      reads this
    {
      && s.cfg == cfg && s.global == global && s.locals == locals
      && s.shut.flag == shutdown && s.count == count && s.next == next
      && HandlesBelow(s, handles) && HaveStopped(s.workers, ended)
    }

    ghost predicate OnTrace()
      reads this
    {
      Leads(start, trace, s)
    }

    ghost function Now(): Moment
      reads this`s, this`trace
    {
      Moment(s, trace)
    }

    /** What has happened since the moment `m`. */
    ghost predicate Since(m: Moment)
      reads this`s, this`trace
    {
      Precedes(m, Now())
    }

    ghost predicate Valid()
      reads this
    {
      Mirror() && OnTrace() && Known(start)
    }

    /** fq_scheduler_create, its queues made and its workers started. */
    constructor (cfg: Config, localRoom: nat, globalRoom: nat, clients: nat)
      requires cfg.workers > 0
      ensures Valid() && trace == [] && s == start == Initial(cfg, localRoom, globalRoom, clients)
      ensures this.cfg == cfg
    {
      this.cfg := cfg;
      global := Fifo([], 0, globalRoom);
      locals := seq(cfg.workers, _ => Fifo([], 0, localRoom));
      shutdown := false;
      count := Counters(0, 0, 0, 0, 0);
      next := seq(cfg.workers + clients, _ => 0);
      handles := 0;
      ended := {};
      start := Initial(cfg, localRoom, globalRoom, clients);
      s := Initial(cfg, localRoom, globalRoom, clients);
      trace := [];
      new;
      InitialKnown(cfg, localRoom, globalRoom, clients);
    }

    // ---- time passing ----

    /** The other threads take any number of actions. The contract is all that a
        caller knows; no action at all is one way to meet it. */
    method Others(k: nat) returns (ghost acts: seq<Action>)
      requires Valid()
      modifies this
      ensures Mirror() && handles >= old(handles) && old(ended) <= ended
      ensures Leads(old(s), acts, s) && ByOthers(acts, k)
      ensures trace == old(trace) + acts
    {
      acts := [];
    }

    /** Thread `k` is in its call at `c`, a call it made at the moment `s0`. */
    ghost predicate At(k: nat, c: Call, s0: Moment)
      reads this
    {
      && Valid() && k < |s.calls| && s.calls[k] == c
      && (k < |s.workers| ==> s.workers[k].pc.Running?)
      && Since(s0) && Answered(s, c) && (InSubmit(c) ==> c.task.id < handles)
    }

    /** Thread `k` is in no call; a worker calls from inside its callback. */
    ghost predicate Free(k: nat, s0: Moment)
      reads this
    {
      At(k, NoCall, s0)
    }

    method Yield(k: nat, ghost c: Call, ghost s0: Moment)
      requires At(k, c, s0)
      modifies this
      ensures At(k, c, s0) && handles >= old(handles) && old(trace) <= trace
    {
      KnownOverRun(start, trace);
      ghost var acts := Others(k);
      Append(start, old(trace), old(s), acts, s);
      LaterRun(old(s), acts);
      UntouchedRun(old(s), acts, k);
      PrecedesTrans(s0, old(Now()), Now());
      StaysAnswered(old(s), s, c);
    }

    lemma Reached()
      requires Valid()
      ensures Known(s)
    {
      KnownOverRun(start, trace);
    }

    /** The machine has popped the head of `q`; the queue itself still holds it. */
    ghost predicate Ahead(q: Target)
      reads this
    {
      && (q.Local? ==> q.w < |locals|)
      && OnTrace() && Known(start) && HandlesBelow(s, handles)
      && HaveStopped(s.workers, ended)
      && s.cfg == cfg && s.shut.flag == shutdown && s.count == count && s.next == next
      && var f := if q.Global? then global else locals[q.w];
      && f.popped < |f.pushed|
      && s.global == (if q.Global? then global.Pop() else global)
      && s.locals == (if q.Global? then locals else locals[q.w := locals[q.w].Pop()])
    }

    /** Taking the oldest task off a queue. */
    method PopHead(q: Target) returns (t: Task)
      requires Ahead(q)
      modifies this`global, this`locals
      ensures Valid()
      ensures var f := if q.Global? then old(global) else old(locals)[q.w]; t == f.pushed[f.popped]
    {
      var f := if q.Global? then global else locals[q.w];
      t := f.pushed[f.popped];
      if q.Global? {
        global := f.Pop();
      } else {
        locals := locals[q.w := f.Pop()];
      }
    }

    /** The machine takes thread `k`'s action; the code's fields are to follow. */
    ghost method Do(k: nat, a: Action, s0: Moment)
      requires OnTrace() && Known(start) && Enabled(s, a) && Since(s0)
      modifies this`s, this`trace
      ensures OnTrace() && s == Apply(old(s), a) && trace == old(trace) + [a] && Since(s0)
    {
      KnownOverRun(start, trace);
      Then(start, trace, s, a);
      KnownKept(s, a);
      LaterStep(s, a);
      PrecedesTrans(s0, Now(), Moment(Apply(s, a), trace + [a]));
      trace := trace + [a];
      s := Apply(s, a);
    }

    /** The same when it is known where the action leads. */
    ghost method DoTo(k: nat, a: Action, s': State, s0: Moment)
      requires OnTrace() && Known(start) && Since(s0) && Enabled(s, a) && Apply(s, a) == s'
      modifies this`s, this`trace
      ensures OnTrace() && s == s' && trace == old(trace) + [a] && Since(s0)
    {
      Do(k, a, s0);
    }

    // ---- fq_scheduler_submit ----

    method Enter(k: nat, ghost c: Call, ghost s0: Moment)
      requires Free(k, s0)
      requires c.IdlePending1? || c.CancelFlag? || c.ShutFlag? || (c.SubFlag? && Entry(s, c) && c.task.id < handles)
      modifies this`s, this`trace
      ensures At(k, c, s0)
    {
      Do(k, Begin(k, c), s0);
    }

    method CheckFlag(k: nat, t: Task, ghost s0: Moment) returns (closed: bool)
      requires At(k, SubFlag(t), s0)
      modifies this`s, this`trace
      ensures At(k, if closed then SubDone(t, Closed) else SubCount(t), s0)
      ensures s0.s.shut.flag ==> closed
    {
      closed := shutdown;
      Do(k, CStep(k), s0);
    }

    method CountSubmitted(k: nat, t: Task, ghost s0: Moment)
      requires At(k, SubCount(t), s0)
      modifies this`count, this`s, this`trace
      ensures At(k, SubRaise(t), s0)
    {
      Do(k, CStep(k), s0);
      count := count.(submitted := count.submitted + 1);
    }

    method RaisePending(k: nat, t: Task, ghost s0: Moment)
      requires At(k, SubRaise(t), s0)
      modifies this`count, this`s, this`trace
      ensures At(k, SubPush(t), s0)
    {
      Do(k, CStep(k), s0);
      count := count.(pending := count.pending + 1);
    }

    method LowerPending(k: nat, t: Task, ghost s0: Moment)
      requires At(k, SubUndo(t), s0)
      modifies this`count, this`s, this`trace
      ensures At(k, SubDone(t, Overflow), s0) && old(trace) <= trace
    {
      Do(k, CStep(k), s0);
      count := count.(pending := count.pending - 1);
    }

    /** The push on the global queue. */
    method PushGlobal(k: nat, t: Task, ghost spill: bool, ghost s0: Moment) returns (st: Status)
      requires At(k, if spill then SubSpill(t) else SubPush(t), s0)
      requires !spill ==> cfg.priority && t.priority >= PRIORITY_HIGH
      modifies this`global, this`s, this`trace
      ensures At(k, if st == OK then SubDone(t, OK) else SubUndo(t), s0)
      ensures st == if old(global).Full() then Overflow else OK
      ensures global == if st == OK then old(global).Push(t) else old(global)
      ensures st == Overflow ==> FoundFull(start, s0, old(Now()), k, Global, Now())
    {
      GlobalPush(s, k, t);
      DoTo(k, CStep(k), PushOr(s, k, t, Global, SubUndo(t)), s0);
      if global.Full() {
        st := Overflow;
      } else {
        global := global.Push(t);
        st := OK;
      }
    }

    ghost method LocalStep(k: nat, t: Task, s0: Moment)
      requires At(k, SubPush(t), s0) && !(cfg.priority && t.priority >= PRIORITY_HIGH)
      modifies this`s, this`trace
      ensures OnTrace() && Known(start) && Since(s0) && trace == old(trace) + [CStep(k)]
      ensures k < |next| && cfg.workers > 0 && FirstChoice(old(s), k) < |locals| && Chosen(old(s), k, t, s)
    {
      LocalPush(s, k, t);
      LocalMirrors(s, k, t);
      var next' := s.next[k := Bump(s.next[k])];
      DoTo(k, CStep(k), PushOr(s.(next := next'), k, t, Local(FirstChoice(s, k)), SubSpill(t)), s0);
    }

    /** The push on the queue of the worker whose turn it is by the thread's counter. */
    method PushLocal(k: nat, t: Task, ghost s0: Moment) returns (st: Status)
      requires At(k, SubPush(t), s0) && !(cfg.priority && t.priority >= PRIORITY_HIGH)
      modifies this`locals, this`next, this`s, this`trace
      ensures At(k, if st == OK then SubDone(t, OK) else SubSpill(t), s0)
      ensures cfg.workers > 0 && k < |old(next)| && next == old(next)[k := (old(next)[k] + 1) % WORD32]
      ensures var j := old(next)[k] % cfg.workers;
              && j < |old(locals)| && st == (if old(locals)[j].Full() then Overflow else OK)
              && locals == if st == OK then old(locals)[j := old(locals)[j].Push(t)] else old(locals)
      ensures trace == old(trace) + [CStep(k)]
    {
      var idx := Rem(next[k], cfg.workers);
      RemIsMod(next[k], cfg.workers);
      st := PushAt(k, t, idx, s0);
    }

    method PushAt(k: nat, t: Task, idx: nat, ghost s0: Moment) returns (st: Status)
      requires At(k, SubPush(t), s0) && !(cfg.priority && t.priority >= PRIORITY_HIGH)
      requires k < |next| && cfg.workers > 0 && idx == FirstChoice(s, k)
      modifies this`locals, this`next, this`s, this`trace
      ensures At(k, if st == OK then SubDone(t, OK) else SubSpill(t), s0)
      ensures next == old(next)[k := Bump(old(next)[k])]
      ensures idx < |old(locals)| && st == (if old(locals)[idx].Full() then Overflow else OK)
      ensures locals == if st == OK then old(locals)[idx := old(locals)[idx].Push(t)] else old(locals)
      ensures trace == old(trace) + [CStep(k)]
    {
      LocalStep(k, t, s0);
      next := next[k := Bump(next[k])];
      if locals[idx].Full() {
        st := Overflow;
      } else {
        locals := locals[idx := locals[idx].Push(t)];
        st := OK;
      }
    }

    /** Returning from a call that is done. */
    method Leave(k: nat, ghost c: Call, ghost s0: Moment)
      requires At(k, c, s0) && (c.SubDone? || c.IdleDone? || c.CancelDone? || c.ShutDone?)
      modifies this`s, this`trace
      ensures Free(k, s0) && s.log == old(s.log) && trace == old(trace) + [CStep(k)]
    {
      Do(k, CStep(k), s0);
    }

    /** fq_scheduler_submit among other threads: FQ_OK means accepted, and then the task
        is in exactly one place for good; any other answer means that it never is in any.
        FQ_ERR_CLOSED is certain once the flag is up, and FQ_ERR_OVERFLOW means that the
        queues tried were full at the moments `local` and `global`. */
    method Submit(k: nat, task: Option<Task>) returns (st: Status, ghost local: Moment, ghost global: Moment)
      requires Free(k, Now())
      requires task.Some? ==> Entry(s, SubFlag(task.value)) && task.value.id < handles
      modifies this
      ensures Free(k, old(Now())) && handles >= old(handles)
      ensures task.None? ==> st == Inval && s == old(s)
      ensures task.Some? ==> st != Inval && Answered(s, SubDone(task.value, st))
      ensures task.Some? && old(shutdown) ==> st == Closed
      ensures st == Overflow ==> TurnedAway(start, old(Now()), k, task.value, local, global, Now())
    {
      local, global := Now(), Now();
      if task.None? { return Inval, local, global; }
      ghost var s0 := Now();
      Enter(k, SubFlag(task.value), s0);
      st, local, global := SubmitTask(k, task.value, s0);
    }

    method SubmitTask(k: nat, t: Task, ghost s0: Moment)
        returns (st: Status, ghost local: Moment, ghost global: Moment)
      requires At(k, SubFlag(t), s0)
      modifies this
      ensures Free(k, s0) && handles >= old(handles) && st != Inval && Answered(s, SubDone(t, st))
      ensures s0.s.shut.flag ==> st == Closed
      ensures st == Overflow ==> TurnedAway(start, s0, k, t, local, global, Now())
    {
      st, local, global := CheckAndPush(k, t, s0);
      ghost var s1 := Now();
      Yield(k, SubDone(t, st), s0);
      Leave(k, SubDone(t, st), s0);
      if st == Overflow { TurnedAwayWider(start, s0, k, t, local, global, s1, Now()); }
    }

    method CheckAndPush(k: nat, t: Task, ghost s0: Moment)
        returns (st: Status, ghost local: Moment, ghost global: Moment)
      requires At(k, SubFlag(t), s0)
      modifies this
      ensures At(k, SubDone(t, st), s0) && handles >= old(handles)
      ensures st == Closed || st == OK || st == Overflow
      ensures s0.s.shut.flag ==> st == Closed
      ensures st == Overflow ==> TurnedAway(start, s0, k, t, local, global, Now())
    {
      Yield(k, SubFlag(t), s0);
      var closed := CheckFlag(k, t, s0);
      local, global := Now(), Now();
      if closed { return Closed, local, global; }
      Yield(k, SubCount(t), s0);
      st, local, global := CountAndPush(k, t, s0);
    }

    method CountAndPush(k: nat, t: Task, ghost s0: Moment)
        returns (st: Status, ghost local: Moment, ghost global: Moment)
      requires At(k, SubCount(t), s0)
      modifies this
      ensures At(k, SubDone(t, st), s0) && handles >= old(handles)
      ensures st == OK || st == Overflow
      ensures st == Overflow ==> TurnedAway(start, s0, k, t, local, global, Now())
    {
      CountUp(k, t, s0);
      Yield(k, SubPush(t), s0);
      st, local, global := PushSomewhere(k, t, s0);
      if st != OK { CountDown(k, t, local, global, s0); }
    }

    method CountUp(k: nat, t: Task, ghost s0: Moment)
      requires At(k, SubCount(t), s0)
      modifies this
      ensures At(k, SubPush(t), s0) && handles >= old(handles)
    {
      CountSubmitted(k, t, s0);
      Yield(k, SubRaise(t), s0);
      RaisePending(k, t, s0);
    }

    method CountDown(k: nat, t: Task, ghost local: Moment, ghost global: Moment, ghost s0: Moment)
      requires At(k, SubUndo(t), s0) && TurnedAway(start, s0, k, t, local, global, Now())
      modifies this
      ensures At(k, SubDone(t, Overflow), s0) && handles >= old(handles)
      ensures TurnedAway(start, s0, k, t, local, global, Now())
    {
      ghost var s1 := Now();
      Yield(k, SubUndo(t), s0);
      LowerPending(k, t, s0);
      TurnedAwayWider(start, s0, k, t, local, global, s1, Now());
    }

    method PushSomewhere(k: nat, t: Task, ghost s0: Moment)
        returns (st: Status, ghost local: Moment, ghost global: Moment)
      requires At(k, SubPush(t), s0)
      modifies this
      ensures At(k, if st == OK then SubDone(t, OK) else SubUndo(t), s0) && handles >= old(handles)
      ensures st == OK || st == Overflow
      ensures st == Overflow ==> TurnedAway(start, s0, k, t, local, global, Now())
    {
      local, global := Now(), Now();
      if cfg.priority && t.priority >= PRIORITY_HIGH {
        st := PushGlobal(k, t, false, s0);
      } else {
        st := PushLocal(k, t, s0);
        if st != OK {
          st, global := Spill(k, t, local, s0);
        }
      }
    }

    /** The second try, after the worker's queue was found full at the moment `local`. */
    method Spill(k: nat, t: Task, ghost local: Moment, ghost s0: Moment) returns (st: Status, ghost global: Moment)
      requires At(k, SubSpill(t), s0)
      requires k < |local.s.next| && local.s.cfg.workers > 0
      requires FoundFull(start, s0, local, k, Turn(local.s, k), Now())
      modifies this
      ensures At(k, if st == OK then SubDone(t, OK) else SubUndo(t), s0) && handles >= old(handles)
      ensures st == OK || st == Overflow
      ensures st == Overflow ==> TurnedAway(start, s0, k, t, local, global, Now())
    {
      Yield(k, SubSpill(t), s0);
      global := Now();
      st := PushGlobal(k, t, true, s0);
    }

    /** fq_task_create: a handle nobody else has, at normal priority. */
    method NewTask(k: nat, ghost s0: Moment) returns (t: Task)
      requires Free(k, s0)
      modifies this`handles
      ensures Free(k, s0) && handles >= old(handles)
      ensures Entry(s, SubFlag(t)) && t.id < handles
    {
      t := Task(handles, PRIORITY_NORMAL);
      handles := handles + 1;
    }

    // ---- fq_scheduler_is_idle and fq_scheduler_wait_idle ----

    method ReadPending(k: nat, ghost s0: Moment) returns (pending: int)
      requires At(k, IdlePending1, s0)
      modifies this`s, this`trace
      ensures At(k, IdleActive1(pending), s0)
      ensures pending != 0 ==> Worked(start, s0, old(Now()), k, Now())
    {
      pending := count.pending;
      Do(k, CStep(k), s0);
    }

    /** The second read; `snap` are the tasks raised so far. */
    method ReadPendingAgain(k: nat, ghost s0: Moment) returns (pending: int, ghost snap: set<Task>)
      requires At(k, IdlePending2, s0)
      modifies this`s, this`trace
      ensures At(k, IdleActive2(pending, snap), s0) && RaisedTasks(s0.s) <= snap
      ensures pending != 0 ==> Worked(start, s0, old(Now()), k, Now())
    {
      pending, snap := count.pending, RaisedTasks(s);
      Do(k, CStep(k), s0);
    }

    method ReadActive(k: nat, ghost c: Call, ghost s0: Moment) returns (active: int)
      requires At(k, c, s0) && (c.IdleActive1? || c.IdleActive2?)
      modifies this`s, this`trace
      ensures old(trace) <= trace
      ensures c.IdleActive1? ==> At(k, if c.p != 0 || active != 0 then IdleDone(false, {}) else IdlePending2, s0)
      ensures c.IdleActive2? ==> At(k, IdleDone(c.p == 0 && active == 0, c.snap), s0)
      ensures active != 0 ==> Worked(start, s0, old(Now()), k, Now())
    {
      active := count.active;
      Do(k, CStep(k), s0);
    }

    /** fq_scheduler_is_idle among other threads: the answer is the machine's, given at
        the moment `at`. After a true one every task whose tasks_pending increment came
        before the call has been rejected for lack of room or has been executed to the
        end; a false one was given because at the moment `busy` the call loaded a counter
        that was not zero. */
    method IsIdle(k: nat) returns (idle: bool, ghost at: Moment, ghost busy: Moment)
      requires Free(k, Now())
      modifies this
      ensures Free(k, old(Now())) && handles >= old(handles)
      ensures Acted(start, old(Now()), at, CStep(k), Now()) && Answers(at.s, k, idle)
      ensures idle ==> AllDone(s, RaisedTasks(old(s)))
      ensures !idle ==> Worked(start, old(Now()), busy, k, Now())
    {
      ghost var s0 := Now();
      Enter(k, IdlePending1, s0);
      Yield(k, IdlePending1, s0);
      var first;
      first, busy := FirstPass(k, s0);
      if first {
        idle, at, busy := SecondPass(k, s0);
      } else {
        at := AnswerFalse(k, busy, s0);
        idle := false;
      }
    }

    method AnswerFalse(k: nat, ghost busy: Moment, ghost s0: Moment) returns (ghost at: Moment)
      requires At(k, IdleDone(false, {}), s0) && Worked(start, s0, busy, k, Now())
      modifies this
      ensures Free(k, s0) && handles >= old(handles)
      ensures Acted(start, s0, at, CStep(k), Now()) && Answers(at.s, k, false)
      ensures Worked(start, s0, busy, k, Now())
    {
      at := Now();
      Leave(k, IdleDone(false, {}), s0);
      WorkedWider(start, s0, busy, k, at, s0, Now());
    }

    /** The first two loads. */
    method FirstPass(k: nat, ghost s0: Moment) returns (zero: bool, ghost busy: Moment)
      requires At(k, IdlePending1, s0)
      modifies this
      ensures At(k, if zero then IdlePending2 else IdleDone(false, {}), s0) && handles >= old(handles)
      ensures !zero ==> Worked(start, s0, busy, k, Now())
    {
      busy := Now();
      var pending := ReadPending(k, s0);
      ghost var s1 := Now();
      Yield(k, IdleActive1(pending), s0);
      ghost var s2 := Now();
      var active := ReadActive(k, IdleActive1(pending), s0);
      zero := pending == 0 && active == 0;
      if pending != 0 {
        WorkedWider(start, s0, busy, k, s1, s0, Now());
      } else {
        busy := s2;
      }
    }

    method SecondPass(k: nat, ghost s0: Moment) returns (idle: bool, ghost at: Moment, ghost busy: Moment)
      requires At(k, IdlePending2, s0)
      modifies this
      ensures Free(k, s0) && handles >= old(handles)
      ensures Acted(start, s0, at, CStep(k), Now()) && Answers(at.s, k, idle)
      ensures idle ==> AllDone(s, RaisedTasks(s0.s))
      ensures !idle ==> Worked(start, s0, busy, k, Now())
    {
      Yield(k, IdlePending2, s0);
      ghost var snap;
      idle, snap, busy := SecondLoads(k, s0);
      ghost var s1 := Now();
      Yield(k, IdleDone(idle, snap), s0);
      if idle {
        Reached();
        SnapCovers(s, k, snap, RaisedTasks(s0.s));
      }
      at := Now();
      Leave(k, IdleDone(idle, snap), s0);
      if !idle { WorkedWider(start, s0, busy, k, s1, s0, Now()); }
    }

    method SecondLoads(k: nat, ghost s0: Moment) returns (idle: bool, ghost snap: set<Task>, ghost busy: Moment)
      requires At(k, IdlePending2, s0)
      modifies this
      ensures At(k, IdleDone(idle, snap), s0) && RaisedTasks(s0.s) <= snap && handles >= old(handles)
      ensures !idle ==> Worked(start, s0, busy, k, Now())
    {
      var pending;
      busy := Now();
      pending, snap := ReadPendingAgain(k, s0);
      ghost var s1 := Now();
      Yield(k, IdleActive2(pending, snap), s0);
      ghost var s2 := Now();
      var active := ReadActive(k, IdleActive2(pending, snap), s0);
      idle := pending == 0 && active == 0;
      if pending != 0 {
        WorkedWider(start, s0, busy, k, s1, s0, Now());
      } else {
        busy := s2;
      }
    }

    /** fq_scheduler_wait_idle, watched for a number of attempts; it returns when an
        attempt answers true, and each attempt that did not loaded a counter that was not
        zero, one after the other. */
    method WaitIdle(k: nat, attempts: nat) returns (returned: bool, ghost busy: seq<Moment>)
      requires Free(k, Now())
      modifies this
      ensures Free(k, old(Now())) && handles >= old(handles)
      ensures returned ==> AllDone(s, RaisedTasks(old(s)))
      ensures !returned ==> |busy| == attempts
      ensures WorkedInTurn(start, old(Now()), busy, k, Now())
    {
      returned, busy := false, [];
      for i := 0 to attempts
        invariant Free(k, old(Now())) && handles >= old(handles)
        invariant |busy| == i && WorkedInTurn(start, old(Now()), busy, k, Now())
      {
        returned, busy := Attempt(k, busy, old(Now()));
        if returned { return; }
      }
    }

    method Attempt(k: nat, ghost was: seq<Moment>, ghost s0: Moment) returns (returned: bool, ghost busy: seq<Moment>)
      requires Free(k, s0) && WorkedInTurn(start, s0, was, k, Now())
      modifies this
      ensures Free(k, s0) && handles >= old(handles)
      ensures returned ==> AllDone(s, RaisedTasks(s0.s))
      ensures WorkedInTurn(start, s0, busy, k, Now()) && |busy| == |was| + Bit(!returned)
    {
      ghost var s1 := Now();
      ghost var at, seen;
      LaterSelf(s);
      returned, at, seen := IsIdle(k);
      PrecedesTrans(s0, s1, Now());
      TurnsWider(start, s0, was, k, s1, Now());
      busy := was;
      if !returned {
        TurnsNext(start, s0, was, k, s1, seen, Now());
        busy := was + [seen];
      }
    }
  }
}
