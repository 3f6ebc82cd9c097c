/** Shutdown terminates: from the first store of the flag on, whatever was in its window
    then, a measure bounds the number of worker steps, whatever the schedule. A round
    that neither exits nor finds a task has seen a queue that was not empty and then
    found it empty, so somebody else took a task in between, or it lost a try_pop to a
    taken lock. */
module SchedulerTermination {
  import opened Common
  import opened Bits
  import opened SchedulerModel
  import opened SchedulerShape
  import opened SchedulerLedger
  import opened SchedulerShutdown
  import opened SchedulerSafe

  // ---- what a round has seen ----

  /** The load now, plus the pops of `f` since it had been popped `h0` times. */
  ghost function Since(s: State, f: Fifo, h0: nat): int {
    Load(s) + f.popped - h0
  }

  /** The load was `n` when worker `w` loaded the raised flag in this round, not counting
      the tries it has lost since. */
  ghost predicate SeenSound(s: State, w: nat, pc: WPc, n: nat)
    requires w < |s.locals|
  {
    match pc
    case ExitGlobalHead => Load(s) <= n
    case ExitGlobalTail(h0) => h0 <= s.global.popped && Since(s, s.global, h0) <= n
    case ExitOwnHead => Load(s) <= n
    case ExitOwnTail(h0) => h0 <= s.locals[w].popped && Since(s, s.locals[w], h0) <= n
    case Probe(i, why) =>
      && why.Saw? && (why.q == Global || why.q == Local(w))
      && why.h0 < |QueueAt(s, why.q).pushed| && why.h0 <= QueueAt(s, why.q).popped
      && Since(s, QueueAt(s, why.q), why.h0) <= n
      && (why.q in Plan(s.cfg, w)[..Min(i, |Plan(s.cfg, w)|)] ==> Load(s) < n)
    case Stopped => true
    case _ => Load(s) < n
  }

  ghost predicate SeenBy(s: State, w: nat) {
    && w < |s.workers| && w < |s.locals|
    && (s.workers[w].seen.Some? ==> SeenSound(s, w, s.workers[w].pc, s.workers[w].seen.value))
  }

  function Min(a: nat, b: nat): nat { if a <= b then a else b }

  ghost predicate SeenWell(s: State) {
    && |s.locals| == |s.workers|
    && (!s.shut.flag ==> forall w :: 0 <= w < |s.workers| ==> s.workers[w].seen == None)
    && (s.shut.flag ==> forall w :: 0 <= w < |s.workers| ==> SeenBy(s, w))
  }

  /** Tickets are only added; the load never grows, and every pop is one less of it. */
  ghost predicate Flows(s: State, s': State) {
    && FifoFlows(s, s.global, s', s'.global)
    && |s'.locals| == |s.locals|
    && (forall i :: 0 <= i < |s.locals| ==> FifoFlows(s, s.locals[i], s', s'.locals[i]))
  }

  ghost predicate FifoFlows(s: State, f: Fifo, s': State, f': Fifo) {
    && |f.pushed| <= |f'.pushed| && f.popped <= f'.popped && f'.room == f.room
    && Load(s') <= Load(s) && Load(s') + f'.popped <= Load(s) + f.popped
  }

  lemma SameQueuesFlow(s: State, s': State)
    requires s'.global == s.global && s'.locals == s.locals
    requires Total(Windowing, s'.calls) <= Total(Windowing, s.calls)
    ensures Flows(s, s') && Queued(s') == Queued(s)
  {
  }

  lemma PopFlows(s: State, s': State, q: Target)
    requires Has(s, q) && !QueueAt(s, q).Empty() && Has(s', q)
    requires s'.global == SetQueue(s, q, QueueAt(s, q).Pop()).global
    requires s'.locals == SetQueue(s, q, QueueAt(s, q).Pop()).locals
    requires Total(Windowing, s'.calls) == Total(Windowing, s.calls)
    ensures Flows(s, s') && Load(s') == Load(s) - 1
  {
    QueuedPop(s, s', q);
  }

  lemma WorkerFlows(s: State, a: Action)
    requires Shape(s) && Enabled(s, a) && (a.WStep? || a.WContend?)
    ensures Flows(s, Apply(s, a))
  {
    var s' := Apply(s, a);
    if s.workers[a.w].pc.Probe? {
      ProbeEffect(s, a.w, a.WStep?);
      if a.WStep? && Has(s, Probed(s, a.w)) && !QueueAt(s, Probed(s, a.w)).Empty() {
        PopFlows(s, s', Probed(s, a.w));
      } else {
        SameQueuesFlow(s, s');
      }
    } else if Holding(s.workers[a.w].pc) {
      TaskEffect(s, a.w);
      SameQueuesFlow(s, s');
    } else {
      RoundEffect(s, a.w);
      SameQueuesFlow(s, s');
    }
  }

  /** A thread moved within its call, and its push is no more likely than before. */
  lemma MovedFlows(s: State, s': State, k: nat)
    requires k < |s.calls| == |s'.calls| && s'.calls == s.calls[k := s'.calls[k]]
    requires s'.global == s.global && s'.locals == s.locals
    requires InWindow(s'.calls[k]) ==> InWindow(s.calls[k])
    ensures Flows(s, s')
  {
    TotalUpdate(Windowing, s.calls, k, s'.calls[k]);
    SameQueuesFlow(s, s');
  }

  /** A push moves its task from its window to the queue. */
  lemma PushFlows(s: State, s': State, k: nat, q: Target, t: Task)
    requires Shape(s) && Pushed(s, s', k, q, t) && InWindow(s.calls[k])
    ensures Flows(s, s') && Load(s') == Load(s)
  {
    TotalUpdate(Windowing, s.calls, k, s'.calls[k]);
    QueuedPush(s, s', k, q, t);
  }

  lemma AttemptFlows(s: State, k: nat)
    requires Shape(s) && Enabled(s, CStep(k)) && (s.calls[k].SubPush? || s.calls[k].SubSpill?)
    ensures Flows(s, Apply(s, CStep(k)))
  {
    var s', t := Apply(s, CStep(k)), s.calls[k].task;
    var q := AttemptEffect(s, k);
    if QueueAt(s, q).Full() {
      MovedFlows(s, s', k);
    } else {
      PushFlows(s, s', k, q, t);
    }
  }

  lemma CancelFlows(s: State, k: nat)
    requires Shape(s) && Enabled(s, CStep(k)) && InCancel(s.calls[k])
    ensures Flows(s, Apply(s, CStep(k)))
  {
    var s', c := Apply(s, CStep(k)), s.calls[k];
    assert CallShape(s, k, c);
    CancelEffect(s, k);
    TotalUpdate(Windowing, s.calls, k, s'.calls[k]);
    if c.CancelDrain? && |c.batch| < BATCH && !QueueAt(s, c.from).Empty() {
      PopFlows(s, s', c.from);
    } else {
      CancelRestEffect(s, k);
      SameQueuesFlow(s, s');
    }
  }

  /** Any other action of a call, once the flag is up. */
  lemma OtherCallFlows(s: State, k: nat)
    requires Shape(s) && s.shut.flag && Enabled(s, CStep(k)) && !InCancel(s.calls[k])
    requires !s.calls[k].SubPush? && !s.calls[k].SubSpill?
    ensures Flows(s, Apply(s, CStep(k)))
  {
    CStepEffect(s, k);
    MovedFlows(s, Apply(s, CStep(k)), k);
  }

  /** Once the flag is up, no new submit gets to its window. */
  lemma FlagFlows(s: State, a: Action)
    requires Shape(s) && s.shut.flag && Enabled(s, a)
    ensures Flows(s, Apply(s, a))
  {
    match a
    case WStep(w) => WorkerFlows(s, a);
    case WContend(w) => WorkerFlows(s, a);
    case Begin(k, c) => MovedFlows(s, Apply(s, a), k);
    case CStep(k) =>
      if InCancel(s.calls[k]) {
        CancelFlows(s, k);
      } else if s.calls[k].SubPush? || s.calls[k].SubSpill? {
        AttemptFlows(s, k);
      } else {
        OtherCallFlows(s, k);
      }
  }

  lemma SeenStays(s: State, s': State, w: nat, pc: WPc, n: nat)
    requires w < |s.locals| && SeenSound(s, w, pc, n) && Flows(s, s') && s'.cfg == s.cfg
    ensures SeenSound(s', w, pc, n)
  {
  }

  // ---- a worker's own steps ----

  lemma LoadNonNegative(s: State)
    ensures Load(s) >= 0
  {
    TotalNonNegative(QueueLength, s.locals);
    TotalNonNegative(Windowing, s.calls);
  }

  lemma RoundSees(s: State, w: nat)
    requires Shape(s) && w < |s.workers| && Resting(s.workers[w].pc) && SeenBy(s, w)
    ensures SeenBy(StepRound(s, w), w)
  {
    SameQueuesFlow(s, StepRound(s, w));
    LoadNonNegative(s);
  }

  lemma ProbeSees(s: State, w: nat, lock: bool)
    requires Shape(s) && w < |s.workers| && s.workers[w].pc.Probe? && SeenBy(s, w)
    ensures SeenBy(StepProbe(s, w, lock), w)
  {
    var s' := StepProbe(s, w, lock);
    ProbeEffect(s, w, lock);
    if lock && Has(s, Probed(s, w)) && !QueueAt(s, Probed(s, w)).Empty() {
      TookSees(s, s', w, Probed(s, w));
    } else {
      SameQueuesFlow(s, s');
      assert WorkerShape(s, w, s.workers[w].pc);
      if s.workers[w].seen.Some? {
        ProbeFails(s, w, lock);
        SeenStays(s, s', w, s'.workers[w].pc, s'.workers[w].seen.value);
      }
    }
  }

  lemma TookSees(s: State, s': State, w: nat, q: Target)
    requires SeenBy(s, w) && s.workers[w].pc.Probe? && Took(s, s', w, q)
    ensures SeenBy(s', w)
  {
    PopFlows(s, s', q);
  }

  /** An empty probe before the last of the plan: on to the next queue. */
  lemma ProbesOn(s: State, w: nat, i: nat, why: Why, n: nat)
    requires w < |s.locals| && i + 1 < |Plan(s.cfg, w)| && SeenSound(s, w, Probe(i, why), n)
    requires Has(s, Plan(s.cfg, w)[i]) && QueueAt(s, Plan(s.cfg, w)[i]).Empty()
    ensures SeenSound(s, w, Probe(i + 1, why), n)
  {
    NextOrBefore(Plan(s.cfg, w), i, why.q);
  }

  lemma NextOrBefore(plan: seq<Target>, i: nat, q: Target)
    requires i < |plan|
    ensures q in plan[..i + 1] <==> q in plan[..i] || q == plan[i]
  {
    assert plan[..i + 1] == plan[..i] + [plan[i]];
  }

  /** An empty probe of the last queue: somebody has taken a task since the round began. */
  lemma ProbesOut(s: State, w: nat, i: nat, why: Why, n: nat)
    requires w < |s.locals| == s.cfg.workers && i + 1 == |Plan(s.cfg, w)| && SeenSound(s, w, Probe(i, why), n)
    requires Has(s, Plan(s.cfg, w)[i]) && QueueAt(s, Plan(s.cfg, w)[i]).Empty()
    ensures SeenSound(s, w, NapGlobalHead, n)
  {
    InPlan(s.cfg, w);
    LastOrBefore(Plan(s.cfg, w), why.q);
  }

  lemma LastOrBefore(plan: seq<Target>, q: Target)
    requires q in plan
    ensures q in plan[..|plan| - 1] || q == plan[|plan| - 1]
  {
  }

  lemma InPlan(cfg: Config, w: nat)
    requires w < cfg.workers
    ensures Global in Plan(cfg, w) && Local(w) in Plan(cfg, w)
  {
    PlanInRange(cfg, w);
    var plan := Plan(cfg, w);
    if cfg.priority {
      assert plan[0] == Global && plan[1] == Local(w);
    } else {
      assert plan[0] == Local(w) && plan[|plan| - 1] == Global;
    }
  }

  /** A try lost to a taken lock is paid for by one more in `seen`. */
  lemma ProbesLost(s: State, w: nat, i: nat, why: Why, n: nat, pc: WPc)
    requires w < |s.locals| && SeenSound(s, w, Probe(i, why), n) && (pc == Probe(i + 1, why) || pc == NapGlobalHead)
    ensures SeenSound(s, w, pc, n + 1)
  {
  }

  lemma ProbeFails(s: State, w: nat, lock: bool)
    requires Shape(s) && w < |s.workers| && s.workers[w].pc.Probe? && s.workers[w].seen.Some?
    requires SeenSound(s, w, s.workers[w].pc, s.workers[w].seen.value)
    requires s.workers[w].pc.i < |Plan(s.cfg, w)| && Has(s, Plan(s.cfg, w)[s.workers[w].pc.i])
    requires lock ==> QueueAt(s, Plan(s.cfg, w)[s.workers[w].pc.i]).Empty()
    ensures var me := StepProbe(s, w, lock).workers[w];
            me.seen.Some? && SeenSound(s, w, me.pc, me.seen.value)
  {
    var Probe(i, why) := s.workers[w].pc;
    var n, on := s.workers[w].seen.value, i + 1 < |Plan(s.cfg, w)|;
    if !lock {
      ProbesLost(s, w, i, why, n, if on then Probe(i + 1, why) else NapGlobalHead);
    } else if on {
      ProbesOn(s, w, i, why, n);
    } else {
      ProbesOut(s, w, i, why, n);
    }
  }

  lemma TaskSees(s: State, w: nat)
    requires w < |s.workers| && w < |s.locals| && Holding(s.workers[w].pc)
    requires SeenBy(s, w)
    ensures SeenBy(StepTask(s, w), w)
  {
    SameQueuesFlow(s, StepTask(s, w));
  }

  lemma OwnStepSees(s: State, a: Action)
    requires Shape(s) && Enabled(s, a) && (a.WStep? || a.WContend?) && SeenBy(s, a.w)
    ensures SeenBy(Apply(s, a), a.w)
  {
    ShapeKept(s, a);
    if s.workers[a.w].pc.Probe? {
      ProbeSees(s, a.w, a.WStep?);
    } else if Holding(s.workers[a.w].pc) {
      TaskSees(s, a.w);
    } else {
      RoundSees(s, a.w);
    }
  }

  /** Before the flag is up no round has seen it. */
  lemma UnseenBefore(s: State, a: Action)
    requires Shape(s) && Enabled(s, a) && !s.shut.flag
    requires forall w :: 0 <= w < |s.workers| ==> s.workers[w].seen == None
    ensures forall w :: 0 <= w < |Apply(s, a).workers| ==> Apply(s, a).workers[w].seen == None
  {
    match a
    case WStep(w) =>
      WStepEffect(s, a);
      if s.workers[w].pc.Probe? {
        ProbeEffect(s, w, true);
      }
    case WContend(w) =>
      WStepEffect(s, a);
      ProbeEffect(s, w, false);
    case Begin(k, c) =>
    case CStep(k) => CStepEffect(s, k);
  }

  lemma SeenKept(s: State, a: Action)
    requires Shape(s) && Closing(s) && SeenWell(s) && Enabled(s, a)
    ensures SeenWell(Apply(s, a))
  {
    var s' := Apply(s, a);
    ShapeKept(s, a);
    WindowKept(s, a);
    if !s.shut.flag {
      UnseenBefore(s, a);
    } else {
      forall w | 0 <= w < |s'.workers| ensures SeenBy(s', w) {
        SameThreads(s, a);
        assert SeenBy(s, w);
        if (a.WStep? || a.WContend?) && a.w == w {
          OwnStepSees(s, a);
        } else {
          OtherSees(s, a, w);
        }
      }
    }
  }

  lemma OtherSees(s: State, a: Action, w: nat)
    requires Shape(s) && s.shut.flag && Enabled(s, a) && SeenBy(s, w)
    requires (a.WStep? || a.WContend?) ==> a.w != w
    ensures SeenBy(Apply(s, a), w)
  {
    FlagFlows(s, a);
    OtherWorker(s, a, w);
    if s.workers[w].seen.Some? {
      SeenStays(s, Apply(s, a), w, s.workers[w].pc, s.workers[w].seen.value);
    }
  }

  lemma OtherWorker(s: State, a: Action, w: nat)
    requires Shape(s) && Enabled(s, a) && w < |s.workers|
    requires (a.WStep? || a.WContend?) ==> a.w != w
    ensures w < |Apply(s, a).workers| && Apply(s, a).workers[w] == s.workers[w] && Apply(s, a).cfg == s.cfg
  {
    ShapeKept(s, a);
    if a.WStep? || a.WContend? {
      WStepEffect(s, a);
    } else if a.CStep? {
      CStepEffect(s, a.k);
    }
    SameConfig(s, a);
  }

  // ---- the measure ----

  /** An upper bound on the steps left in a round, with `p` queues to probe. */
  ghost function Rank(p: nat, pc: WPc): (r: int)
    ensures 0 <= r <= p + 16
  {
    match pc
    case ExitGlobalHead => p + 16
    case ExitGlobalTail(_) => p + 15
    case ExitOwnHead => p + 14
    case ExitOwnTail(_) => p + 13
    case Probe(i, _) => 12 + (if i < p then p - i else 0)
    case Found(_) => 12
    case Raised(_) => 11
    case Running(_) => 10
    case Returned(_) => 9
    case Counted(_) => 8
    case Leaving(_) => 7
    case NapGlobalHead => 6
    case NapGlobalTail(_) => 5
    case NapOwnHead => 4
    case NapOwnTail(_) => 3
    case Napping => 2
    case Top => 1
    case Stopped => 0
  }

  /** What a worker may still do: as many rounds as the load it saw when its round
      began (or as the load now, and one, if that was before the flag), and the rest of
      this round. */
  ghost function Budget(p: nat, load: int, me: Worker): int {
    (if me.seen.Some? then me.seen.value else load + 1) * (p + 17) + Rank(p, me.pc)
  }

  ghost function BudgetOf(p: nat, load: int): Worker -> int {
    me => Budget(p, load, me)
  }

  ghost function Measure(s: State): int {
    Total(BudgetOf(s.cfg.workers + 2, Load(s)), s.workers)
  }

  lemma BudgetFacts(p: nat, load: int, less: int, me: Worker)
    requires 0 <= less <= load
    ensures 0 <= Budget(p, less, me) <= Budget(p, load, me)
  {
    if me.seen == None {
      MulMono(less + 1, load + 1, p + 17);
    }
  }

  /** A new round costs less than the tasks that have gone since the last one began. */
  lemma NewRound(p: nat, n: int, m: int)
    requires 0 <= m < n
    ensures m * (p + 17) + p + 16 < n * (p + 17) + 1
  {
    OneMoreTurn(m, n, p + 17);
  }

  lemma OneMoreTurn(m: int, n: int, c: int)
    requires m < n && c >= 0
    ensures m * c + c <= n * c
  {
    MulMono(m + 1, n, c);
    NextMultiple(m, c);
  }

  lemma NextMultiple(m: int, c: int)
    ensures (m + 1) * c == m * c + c
  {
  }

  /** Every step of a worker spends at least one unit of its own budget, unless it loses
      a try to a taken lock, which may cost it another round. */
  lemma OwnStepSpends(s: State, a: Action)
    requires Shape(s) && s.shut.flag && Enabled(s, a) && (a.WStep? || a.WContend?) && SeenBy(s, a.w)
    ensures var p, w := s.cfg.workers + 2, a.w;
            && w < |Apply(s, a).workers|
            && Budget(p, Load(s), Apply(s, a).workers[w]) < Budget(p, Load(s), s.workers[w]) + Penalty(p, a)
  {
    var p, w, me := s.cfg.workers + 2, a.w, s.workers[a.w];
    PlanInRange(s.cfg, w);
    LoadNonNegative(s);
    if me.pc.Probe? {
      ProbeSpends(s, w, a.WStep?);
    } else if Holding(me.pc) {
      TaskEffect(s, w);
      TaskKeepsSeen(s, w);
    } else if me.pc.Top? {
      NewRound(p, if me.seen.Some? then me.seen.value else Load(s) + 1, Load(s));
    } else {
      RoundSpends(s, w);
    }
  }

  /** The cost of a lost try. */
  function Penalty(p: nat, a: Action): int {
    if a.WContend? then p + 17 else 0
  }

  lemma TaskKeepsSeen(s: State, w: nat)
    requires w < |s.workers| && Holding(s.workers[w].pc)
    ensures w < |StepTask(s, w).workers| && StepTask(s, w).workers[w].seen == s.workers[w].seen
  {
  }

  lemma ProbeSpends(s: State, w: nat, lock: bool)
    requires Shape(s) && w < |s.workers| && s.workers[w].pc.Probe? && |Plan(s.cfg, w)| <= s.cfg.workers + 2
    ensures w < |StepProbe(s, w, lock).workers|
    ensures var p, me, me' := s.cfg.workers + 2, s.workers[w], StepProbe(s, w, lock).workers[w];
            forall load: int :: Budget(p, load, me') < Budget(p, load, me) + if lock then 0 else p + 17
  {
    var p, me, me' := s.cfg.workers + 2, s.workers[w], StepProbe(s, w, lock).workers[w];
    assert WorkerShape(s, w, me.pc);
    assert Rank(p, me'.pc) < Rank(p, me.pc);
    if !lock && me.seen.Some? {
      NextMultiple(me.seen.value, p + 17);
    }
  }

  lemma RoundSpends(s: State, w: nat)
    requires Shape(s) && w < |s.workers| && Resting(s.workers[w].pc)
    requires s.workers[w].pc != Top && s.workers[w].pc != Stopped
    ensures var me, me' := s.workers[w], StepRound(s, w).workers[w];
            me'.seen == me.seen && Rank(s.cfg.workers + 2, me'.pc) < Rank(s.cfg.workers + 2, me.pc)
  {
  }

  /** With a smaller load nobody's budget grows. */
  lemma BudgetsShrink(p: nat, load: int, less: int, ws: seq<Worker>)
    requires 0 <= less <= load
    ensures 0 <= Total(BudgetOf(p, less), ws) <= Total(BudgetOf(p, load), ws)
  {
    forall j | 0 <= j < |ws|
      ensures 0 <= BudgetOf(p, less)(ws[j]) <= BudgetOf(p, load)(ws[j])
    {
      BudgetFacts(p, load, less, ws[j]);
    }
    TotalToMono(BudgetOf(p, less), BudgetOf(p, load), ws, |ws|);
    TotalNonNegative(BudgetOf(p, less), ws);
  }

  function Cost(a: Action): int { if a.WStep? || a.WContend? then 1 else 0 }

  lemma MeasureDrops(s: State, a: Action)
    requires Shape(s) && s.shut.flag && SeenWell(s) && Enabled(s, a)
    ensures 0 <= Measure(Apply(s, a)) <= Measure(s) - Cost(a) + Penalty(s.cfg.workers + 2, a)
  {
    var s', p := Apply(s, a), s.cfg.workers + 2;
    FlagFlows(s, a);
    SameConfig(s, a);
    LoadNonNegative(s');
    BudgetsShrink(p, Load(s), Load(s'), s'.workers);
    if a.WStep? || a.WContend? {
      assert SeenBy(s, a.w);
      WStepEffect(s, a);
      OwnStepSpends(s, a);
      TotalUpdate(BudgetOf(p, Load(s)), s.workers, a.w, s'.workers[a.w]);
    } else if a.CStep? {
      CStepEffect(s, a.k);
    }
  }

  // ---- runs ----

  /** The number of worker steps in a run, lost tries included. */
  ghost function WorkerSteps(acts: seq<Action>): nat {
    if acts == [] then 0 else Cost(acts[0]) + WorkerSteps(acts[1..])
  }

  /** How often fq_queue_try_pop gave up because of a taken lock. */
  ghost function LostTries(acts: seq<Action>): nat {
    if acts == [] then 0 else Bit(acts[0].WContend?) + LostTries(acts[1..])
  }

  /** What the lost tries cost, at `c` each. */
  ghost function Penalties(acts: seq<Action>, c: nat): nat {
    if acts == [] then 0 else (if acts[0].WContend? then c else 0) + Penalties(acts[1..], c)
  }

  lemma {:induction false} PenaltiesCount(acts: seq<Action>, c: nat)
    ensures Penalties(acts, c) == LostTries(acts) * c
  {
    if acts != [] {
      PenaltiesCount(acts[1..], c);
      NextMultiple(LostTries(acts[1..]), c);
    }
  }

  /** All that shutdown relies on. */
  ghost predicate Ending(s: State) {
    Shape(s) && Closing(s) && Guarded(s) && SeenWell(s)
  }

  lemma EndingKept(s: State, a: Action)
    requires Ending(s) && Enabled(s, a)
    ensures Ending(Apply(s, a))
  {
    ShapeKept(s, a);
    ClosingKept(s, a);
    GuardedKept(s, a);
    SeenKept(s, a);
  }

  lemma InitialEnding(cfg: Config, localRoom: nat, globalRoom: nat, clients: nat)
    requires cfg.workers > 0
    ensures Ending(Initial(cfg, localRoom, globalRoom, clients))
  {
    InitialShape(cfg, localRoom, globalRoom, clients);
  }

  lemma {:induction false} EndingOverRun(s: State, acts: seq<Action>)
    requires Ending(s) && Legal(s, acts)
    ensures Ending(Run(s, acts))
    decreases |acts|
  {
    if acts != [] {
      EndingKept(s, acts[0]);
      EndingOverRun(Apply(s, acts[0]), acts[1..]);
    }
  }

  lemma MeasureNonNegative(s: State)
    ensures Measure(s) >= 0
  {
    LoadNonNegative(s);
    BudgetsShrink(s.cfg.workers + 2, Load(s), Load(s), s.workers);
  }

  /** One action once the flag is up, with `c` the cost of a lost try. */
  lemma EndingStep(s: State, a: Action, c: nat)
    requires Ending(s) && s.shut.flag && Enabled(s, a) && c == s.cfg.workers + 19
    ensures var s' := Apply(s, a);
            && Ending(s') && s'.shut.flag && s'.cfg.workers == s.cfg.workers
            && Measure(s') <= Measure(s) - Cost(a) + if a.WContend? then c else 0
  {
    MeasureDrops(s, a);
    WindowKept(s, a);
    EndingKept(s, a);
    SameConfig(s, a);
  }

  /** From the flag store on, no schedule has more worker steps than the measure, and a
      round more for each lost try. */
  lemma {:induction false} StepsBounded(s: State, acts: seq<Action>, c: nat)
    requires Ending(s) && s.shut.flag && Legal(s, acts) && c == s.cfg.workers + 19
    ensures WorkerSteps(acts) <= Measure(s) + Penalties(acts, c)
    decreases |acts|
  {
    if acts == [] {
      MeasureNonNegative(s);
    } else {
      EndingStep(s, acts[0], c);
      StepsBounded(Apply(s, acts[0]), acts[1..], c);
    }
  }

  /** `store` is the first store of the flag in a run, whatever it finds going on. */
  ghost predicate FirstStore(start: State, before: seq<Action>, store: Action) {
    && Legal(start, before) && !Run(start, before).shut.flag
    && Enabled(Run(start, before), store) && Apply(Run(start, before), store).shut.flag
  }

  lemma EndingAtStore(cfg: Config, localRoom: nat, globalRoom: nat, clients: nat, before: seq<Action>, store: Action)
    requires cfg.workers > 0 && FirstStore(Initial(cfg, localRoom, globalRoom, clients), before, store)
    ensures Ending(Apply(Run(Initial(cfg, localRoom, globalRoom, clients), before), store))
  {
    var start := Initial(cfg, localRoom, globalRoom, clients);
    InitialEnding(cfg, localRoom, globalRoom, clients);
    EndingOverRun(start, before);
    EndingKept(Run(start, before), store);
  }

  /** Shutdown terminates: after any run of a created scheduler and the first store of the
      flag, whatever submits are in their windows, no schedule has more worker steps than
      the measure of the state at the store, and one round for each try_pop lost to a
      taken lock. */
  lemma ShutdownTerminates(cfg: Config, localRoom: nat, globalRoom: nat, clients: nat,
                           before: seq<Action>, store: Action, after: seq<Action>)
    requires cfg.workers > 0 && FirstStore(Initial(cfg, localRoom, globalRoom, clients), before, store)
    requires Legal(Apply(Run(Initial(cfg, localRoom, globalRoom, clients), before), store), after)
    ensures var s := Apply(Run(Initial(cfg, localRoom, globalRoom, clients), before), store);
            WorkerSteps(after) <= Measure(s) + LostTries(after) * (s.cfg.workers + 19)
  {
    EndingAtStore(cfg, localRoom, globalRoom, clients, before, store);
    var s := Apply(Run(Initial(cfg, localRoom, globalRoom, clients), before), store);
    StepsFrom(s, after);
  }

  lemma StepsFrom(s: State, after: seq<Action>)
    requires Ending(s) && s.shut.flag && Legal(s, after)
    ensures WorkerSteps(after) <= Measure(s) + LostTries(after) * (s.cfg.workers + 19)
  {
    StepsBounded(s, after, s.cfg.workers + 19);
    PenaltiesCount(after, s.cfg.workers + 19);
  }

  /** ... and a run that no worker step can prolong, with all callbacks returned, has
      stopped every worker: the joins get through. If the store found no harmful submit
      in its window, every queue is empty then. */
  lemma MaximalRunEmpties(cfg: Config, localRoom: nat, globalRoom: nat, clients: nat,
                          before: seq<Action>, store: Action, after: seq<Action>, s': State)
    requires cfg.workers > 0 && FirstStore(Initial(cfg, localRoom, globalRoom, clients), before, store)
    requires var s := Apply(Run(Initial(cfg, localRoom, globalRoom, clients), before), store);
             Legal(s, after) && s' == Run(s, after)
    requires forall w :: 0 <= w < |s'.workers| ==> !Enabled(s', WStep(w))
    requires forall k :: 0 <= k < |s'.calls| && s'.calls[k] != NoCall ==> k >= |s'.workers|
    ensures forall w :: 0 <= w < |s'.workers| ==> s'.workers[w].pc == Stopped
    ensures s'.shut.safe ==> Queued(s') == 0
  {
    EndingAtStore(cfg, localRoom, globalRoom, clients, before, store);
    EndingOverRun(Apply(Run(Initial(cfg, localRoom, globalRoom, clients), before), store), after);
    AllStopped(s');
    if s'.shut.safe {
      StoppedMeansEmpty(s');
    }
  }

  lemma AllStopped(s: State)
    requires Shape(s) && forall w :: 0 <= w < |s.workers| ==> !Enabled(s, WStep(w))
    requires forall k :: 0 <= k < |s.calls| && s.calls[k] != NoCall ==> k >= |s.workers|
    ensures forall w :: 0 <= w < |s.workers| ==> s.workers[w].pc == Stopped
  {
    forall w | 0 <= w < |s.workers|
      ensures s.workers[w].pc == Stopped
    {
      assert !Enabled(s, WStep(w));
    }
  }
}
