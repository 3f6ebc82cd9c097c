/** Every action of the scheduler machine keeps its structural facts: indices in
    range, queues within capacity, callbacks only in running workers. */
module SchedulerShape {
  import opened Common
  import opened SchedulerModel
  import opened Bits

  // ---- the probing order ----

  lemma VictimOnce(thief: nat, i: nat, n: nat)
    requires thief < n && i < n
    ensures Victim(thief, i, n) == if thief + 1 + i < n then thief + 1 + i else thief + 1 + i - n
  {
    if thief + 1 + i >= n {
      assert Victim(thief, i, n) == Rem(thief + 1 + i - n, n);
    }
  }

  /** The scan passes over the thief and takes everybody else in turn. */
  lemma StealsStep(thief: nat, i: nat, n: nat)
    requires i < n
    ensures Victim(thief, i, n) == thief ==> Steals(thief, i, n) == Steals(thief, i + 1, n)
    ensures Victim(thief, i, n) != thief ==>
              Steals(thief, i, n) == [Local(Victim(thief, i, n))] + Steals(thief, i + 1, n)
  {
    EmptyFront(Steals(thief, i + 1, n));
  }

  lemma EmptyFront<T>(s: seq<T>)
    ensures [] + s == s
  {
  }

  /** Every probe of a steal scan is at some worker's queue. */
  lemma {:induction false} StealsInRange(thief: nat, i: nat, n: nat)
    requires thief < n
    ensures |Steals(thief, i, n)| <= if i < n then n - i else 0
    ensures forall j :: 0 <= j < |Steals(thief, i, n)| ==>
                          Steals(thief, i, n)[j].Local? && Steals(thief, i, n)[j].w < n
    decreases n - i
  {
    if i < n {
      StealsInRange(thief, i + 1, n);
      VictimOnce(thief, i, n);
    }
  }

  lemma PlanInRange(cfg: Config, w: nat)
    requires w < cfg.workers
    ensures 2 <= |Plan(cfg, w)| <= cfg.workers + 2
    ensures forall i :: 0 <= i < |Plan(cfg, w)| ==> Plan(cfg, w)[i].Local? ==> Plan(cfg, w)[i].w < cfg.workers
    ensures cfg.priority ==> Plan(cfg, w)[0] == Global && Plan(cfg, w)[1] == Local(w)
    ensures !cfg.priority ==> Plan(cfg, w)[0] == Local(w) && Plan(cfg, w)[|Plan(cfg, w)| - 1] == Global
  {
    StealsInRange(w, 0, cfg.workers);
  }

  // ---- preservation ----

  /** The parts of the state a worker or a call may not disturb. */
  ghost predicate Frame(s: State, s': State) {
    && s'.cfg == s.cfg && |s'.locals| == |s.locals| && |s'.workers| == |s.workers|
    && |s'.calls| == |s.calls| == |s'.next|
    && s'.global.Valid()
    && (forall i :: 0 <= i < |s'.locals| ==> s'.locals[i].Valid())
  }

  lemma WorkerMoves(s: State, s': State, w: nat)
    requires Shape(s) && Frame(s, s') && w < |s.workers|
    requires s'.workers == s.workers[w := s'.workers[w]] && s'.calls == s.calls
    requires WorkerShape(s', w, s'.workers[w].pc)
    requires s.calls[w] == NoCall || s'.workers[w].pc.Running?
    ensures Shape(s')
  {
    forall v | 0 <= v < |s.workers|
      ensures WorkerShape(s', v, s'.workers[v].pc)
    {
      assert WorkerShape(s, v, s.workers[v].pc);
    }
    forall k | 0 <= k < |s.calls|
      ensures CallShape(s', k, s'.calls[k])
    {
      assert CallShape(s, k, s.calls[k]);
    }
  }

  lemma CallMoves(s: State, s': State, k: nat)
    requires Shape(s) && Frame(s, s') && k < |s.calls|
    requires s'.calls == s.calls[k := s'.calls[k]] && s'.workers == s.workers
    requires CallShape(s', k, s'.calls[k])
    ensures Shape(s')
  {
    forall v | 0 <= v < |s.workers|
      ensures WorkerShape(s', v, s'.workers[v].pc)
    {
      assert WorkerShape(s, v, s.workers[v].pc);
    }
    forall j | 0 <= j < |s.calls|
      ensures CallShape(s', j, s'.calls[j])
    {
      assert CallShape(s, j, s.calls[j]);
    }
  }

  /** A worker that is not running a callback is in no call. */
  lemma NotCalling(s: State, w: nat)
    requires Shape(s) && w < |s.workers| && !s.workers[w].pc.Running?
    ensures s.calls[w] == NoCall
  {
    assert CallShape(s, w, s.calls[w]);
  }

  lemma RoundShape(s: State, w: nat)
    requires Shape(s) && w < |s.workers| && !s.workers[w].pc.Running?
    ensures Shape(StepRound(s, w))
  {
    NotCalling(s, w);
    PlanInRange(s.cfg, w);
    assert WorkerShape(s, w, s.workers[w].pc);
    WorkerMoves(s, StepRound(s, w), w);
  }

  lemma ProbeShape(s: State, w: nat, lock: bool)
    requires Shape(s) && w < |s.workers| && s.workers[w].pc.Probe?
    ensures Shape(StepProbe(s, w, lock))
  {
    NotCalling(s, w);
    PlanInRange(s.cfg, w);
    assert WorkerShape(s, w, s.workers[w].pc);
    WorkerMoves(s, StepProbe(s, w, lock), w);
  }

  lemma TaskShape(s: State, w: nat)
    requires Shape(s) && w < |s.workers| && Holding(s.workers[w].pc)
    requires s.workers[w].pc.Running? ==> s.calls[w] == NoCall
    ensures Shape(StepTask(s, w))
  {
    if !s.workers[w].pc.Running? {
      NotCalling(s, w);
    }
    WorkerMoves(s, StepTask(s, w), w);
  }

  lemma SubmitShape(s: State, k: nat)
    requires Shape(s) && k < |s.calls| && InSubmit(s.calls[k])
    ensures Shape(StepSubmit(s, k))
  {
    assert CallShape(s, k, s.calls[k]);
    CallMoves(s, StepSubmit(s, k), k);
  }

  lemma IdleShape(s: State, k: nat)
    requires Shape(s) && k < |s.calls| && InIdle(s.calls[k])
    ensures Shape(StepIdle(s, k))
  {
    assert CallShape(s, k, s.calls[k]);
    CallMoves(s, StepIdle(s, k), k);
  }

  lemma CancelShape(s: State, k: nat)
    requires Shape(s) && k < |s.calls| && InCancel(s.calls[k])
    ensures Shape(StepCancel(s, k))
  {
    var c, s' := s.calls[k], StepCancel(s, k);
    assert CallShape(s, k, c);
    if c.CancelDrain? {
      DrainShape(s, k);
    }
    CallMoves(s, s', k);
  }

  lemma DrainShape(s: State, k: nat)
    requires Shape(s) && k < |s.calls| && s.calls[k].CancelDrain? && CallShape(s, k, s.calls[k])
    ensures var s' := StepCancel(s, k);
            && Frame(s, s') && s'.workers == s.workers && s'.calls == s.calls[k := s'.calls[k]]
            && CallShape(s', k, s'.calls[k])
  {
  }

  lemma ShutShape(s: State, k: nat)
    requires Shape(s) && k < |s.calls| && s.calls[k] != NoCall
    ensures Shape(StepShut(s, k))
  {
    assert CallShape(s, k, s.calls[k]);
    CallMoves(s, StepShut(s, k), k);
  }

  lemma ShapeKept(s: State, a: Action)
    requires Shape(s) && Enabled(s, a)
    ensures Shape(Apply(s, a))
  {
    match a
    case WStep(w) =>
      if s.workers[w].pc.Probe? {
        ProbeShape(s, w, true);
      } else if Holding(s.workers[w].pc) {
        TaskShape(s, w);
      } else {
        RoundShape(s, w);
      }
    case WContend(w) => ProbeShape(s, w, false);
    case Begin(k, c) => CallMoves(s, Apply(s, a), k);
    case CStep(k) =>
      if InSubmit(s.calls[k]) {
        SubmitShape(s, k);
      } else if InIdle(s.calls[k]) {
        IdleShape(s, k);
      } else if InCancel(s.calls[k]) {
        CancelShape(s, k);
      } else {
        ShutShape(s, k);
      }
  }

  lemma InitialShape(cfg: Config, localRoom: nat, globalRoom: nat, clients: nat)
    requires cfg.workers > 0
    ensures Shape(Initial(cfg, localRoom, globalRoom, clients))
  {
  }

  // ---- what a step can change ----

  /** Worker `w` moved and nothing else happened. */
  ghost predicate OnlyWorker(s: State, s': State, w: nat) {
    w < |s.workers| == |s'.workers| && s' == s.(workers := s.workers[w := s'.workers[w]])
  }

  /** Worker `w` took the oldest task of `q`. */
  ghost predicate Took(s: State, s': State, w: nat, q: Target) {
    && w < |s.workers| && Has(s, q) && !QueueAt(s, q).Empty()
    && s' == SetQueue(Go(s, w, Found(QueueAt(s, q).pushed[QueueAt(s, q).popped])), q, QueueAt(s, q).Pop())
  }

  /** Thread `k` pushed `t` on `q`. */
  ghost predicate Pushed(s: State, s': State, k: nat, q: Target, t: Task) {
    && k < |s.calls| && Has(s, q) && !QueueAt(s, q).Full() && |s'.next| == |s.next|
    && s' == SetQueue(SetCall(s, k, SubDone(t, OK)), q, QueueAt(s, q).Push(t)).(
              log := s.log.(offered := s.log.offered - {t}, accepted := s.log.accepted + {t}), next := s'.next)
  }

  /** Thread `k` moved and nothing else happened, but for its worker counter. */
  ghost predicate OnlyCall(s: State, s': State, k: nat) {
    k < |s.calls| == |s'.calls| && |s'.next| == |s.next|
    && s' == s.(calls := s.calls[k := s'.calls[k]], next := s'.next)
  }

  predicate Resting(pc: WPc) {
    !pc.Probe? && !Holding(pc)
  }

  lemma RoundEffect(s: State, w: nat)
    requires Shape(s) && w < |s.workers| && Resting(s.workers[w].pc)
    ensures OnlyWorker(s, StepRound(s, w), w) && !Holding(StepRound(s, w).workers[w].pc)
  {
  }

  /** Worker `w` went one step from the pop of its task towards its destruction;
      only counting it as completed moves the task. */
  ghost predicate Handled(s: State, s': State, w: nat) {
    && w < |s.workers| == |s'.workers| && Holding(s.workers[w].pc)
    && s' == s.(workers := s.workers[w := s'.workers[w]], count := s'.count, log := s'.log)
    && s'.workers[w].pc == AfterTask(s.workers[w].pc)
    && s'.log == (if s.workers[w].pc.Returned? then s.log.(ran := s.log.ran + [s.workers[w].pc.task]) else s.log)
  }

  lemma TaskEffect(s: State, w: nat)
    requires Shape(s) && w < |s.workers| && Holding(s.workers[w].pc)
    ensures Handled(s, StepTask(s, w), w)
  {
  }

  /** The queue worker `w` is about to probe. */
  ghost function Probed(s: State, w: nat): Target
    requires Shape(s) && w < |s.workers| && s.workers[w].pc.Probe?
  {
    assert WorkerShape(s, w, s.workers[w].pc);
    Plan(s.cfg, w)[s.workers[w].pc.i]
  }

  lemma ProbeEffect(s: State, w: nat, lock: bool)
    requires Shape(s) && w < |s.workers| && s.workers[w].pc.Probe?
    ensures var s' := StepProbe(s, w, lock);
            if lock && Has(s, Probed(s, w)) && !QueueAt(s, Probed(s, w)).Empty() then Took(s, s', w, Probed(s, w))
            else OnlyWorker(s, s', w) && !Holding(s'.workers[w].pc)
  {
    assert WorkerShape(s, w, s.workers[w].pc);
  }

  /** A push attempt of a submit either pushes or moves on to the next attempt. */
  ghost predicate Attempted(s: State, s': State, k: nat, q: Target, t: Task) {
    && Has(s, q) && k < |s.calls|
    && if QueueAt(s, q).Full() then
         && OnlyCall(s, s', k)
         && (s'.calls[k] == SubUndo(t) || (s'.calls[k] == SubSpill(t) && s.calls[k].SubPush?))
       else Pushed(s, s', k, q, t)
  }

  lemma AttemptEffect(s: State, k: nat) returns (q: Target)
    requires Shape(s) && k < |s.calls| && (s.calls[k].SubPush? || s.calls[k].SubSpill?)
    ensures Attempted(s, StepAttempt(s, k, s.calls[k].task), k, q, s.calls[k].task)
  {
    q := if s.calls[k].SubSpill? || Urgent(s, s.calls[k].task) then Global else Local(FirstChoice(s, k));
  }

  /** The history only grows, and a raised task stays raised. */
  ghost predicate LogGrows(h: History, h': History) {
    && h.refused <= h'.refused && h.overflowed <= h'.overflowed
    && h.ran <= h'.ran && h.dropped <= h'.dropped
    && h.accepted <= h'.accepted
    && h.offered + h.accepted <= h'.offered + h'.accepted
  }

  /** What any step of a call leaves alone. */
  ghost predicate CallStep(s: State, s': State, k: nat) {
    && k < |s.calls| == |s'.calls| && s'.calls == s.calls[k := s'.calls[k]]
    && s'.workers == s.workers && s'.log.ran == s.log.ran && LogGrows(s.log, s'.log)
  }

  lemma SubmitEffect(s: State, k: nat)
    requires Shape(s) && k < |s.calls| && InSubmit(s.calls[k]) && !s.calls[k].SubPush? && !s.calls[k].SubSpill?
    ensures CallStep(s, StepSubmit(s, k), k)
    ensures InSubmit(StepSubmit(s, k).calls[k]) || StepSubmit(s, k).calls[k] == NoCall
  {
  }

  lemma AttemptStep(s: State, k: nat)
    requires Shape(s) && k < |s.calls| && (s.calls[k].SubPush? || s.calls[k].SubSpill?)
    ensures var s' := StepAttempt(s, k, s.calls[k].task);
            CallStep(s, s', k) && InSubmit(s'.calls[k])
  {
    var q := AttemptEffect(s, k);
  }

  lemma CancelEffect(s: State, k: nat)
    requires Shape(s) && k < |s.calls| && InCancel(s.calls[k])
    ensures CallStep(s, StepCancel(s, k), k)
    ensures InCancel(StepCancel(s, k).calls[k]) || StepCancel(s, k).calls[k] == NoCall
  {
    assert CallShape(s, k, s.calls[k]);
  }

  lemma CStepEffect(s: State, k: nat)
    requires Shape(s) && Enabled(s, CStep(k))
    ensures var s' := Apply(s, CStep(k));
            && CallStep(s, s', k)
            && (!InIdle(s.calls[k]) ==> !InIdle(s'.calls[k]))
  {
    if s.calls[k].SubPush? || s.calls[k].SubSpill? {
      AttemptStep(s, k);
    } else if InSubmit(s.calls[k]) {
      SubmitEffect(s, k);
    } else if InIdle(s.calls[k]) {
      IdleEffect(s, k);
    } else if InCancel(s.calls[k]) {
      CancelEffect(s, k);
    } else {
      ShutEffect(s, k);
    }
  }

  lemma IdleEffect(s: State, k: nat)
    requires Shape(s) && k < |s.calls| && InIdle(s.calls[k])
    ensures CallStep(s, StepIdle(s, k), k)
  {
  }

  lemma ShutEffect(s: State, k: nat)
    requires Shape(s) && k < |s.calls| && !InIdle(s.calls[k])
    ensures CallStep(s, StepShut(s, k), k) && !InIdle(StepShut(s, k).calls[k])
  {
  }

  /** What any step of a worker leaves alone. */
  lemma WStepEffect(s: State, a: Action)
    requires Shape(s) && Enabled(s, a) && (a.WStep? || a.WContend?)
    ensures var s' := Apply(s, a);
            && |s'.workers| == |s.workers| && s'.workers == s.workers[a.w := s'.workers[a.w]]
            && s'.calls == s.calls && s'.cfg == s.cfg && s'.next == s.next && LogGrows(s.log, s'.log)
            && s'.shut == s.shut
  {
    if s.workers[a.w].pc.Probe? {
      ProbeEffect(s, a.w, a.WStep?);
    } else if Holding(s.workers[a.w].pc) {
      TaskEffect(s, a.w);
    } else {
      RoundEffect(s, a.w);
    }
  }

  lemma SameThreads(s: State, a: Action)
    requires Shape(s) && Enabled(s, a)
    ensures |Apply(s, a).workers| == |s.workers| && |Apply(s, a).calls| == |s.calls|
  {
    match a
    case WStep(w) => WStepEffect(s, a);
    case WContend(w) => WStepEffect(s, a);
    case Begin(k, c) =>
    case CStep(k) => CStepEffect(s, k);
  }

  lemma HistoryGrows(s: State, a: Action)
    requires Shape(s) && Enabled(s, a)
    ensures LogGrows(s.log, Apply(s, a).log)
  {
    match a
    case WStep(w) => WStepEffect(s, a);
    case WContend(w) => WStepEffect(s, a);
    case Begin(k, c) =>
    case CStep(k) => CStepEffect(s, k);
  }

  /** A thread moves only by its own actions. */
  lemma CallsAfter(s: State, a: Action, k: nat)
    requires Shape(s) && Enabled(s, a) && k < |s.calls|
    ensures var s' := Apply(s, a);
            && |s'.calls| == |s.calls|
            && (a != CStep(k) && !(a.Begin? && a.k == k) ==> s'.calls[k] == s.calls[k])
            && (a.Begin? && a.k == k ==> s'.calls[k] == a.call)
  {
    match a
    case WStep(w) => WStepEffect(s, a);
    case WContend(w) => WStepEffect(s, a);
    case Begin(_, _) =>
    case CStep(j) => CStepEffect(s, j);
  }

  lemma SameConfig(s: State, a: Action)
    requires Shape(s) && Enabled(s, a)
    ensures Apply(s, a).cfg == s.cfg
  {
    match a
    case WStep(w) => WStepEffect(s, a);
    case WContend(w) => WStepEffect(s, a);
    case Begin(_, _) =>
    case CStep(k) => CStepConfig(s, k);
  }

  lemma CStepConfig(s: State, k: nat)
    requires Shape(s) && Enabled(s, CStep(k))
    ensures Apply(s, CStep(k)).cfg == s.cfg
  {
    if s.calls[k].SubPush? || s.calls[k].SubSpill? {
      var q := AttemptEffect(s, k);
    } else if InCancel(s.calls[k]) {
      assert CallShape(s, k, s.calls[k]);
    }
  }
}
