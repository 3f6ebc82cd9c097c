/** Who gets a task next: bounded overtaking of urgent tasks, the spread of submits
    over the workers, the completeness of a steal scan, and the room of all queues
    together against the width of tasks_pending. */
module SchedulerFairness {
  import opened Common
  import opened Bits
  import opened SchedulerModel
  import opened SchedulerShape
  import opened SchedulerLedger
  import opened SchedulerIdle
  import opened SchedulerShutdown
  import opened SchedulerSafe
  import opened SchedulerTermination

  // ---- bounded overtaking ----

  /** Worker `w` takes a task from queue kind `global` in this action. */
  ghost predicate Takes(s: State, a: Action, w: nat, global: bool)
    requires Shape(s)
  {
    && a == WStep(w) && w < |s.workers| && s.workers[w].pc.Probe?
    && Has(s, Probed(s, w)) && !QueueAt(s, Probed(s, w)).Empty()
    && (Probed(s, w) == Global <==> global)
  }

  /** How often worker `w` takes from the global queue, or from any other, in a run. */
  ghost function TakesBy(s: State, acts: seq<Action>, w: nat, global: bool): nat
    requires Legal(s, acts)
    decreases |acts|
  {
    if acts == [] then 0
    else (if Takes(s, acts[0], w, global) then 1 else 0) + TakesBy(Apply(s, acts[0]), acts[1..], w, global)
  }

  /** A worker that is past its probe of the global queue in this round. */
  predicate PastGlobal(w: Worker) {
    w.pc.Probe? && w.pc.i > 0
  }

  lemma GlobalGrows(s: State, a: Action)
    requires Shape(s) && Enabled(s, a)
    ensures s.global.pushed <= Apply(s, a).global.pushed && s.global.popped <= Apply(s, a).global.popped
  {
    if a.WStep? || a.WContend? {
      WorkerDrains(s, a);
    } else if a.CStep? {
      var c := s.calls[a.k];
      assert CallShape(s, a.k, c);
      if c.SubPush? || c.SubSpill? {
        var q := AttemptEffect(s, a.k);
      } else if InCancel(c) {
        CancelDrains(s, a.k);
      } else if InSubmit(c) {
        AnswerDrains(s, a.k);
      }
    }
  }

  lemma {:induction false} GlobalGrowsRun(s: State, acts: seq<Action>)
    requires Legal(s, acts)
    ensures s.global.pushed <= Run(s, acts).global.pushed && s.global.popped <= Run(s, acts).global.popped
    decreases |acts|
  {
    if acts != [] {
      GlobalGrows(s, acts[0]);
      GlobalGrowsRun(Apply(s, acts[0]), acts[1..]);
    }
  }

  /** While the global queue is not empty, a worker takes from another queue only if it
      had passed the global queue before, and then once; it passes it only by losing a
      try to its taken lock. */
  lemma OvertakeStep(s: State, a: Action, w: nat)
    requires Shape(s) && Enabled(s, a) && s.cfg.priority && !s.global.Empty() && w < |s.workers|
    ensures w < |Apply(s, a).workers|
    ensures (if Takes(s, a, w, false) then 1 else 0) + Bit(PastGlobal(Apply(s, a).workers[w]))
            <= Bit(PastGlobal(s.workers[w])) + Bit(a == WContend(w))
  {
    SameThreads(s, a);
    if a == WContend(w) {
    } else if a == WStep(w) {
      PlanInRange(s.cfg, w);
      if s.workers[w].pc.Probe? {
        ProbeEffect(s, w, true);
        ProbeForward(s, w);
      } else if Holding(s.workers[w].pc) {
        TaskEffect(s, w);
      } else {
        RoundStarts(s, w);
      }
    } else {
      OtherWorker(s, a, w);
    }
  }

  lemma ProbeForward(s: State, w: nat)
    requires Shape(s) && w < |s.workers| && s.workers[w].pc.Probe? && s.cfg.priority && !s.global.Empty()
    requires Plan(s.cfg, w)[0] == Global
    ensures s.workers[w].pc.i == 0 ==> Probed(s, w) == Global
    ensures w < |StepProbe(s, w, true).workers|
    ensures Has(s, Probed(s, w)) && !QueueAt(s, Probed(s, w)).Empty() ==> StepProbe(s, w, true).workers[w].pc.Found?
  {
    assert WorkerShape(s, w, s.workers[w].pc);
  }

  lemma RoundStarts(s: State, w: nat)
    requires Shape(s) && w < |s.workers| && Resting(s.workers[w].pc)
    ensures !PastGlobal(StepRound(s, w).workers[w])
  {
  }

  /** How often worker `w` loses a try to a taken lock. */
  ghost function LostBy(acts: seq<Action>, w: nat): nat {
    if acts == [] then 0 else Bit(acts[0] == WContend(w)) + LostBy(acts[1..], w)
  }

  /** With priority on, while a task waits in the global queue a worker takes at most one
      task from elsewhere, and one more for each try it loses to a taken lock, whatever
      the backlog of the local queues. */
  lemma {:induction false} OvertakenOnce(s: State, acts: seq<Action>, ticket: nat, w: nat)
    requires Shape(s) && Legal(s, acts) && s.cfg.priority && w < |s.workers|
    requires ticket < |s.global.pushed| && Run(s, acts).global.popped <= ticket
    ensures TakesBy(s, acts, w, false) <= Bit(PastGlobal(s.workers[w])) + LostBy(acts, w) <= 1 + LostBy(acts, w)
    decreases |acts|
  {
    GlobalGrowsRun(s, acts);
    if acts != [] {
      var s' := Apply(s, acts[0]);
      OvertakeStep(s, acts[0], w);
      GlobalGrows(s, acts[0]);
      SameConfig(s, acts[0]);
      ShapeKept(s, acts[0]);
      OvertakenOnce(s', acts[1..], ticket, w);
    }
  }

  /** All global takes of all workers together. */
  ghost function GlobalTakes(s: State, acts: seq<Action>): nat
    requires Legal(s, acts)
    decreases |acts|
  {
    if acts == [] then 0
    else (if acts[0].WStep? && Takes(s, acts[0], acts[0].w, true) then 1 else 0)
         + GlobalTakes(Apply(s, acts[0]), acts[1..])
  }

  lemma {:induction false} GlobalTakesBounded(s: State, acts: seq<Action>)
    requires Shape(s) && Legal(s, acts)
    ensures GlobalTakes(s, acts) <= Run(s, acts).global.popped - s.global.popped
    decreases |acts|
  {
    if acts != [] {
      GlobalGrows(s, acts[0]);
      if acts[0].WStep? && Takes(s, acts[0], acts[0].w, true) {
        ProbeEffect(s, acts[0].w, true);
      }
      ShapeKept(s, acts[0]);
      GlobalTakesBounded(Apply(s, acts[0]), acts[1..]);
    }
  }

  /** All takes of all workers from other queues. */
  ghost function OtherTakes(s: State, acts: seq<Action>): nat
    requires Legal(s, acts)
    decreases |acts|
  {
    if acts == [] then 0
    else (if acts[0].WStep? && Takes(s, acts[0], acts[0].w, false) then 1 else 0)
         + OtherTakes(Apply(s, acts[0]), acts[1..])
  }

  function Past(me: Worker): int { Bit(PastGlobal(me)) }

  /** The workers past the global queue pay for the takes from elsewhere. */
  lemma OvertakeAll(s: State, a: Action)
    requires Shape(s) && Enabled(s, a) && s.cfg.priority && !s.global.Empty()
    ensures (if a.WStep? && Takes(s, a, a.w, false) then 1 else 0) + Total(Past, Apply(s, a).workers)
            <= Total(Past, s.workers) + Bit(a.WContend?)
  {
    var s' := Apply(s, a);
    SameThreads(s, a);
    if a.WStep? || a.WContend? {
      WStepEffect(s, a);
      OvertakeStep(s, a, a.w);
      TotalUpdate(Past, s.workers, a.w, s'.workers[a.w]);
    } else if a.CStep? {
      CStepEffect(s, a.k);
    }
  }

  lemma {:induction false} OtherTakesBounded(s: State, acts: seq<Action>, ticket: nat)
    requires Shape(s) && Legal(s, acts) && s.cfg.priority
    requires ticket < |s.global.pushed| && Run(s, acts).global.popped <= ticket
    ensures OtherTakes(s, acts) <= Total(Past, s.workers) + LostTries(acts)
    decreases |acts|
  {
    GlobalGrowsRun(s, acts);
    if acts == [] {
      TotalNonNegative(Past, s.workers);
    } else {
      OvertakeAll(s, acts[0]);
      GlobalGrows(s, acts[0]);
      SameConfig(s, acts[0]);
      ShapeKept(s, acts[0]);
      OtherTakesBounded(Apply(s, acts[0]), acts[1..], ticket);
    }
  }

  /** Bounded overtaking with priority on: while the task behind ticket `ticket` waits in
      the global queue behind k others, all workers together take at most k tasks from
      the global queue, and from elsewhere at most one each and one more for each
      try_pop lost to a taken lock. */
  lemma BoundedOvertaking(s: State, acts: seq<Action>, ticket: nat)
    requires Shape(s) && Legal(s, acts) && s.cfg.priority
    requires s.global.popped <= ticket < |s.global.pushed| && Run(s, acts).global.popped <= ticket
    ensures GlobalTakes(s, acts) <= ticket - s.global.popped
    ensures OtherTakes(s, acts) <= |s.workers| + LostTries(acts)
  {
    GlobalTakesBounded(s, acts);
    OtherTakesBounded(s, acts, ticket);
    TotalRange(Past, s.workers, 1);
  }

  // ---- the steal scan ----

  /** The round of try_steal that comes to worker `j`. */
  function RoundOf(thief: nat, j: nat, n: nat): int {
    if j > thief then j - thief - 1 else j + n - thief - 1
  }

  /** How often the scan comes to worker `j` from round `i` on. */
  ghost function Visits(thief: nat, i: nat, n: nat, j: nat): nat
    requires n > 0
    decreases n - i
  {
    if i >= n then 0 else Bit(Victim(thief, i, n) == j && j != thief) + Visits(thief, i + 1, n, j)
  }

  lemma {:induction false} VisitsOnce(thief: nat, i: nat, n: nat, j: nat)
    requires thief < n && j < n && i <= n
    ensures Visits(thief, i, n, j) == Bit(j != thief && i <= RoundOf(thief, j, n))
    decreases n - i
  {
    if i < n {
      RoundComes(thief, i, n, j);
      VisitsOnce(thief, i + 1, n, j);
    }
  }

  lemma {:induction false} StealsAreVisits(thief: nat, i: nat, n: nat, j: nat)
    requires n > 0
    ensures multiset(Steals(thief, i, n))[Local(j)] == Visits(thief, i, n, j)
    decreases n - i
  {
    if i < n {
      StealsAreVisits(thief, i + 1, n, j);
      StealsNext(thief, i, n, j, Visits(thief, i + 1, n, j));
    }
  }

  lemma RoundComes(thief: nat, i: nat, n: nat, j: nat)
    requires thief < n && j < n && i < n
    ensures Victim(thief, i, n) == j <==> i == RoundOf(thief, j, n)
  {
    VictimOnce(thief, i, n);
  }

  lemma StealsNext(thief: nat, i: nat, n: nat, j: nat, visits: nat)
    requires i < n && multiset(Steals(thief, i + 1, n))[Local(j)] == visits
    ensures multiset(Steals(thief, i, n))[Local(j)] == Bit(Victim(thief, i, n) == j && j != thief) + visits
  {
    var v, rest := Victim(thief, i, n), Steals(thief, i + 1, n);
    StealsStep(thief, i, n);
    if v != thief {
      assert multiset([Local(v)] + rest) == multiset{Local(v)} + multiset(rest);
    }
  }

  /** A steal scan probes every other worker's queue exactly once, never the thief's. */
  lemma StealScanIsComplete(thief: nat, n: nat, j: nat)
    requires thief < n && j < n
    ensures multiset(Steals(thief, 0, n))[Local(j)] == Bit(j != thief)
  {
    StealsAreVisits(thief, 0, n, j);
    VisitsOnce(thief, 0, n, j);
  }

  /** A round probes the global queue and the worker's own once each, and with stealing
      every other worker's once; its own comes before any other worker's, and the
      global queue first with priority and last without. */
  lemma RoundProbes(cfg: Config, w: nat, j: nat)
    requires w < cfg.workers && j < cfg.workers
    ensures var p := Plan(cfg, w);
            && multiset(p)[Global] == 1
            && multiset(p)[Local(j)] == Bit(j == w || cfg.stealing)
            && |p| >= 2 && p[if cfg.priority then 1 else 0] == Local(w)
            && p[if cfg.priority then 0 else |p| - 1] == Global
  {
    PlanInRange(cfg, w);
    PlanCounts(cfg, w, j);
  }

  lemma PlanCounts(cfg: Config, w: nat, j: nat)
    requires w < cfg.workers && j < cfg.workers
    ensures multiset(Plan(cfg, w))[Global] == 1 && multiset(Plan(cfg, w))[Local(j)] == Bit(j == w || cfg.stealing)
  {
    var steals := if cfg.stealing then Steals(w, 0, cfg.workers) else [];
    if cfg.stealing {
      StealScanIsComplete(w, cfg.workers, j);
      StealsInRange(w, 0, cfg.workers);
    }
    CountsInPlan(steals, w, j);
  }

  lemma CountsInPlan(steals: seq<Target>, w: nat, j: nat)
    requires Global !in steals
    ensures multiset([Global, Local(w)] + steals)[Global] == 1 == multiset([Local(w)] + steals + [Global])[Global]
    ensures multiset([Global, Local(w)] + steals)[Local(j)] == Bit(j == w) + multiset(steals)[Local(j)]
    ensures multiset([Local(w)] + steals + [Global])[Local(j)] == Bit(j == w) + multiset(steals)[Local(j)]
  {
  }

  // ---- the spread of submits ----

  /** How many of `m` consecutive submits, starting at counter value `c`, have
      worker `j` of `n` as their first choice. */
  ghost function Chosen(c: nat, m: nat, n: nat, j: nat): nat {
    if m == 0 then 0 else Chosen(c, m - 1, n, j) + (if Rem(c + m - 1, n) == j then 1 else 0)
  }

  lemma RemDistinct(x: nat, y: nat, n: nat)
    requires n > 0 && x < y < x + n
    ensures Rem(x, n) != Rem(y, n)
  {
    RemShift(x, y - x, n);
  }

  lemma {:induction false} ChosenHas(c: nat, m: nat, n: nat, j: nat, x: nat)
    requires c <= x < c + m && Rem(x, n) == j
    ensures Chosen(c, m, n, j) >= 1
  {
    if x < c + m - 1 {
      ChosenHas(c, m - 1, n, j, x);
    }
  }

  lemma {:induction false} ChosenSource(c: nat, m: nat, n: nat, j: nat) returns (x: nat)
    requires Chosen(c, m, n, j) >= 1
    ensures c <= x < c + m && Rem(x, n) == j
  {
    if Rem(c + m - 1, n) == j {
      x := c + m - 1;
    } else {
      x := ChosenSource(c, m - 1, n, j);
    }
  }

  /** At most a turn of submits choose each worker at most once. */
  lemma {:induction false} ChosenAtMostOnce(c: nat, m: nat, n: nat, j: nat)
    requires m <= n
    ensures Chosen(c, m, n, j) <= 1
  {
    if m > 0 {
      ChosenAtMostOnce(c, m - 1, n, j);
      if Chosen(c, m - 1, n, j) == 1 {
        var x := ChosenSource(c, m - 1, n, j);
        RemDistinct(x, c + m - 1, n);
      }
    }
  }

  /** A whole turn chooses each worker exactly once. */
  lemma ChosenOncePerTurn(c: nat, n: nat, j: nat)
    requires j < n
    ensures Chosen(c, n, n, j) == 1
  {
    ChosenAtMostOnce(c, n, n, j);
    var d := if Rem(c, n) <= j then j - Rem(c, n) else n + j - Rem(c, n);
    RemShift(c, d, n);
    ChosenHas(c, n, n, j, c + d);
  }

  lemma {:induction false} RemShift(c: nat, d: nat, n: nat)
    requires d < n
    ensures Rem(c + d, n) == if Rem(c, n) + d < n then Rem(c, n) + d else Rem(c, n) + d - n
  {
    if c >= n {
      RemShift(c - n, d, n);
    } else if c + d >= n {
      assert Rem(c + d, n) == Rem(c + d - n, n);
    }
  }

  lemma {:induction false} ChosenSplit(c: nat, a: nat, m: nat, n: nat, j: nat)
    ensures Chosen(c, a + m, n, j) == Chosen(c, a, n, j) + Chosen(c + a, m, n, j)
  {
    if m > 0 {
      ChosenSplit(c, a, m - 1, n, j);
      assert c + (a + m) - 1 == (c + a) + m - 1;
    }
  }

  lemma {:induction false} ChosenSpread(c: nat, m: nat, n: nat, j: nat, q: nat, r: nat)
    requires j < n && r < n && m == q * n + r
    ensures q <= Chosen(c, m, n, j) <= if r == 0 then q else q + 1
    decreases q
  {
    if q == 0 {
      ChosenAtMostOnce(c, r, n, j);
    } else {
      assert m - n == (q - 1) * n + r;
      ChosenSplit(c, n, m - n, n, j);
      ChosenOncePerTurn(c, n, j);
      ChosenSpread(c + n, m - n, n, j, q - 1, r);
    }
  }

  /** Thread `k` makes the first push of a normal-path submit. */
  ghost predicate Picks(s: State, a: Action, k: nat) {
    && a == CStep(k) && k < |s.calls| && s.calls[k].SubPush?
    && !(s.cfg.priority && s.calls[k].task.priority >= PRIORITY_HIGH)
  }

  /** What a try to push `t` on queue `q` has made of the queues, the call and the
      history: nothing but `otherwise` if the queue was full, else `t` is its last task
      and accepted. */
  ghost predicate Lands(s: State, s': State, k: nat, t: Task, q: Target, otherwise: Call) {
    && Has(s, q) && k < |s.calls|
    && if QueueAt(s, q).Full() then
         && s'.global == s.global && s'.locals == s.locals && s'.log == s.log
         && s'.calls == s.calls[k := otherwise]
       else
         && s'.global == (if q.Global? then s.global.Push(t) else s.global)
         && s'.locals == (if q.Global? then s.locals else s.locals[q.w := s.locals[q.w].Push(t)])
         && s'.calls == s.calls[k := SubDone(t, OK)] && s'.log.accepted == s.log.accepted + {t}
  }

  /** Where the pushes of a submit go: a normal task first to the worker that the
      thread's counter says, modulo the number of workers, and when that queue is full to
      the global one; an urgent one to the global one; when that is full the submit takes
      its count back and answers OVERFLOW. */
  lemma PushLands(s: State, k: nat)
    requires Shape(s) && Enabled(s, CStep(k)) && (s.calls[k].SubPush? || s.calls[k].SubSpill?)
    ensures var s', t := Apply(s, CStep(k)), s.calls[k].task;
            && k < |s.next| && s.cfg.workers > 0
            && if Picks(s, CStep(k), k)
               then Lands(s, s', k, t, Local(s.next[k] % s.cfg.workers), SubSpill(t))
               else Lands(s, s', k, t, Global, SubUndo(t))
  {
    RemIsMod(s.next[k], s.cfg.workers);
  }

  /** That first push was a try at worker `j`'s queue. */
  ghost predicate Tries(s: State, a: Action, k: nat, j: nat)
    requires Shape(s) && Enabled(s, a)
  {
    && Picks(s, a, k) && k < |s.next| && s.cfg.workers > 0 && s.next[k] % s.cfg.workers == j
    && Lands(s, Apply(s, a), k, s.calls[k].task, Local(j), SubSpill(s.calls[k].task))
  }

  lemma PickTries(s: State, a: Action, k: nat, j: nat)
    requires Shape(s) && Enabled(s, a) && k < |s.next| && s.cfg.workers > 0
    ensures Tries(s, a, k, j) <==> Picks(s, a, k) && Rem(s.next[k], s.cfg.workers) == j
  {
    RemIsMod(s.next[k], s.cfg.workers);
    if Picks(s, a, k) { PushLands(s, k); }
  }

  /** How many of the normal-path submits of thread `k` in a run try worker `j`'s queue. */
  ghost function TriesOf(s: State, acts: seq<Action>, k: nat, j: nat): nat
    requires Legal(s, acts)
    decreases |acts|
  {
    if acts == [] then 0
    else (if Tries(s, acts[0], k, j) then 1 else 0) + TriesOf(Apply(s, acts[0]), acts[1..], k, j)
  }

  /** The counter values with which thread `k` makes such pushes in a run, in order. */
  ghost function Counters(s: State, acts: seq<Action>, k: nat): seq<nat>
    requires Legal(s, acts)
    decreases |acts|
  {
    if acts == [] then []
    else (if Picks(s, acts[0], k) && k < |s.next| then [s.next[k]] else []) + Counters(Apply(s, acts[0]), acts[1..], k)
  }

  /** How many of the first `m` counter values have worker `j` of `n` as first choice. */
  ghost function Choosing(cs: seq<nat>, m: nat, n: nat, j: nat): nat
    requires m <= |cs|
  {
    if m == 0 then 0 else Choosing(cs, m - 1, n, j) + Bit(Rem(cs[m - 1], n) == j)
  }

  lemma {:induction false} ChoosingCons(c: nat, cs: seq<nat>, m: nat, n: nat, j: nat)
    requires m <= |cs|
    ensures Choosing([c] + cs, m + 1, n, j) == Bit(Rem(c, n) == j) + Choosing(cs, m, n, j)
  {
    if m > 0 {
      ChoosingCons(c, cs, m - 1, n, j);
      assert ([c] + cs)[m] == cs[m - 1];
    }
  }

  /** The tries at `j` are the counter values that choose it. */
  lemma {:induction false} TriesAreChoosing(s: State, acts: seq<Action>, k: nat, j: nat)
    requires Legal(s, acts) && k < |s.calls|
    ensures var cs := Counters(s, acts, k); TriesOf(s, acts, k, j) == Choosing(cs, |cs|, s.cfg.workers, j)
    decreases |acts|
  {
    if acts != [] {
      var s' := Apply(s, acts[0]);
      var c', rest := CountersNext(s, acts, k);
      CounterStep(s, acts[0], k);
      PickTries(s, acts[0], k, j);
      TriesAreChoosing(s', acts[1..], k, j);
      if Picks(s, acts[0], k) {
        ChoosingCons(s.next[k], rest, |rest|, s.cfg.workers, j);
      } else {
        assert [] + rest == rest;
      }
    }
  }

  /** Only these submits move the thread's counter, by one. */
  lemma CounterStep(s: State, a: Action, k: nat)
    requires Shape(s) && Enabled(s, a) && k < |s.calls|
    ensures var s' := Apply(s, a);
            && k < |s'.calls| && k < |s'.next| && s'.cfg == s.cfg
            && s'.next[k] == if Picks(s, a, k) then Bump(s.next[k]) else s.next[k]
  {
    SameThreads(s, a);
    ShapeKept(s, a);
    if a == CStep(k) {
      OwnCounter(s, k);
    } else {
      SameHome(s, a, k);
    }
  }

  lemma OwnCounter(s: State, k: nat)
    requires Shape(s) && Enabled(s, CStep(k)) && |Apply(s, CStep(k)).next| == |s.next|
    ensures var s' := Apply(s, CStep(k));
            && s'.cfg == s.cfg
            && s'.next[k] == if Picks(s, CStep(k), k) then Bump(s.next[k]) else s.next[k]
  {
    if InCancel(s.calls[k]) {
      assert CallShape(s, k, s.calls[k]);
    }
  }

  ghost predicate InOrder(cs: seq<nat>, c: nat) {
    forall i :: 0 <= i < |cs| ==> cs[i] == c + i
  }

  lemma NoWrap(c: nat, c': nat, picked: bool, m: nat)
    requires c' == (if picked then Bump(c) else c) && c + Bit(picked) + m < WORD32
    ensures c' == c + Bit(picked)
  {
  }

  /** One more value in front, or none. */
  lemma InOrderNext(all: seq<nat>, rest: seq<nat>, c: nat, c': nat, picked: bool)
    requires c' == c + Bit(picked)
    requires all == (if picked then [c] else []) + rest && InOrder(rest, c')
    ensures InOrder(all, c)
  {
    assert picked ==> forall i :: 0 < i < |all| ==> all[i] == rest[i - 1];
  }

  /** While it does not wrap, the counter takes consecutive values. */
  lemma {:induction false} CountersInOrder(s: State, acts: seq<Action>, k: nat)
    requires Legal(s, acts) && k < |s.calls| && s.next[k] + |Counters(s, acts, k)| < WORD32
    ensures InOrder(Counters(s, acts, k), s.next[k])
    decreases |acts|
  {
    if acts != [] {
      var c', rest := CountersNext(s, acts, k);
      NoWrap(s.next[k], c', Picks(s, acts[0], k), |rest|);
      CountersInOrder(Apply(s, acts[0]), acts[1..], k);
      InOrderNext(Counters(s, acts, k), rest, s.next[k], c', Picks(s, acts[0], k));
    }
  }

  /** The values of a run from its first action and the rest. */
  lemma CountersNext(s: State, acts: seq<Action>, k: nat) returns (c': nat, rest: seq<nat>)
    requires Legal(s, acts) && acts != [] && k < |s.calls|
    ensures var s' := Apply(s, acts[0]);
            k < |s'.calls| && k < |s'.next| && c' == s'.next[k] && rest == Counters(s', acts[1..], k)
    ensures c' == if Picks(s, acts[0], k) then Bump(s.next[k]) else s.next[k]
    ensures Counters(s, acts, k) == (if Picks(s, acts[0], k) then [s.next[k]] else []) + rest
  {
    var s' := Apply(s, acts[0]);
    CounterStep(s, acts[0], k);
    c', rest := s'.next[k], Counters(s', acts[1..], k);
  }

  lemma {:induction false} CountsAreChosen(cs: seq<nat>, c: nat, m: nat, n: nat, j: nat)
    requires m <= |cs| && InOrder(cs, c)
    ensures Choosing(cs, m, n, j) == Chosen(c, m, n, j)
  {
    if m > 0 {
      CountsAreChosen(cs, c, m - 1, n, j);
      assert cs[m - 1] == c + m - 1;
    }
  }

  /** Fair spread, over every run in which the thread's counter does not wrap: of its
      m = q*n + r consecutive normal-path submits, q or, if r > 0, at most q + 1 try the
      queue of any one of the n workers first, whatever other threads do. */
  lemma FairSpread(s: State, acts: seq<Action>, k: nat, j: nat, q: nat, r: nat)
    requires Legal(s, acts) && k < |s.calls| && s.next[k] + |Counters(s, acts, k)| < WORD32
    requires j < s.cfg.workers && r < s.cfg.workers && |Counters(s, acts, k)| == q * s.cfg.workers + r
    ensures q <= TriesOf(s, acts, k, j) <= if r == 0 then q else q + 1
  {
    var cs := Counters(s, acts, k);
    CountersInOrder(s, acts, k);
    TriesAreChoosing(s, acts, k, j);
    CountsAreChosen(cs, s.next[k], |cs|, s.cfg.workers, j);
    ChosenSpread(s.next[k], |cs|, s.cfg.workers, j, q, r);
  }

  // ---- room ----

  function RoomOf(f: Fifo): int { f.room }

  /** Without a cancel_all, tasks_pending is at most the room of all queues, plus one
      task in each worker's hand, plus one per thread inside a submit. */
  lemma PendingBounded(s: State)
    requires Sound(s) && s.log.dropped == [] && forall k :: 0 <= k < |s.calls| ==> !InCancel(s.calls[k])
    ensures 0 <= s.count.pending <= s.global.room + Total(RoomOf, s.locals) + |s.workers| + |s.calls|
    ensures 0 <= s.count.active <= |s.workers|
  {
    TotalRange(Pledged, s.calls, 1);
    TotalRange(PickedUp, s.workers, 1);
    TotalRange(Executing, s.workers, 1);
    TotalRange(Drained, s.calls, 0);
    TotalNonNegative(QueueLength, s.locals);
    TotalToMono(QueueLength, RoomOf, s.locals, |s.locals|);
  }
}
