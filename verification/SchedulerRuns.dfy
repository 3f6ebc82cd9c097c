/** The step-by-step results put together over whole runs from a scheduler just
    created: any number of workers and clients, either setting of stealing and
    priority, any interleaving. */
module SchedulerRuns {
  import opened Common
  import opened SchedulerModel
  import opened SchedulerShape
  import opened SchedulerPlaces
  import opened SchedulerLedger
  import opened SchedulerIdle
  import opened SchedulerShutdown
  import opened SchedulerSafe

  /** From `s` to `s'` by `acts`. */
  ghost predicate Leads(s: State, acts: seq<Action>, s': State) {
    Legal(s, acts) && Run(s, acts) == s'
  }

  lemma Nothing(s: State)
    requires Shape(s)
    ensures Leads(s, [], s)
  {
  }

  lemma {:induction false} Then(s: State, acts: seq<Action>, s1: State, a: Action)
    requires Leads(s, acts, s1) && Enabled(s1, a)
    ensures Leads(s, acts + [a], Apply(s1, a))
    decreases |acts|
  {
    if acts == [] {
      assert [a][1..] == [];
      ShapeKept(s1, a);
    } else {
      Then(Apply(s, acts[0]), acts[1..], s1, a);
      assert (acts + [a])[1..] == acts[1..] + [a];
    }
  }

  lemma Cons(s: State, a: Action, rest: seq<Action>, s': State)
    requires Shape(s) && Enabled(s, a) && Leads(Apply(s, a), rest, s')
    ensures Leads(s, [a] + rest, s')
  {
    assert ([a] + rest)[1..] == rest;
  }

  lemma Uncons(s: State, acts: seq<Action>, s': State)
    requires Leads(s, acts, s') && acts != []
    ensures Shape(s) && Enabled(s, acts[0]) && Leads(Apply(s, acts[0]), acts[1..], s')
  {
  }

  lemma ConsAppend<T>(xs: seq<T>, ys: seq<T>)
    requires xs != []
    ensures [xs[0]] + (xs[1..] + ys) == xs + ys
  {
  }

  lemma {:induction false} Append(s: State, xs: seq<Action>, s1: State, ys: seq<Action>, s2: State)
    requires Leads(s, xs, s1) && Leads(s1, ys, s2)
    ensures Leads(s, xs + ys, s2)
    decreases |xs|
  {
    if xs == [] {
      assert xs + ys == ys;
    } else {
      Uncons(s, xs, s1);
      Append(Apply(s, xs[0]), xs[1..], s1, ys, s2);
      Cons(s, xs[0], xs[1..] + ys, s2);
      ConsAppend(xs, ys);
    }
  }

  /** One more action of a run whose states are written out. */
  lemma Next(s: State, acts: seq<Action>, s1: State, a: Action, s2: State) returns (acts': seq<Action>)
    requires Leads(s, acts, s1) && Shape(s1) && Enabled(s1, a) && Apply(s1, a) == s2
    ensures Leads(s, acts', s2) && Shape(s2)
  {
    acts' := acts + [a];
    Then(s, acts, s1, a);
    ShapeKept(s1, a);
  }

  // ---- everything known of a state ----

  ghost predicate Known(s: State) {
    Sound(s) && SnapsSound(s) && Closing(s) && Guarded(s)
  }

  lemma KnownKept(s: State, a: Action)
    requires Known(s) && Enabled(s, a)
    ensures Known(Apply(s, a))
  {
    SoundKept(s, a);
    SnapsKept(s, a);
    ClosingKept(s, a);
    GuardedKept(s, a);
  }

  lemma InitialKnown(cfg: Config, localRoom: nat, globalRoom: nat, clients: nat)
    requires cfg.workers > 0
    ensures Known(Initial(cfg, localRoom, globalRoom, clients))
  {
    InitialShape(cfg, localRoom, globalRoom, clients);
    InitialConserved(cfg, localRoom, globalRoom, clients);
    InitialLedger(cfg, localRoom, globalRoom, clients);
  }

  lemma {:induction false} KnownOverRun(s: State, acts: seq<Action>)
    requires Known(s) && Legal(s, acts)
    ensures Known(Run(s, acts))
    decreases |acts|
  {
    if acts != [] {
      KnownKept(s, acts[0]);
      KnownOverRun(Apply(s, acts[0]), acts[1..]);
    }
  }

  // ---- the main results ----

  /** Exactly once: in every state that can be reached, a task that was accepted is in
      exactly one place (one queue, one worker's hand, one cancel batch, the executed,
      the dropped), any other task is in none, and nothing is executed or dropped
      twice or without having been accepted. */
  lemma ExactlyOnce(start: State, acts: seq<Action>, t: Task)
    requires Known(start) && Legal(start, acts)
    ensures var s := Run(start, acts);
            && Waiting(s, t) + Held(s, t) + Settled(s, t) == Bit(t in s.log.accepted)
            && Waiting(s, t) >= 0 && Held(s, t) >= 0
            && multiset(s.log.ran)[t] + multiset(s.log.dropped)[t] <= 1
  {
    KnownOverRun(start, acts);
    var s := Run(start, acts);
    assert ConservedFor(s, t);
    TotalNonNegative(Queueing(t), s.locals);
    TotalNonNegative(Handling(t), s.workers);
    TotalNonNegative(Batching(t), s.calls);
  }

  /** Shutdown over whole runs: when fq_scheduler_shutdown has joined its workers, and
      the flag was first stored with no harmful submit in its window, all queues are
      empty and every accepted task was executed or dropped by a cancel_all, once and
      not both. */
  lemma ShutdownLeavesNothing(cfg: Config, localRoom: nat, globalRoom: nat, clients: nat, acts: seq<Action>,
                              k: nat, t: Task)
    requires cfg.workers > 0 && Legal(Initial(cfg, localRoom, globalRoom, clients), acts)
    requires var s := Run(Initial(cfg, localRoom, globalRoom, clients), acts);
             && s.shut.safe && k < |s.calls| && s.calls[k].ShutDone?
             && forall j :: 0 <= j < |s.calls| ==> !InCancel(s.calls[j])
    ensures var s := Run(Initial(cfg, localRoom, globalRoom, clients), acts);
            && Queued(s) == 0
            && (t in s.log.accepted ==>
                 && (t in s.log.ran <==> t !in s.log.dropped)
                 && multiset(s.log.ran)[t] + multiset(s.log.dropped)[t] == 1)
  {
    InitialKnown(cfg, localRoom, globalRoom, clients);
    KnownOverRun(Initial(cfg, localRoom, globalRoom, clients), acts);
    var s := Run(Initial(cfg, localRoom, globalRoom, clients), acts);
    ShutdownFinishesAll(s, k, t);
    if t in s.log.accepted {
      TotalRange(Batching(t), s.calls, 0);
    }
  }
}
