/** Two runs that show the conditions of the theorems are needed: a submit that has
    passed its flag check can be accepted and lost after shutdown is through, and
    is_idle can answer true while a task is queued. */
module SchedulerWitness {
  import opened Common
  import opened SchedulerModel
  import opened SchedulerRuns

  /** One worker, neither stealing nor priority, two client threads. */
  function Start(): State {
    State(Config(1, false, false), Fifo([], 0, 63), [Fifo([], 0, 63)], Shut(false, false, false),
          Counters(0, 0, 0, 0, 0), [Worker(Top, None)], [NoCall, NoCall, NoCall], [0, 0, 0],
          History({}, {}, {}, [], [], [], []))
  }

  lemma StartIsInitial()
    ensures Start() == Initial(Config(1, false, false), 63, 63, 2)
    ensures Shape(Start())
  {
  }

  // ---- a submit lost in shutdown ----

  /** The submitter has passed its flag check when shutdown stores the flag. */
  function Late(t: Task): State {
    Start().(shut := Shut(true, false, false), calls := [NoCall, SubCount(t), ShutJoin(0)],
             log := History({t}, {}, {}, [], [], [], []))
  }

  lemma ReachLate(t: Task) returns (acts: seq<Action>)
    ensures Leads(Start(), acts, Late(t)) && Shape(Late(t))
  {
    StartIsInitial();
    Nothing(Start());
    var s0 := Start();
    var s1 := s0.(calls := [NoCall, SubFlag(t), NoCall], log := s0.log.(unraised := {t}));
    acts := Next(s0, [], s0, Begin(1, SubFlag(t)), s1);
    var s2 := s1.(calls := [NoCall, SubCount(t), NoCall]);
    acts := Next(s0, acts, s1, CStep(1), s2);
    var s3 := s2.(calls := [NoCall, SubCount(t), ShutFlag]);
    acts := Next(s0, acts, s2, Begin(2, ShutFlag), s3);
    var x := SetCall(s3, 2, ShutJoin(0));
    assert InWindow(x.calls[1]);
    assert !NoneInWindow(x);
    assert Harmful(x, 1);
    assert !NoneHarmful(x);
    assert x.calls == Late(t).calls;
    acts := Next(s0, acts, s3, CStep(2), Late(t));
  }

  /** The worker finds both queues empty and stops. */
  function Abandoned(t: Task): State {
    Late(t).(workers := [Worker(Stopped, Some(1))])
  }

  /** The exit test of the only worker, with both queues empty. */
  function Checking(t: Task, pc: WPc): State {
    Late(t).(workers := [Worker(pc, Some(1))])
  }

  /** The late submit is all there is to be pushed. */
  lemma LateLoad(t: Task)
    ensures Load(Late(t)) == 1
  {
    var s, rest := Late(t), [NoCall, NoCall, ShutJoin(0)];
    TotalRange(QueueLength, s.locals, 0);
    TotalRange(Windowing, rest, 0);
    TotalUpdate(Windowing, rest, 1, SubCount(t));
    assert rest[1 := SubCount(t)] == s.calls;
  }

  lemma ReachChecking(t: Task) returns (acts: seq<Action>)
    ensures Leads(Start(), acts, Checking(t, ExitOwnHead))
  {
    acts := ReachLate(t);
    var s0, s := Start(), Late(t);
    LateLoad(t);
    acts := Next(s0, acts, s, WStep(0), Checking(t, ExitGlobalHead));
    acts := Next(s0, acts, Checking(t, ExitGlobalHead), WStep(0), Checking(t, ExitGlobalTail(0)));
    acts := Next(s0, acts, Checking(t, ExitGlobalTail(0)), WStep(0), Checking(t, ExitOwnHead));
  }

  lemma ReachAbandoned(t: Task) returns (acts: seq<Action>)
    ensures Leads(Start(), acts, Abandoned(t))
  {
    acts := ReachChecking(t);
    var s0 := Start();
    acts := Next(s0, acts, Checking(t, ExitOwnHead), WStep(0), Checking(t, ExitOwnTail(0)));
    acts := Next(s0, acts, Checking(t, ExitOwnTail(0)), WStep(0), Abandoned(t));
  }

  /** Then the push succeeds and shutdown gets through its join. */
  function Lost(t: Task): State {
    Abandoned(t).(
      count := Counters(1, 0, 0, 1, 0), locals := [Fifo([t], 0, 63)], next := [0, 1, 0],
      calls := [NoCall, SubDone(t, OK), ShutDone], log := History({}, {}, {t}, [], [], [], []))
  }

  function Pushing(t: Task): State {
    Abandoned(t).(calls := [NoCall, SubPush(t), ShutJoin(0)], count := Counters(1, 0, 0, 1, 0),
                  log := History({}, {t}, {}, [], [], [], []))
  }

  lemma ReachPushing(t: Task) returns (acts: seq<Action>)
    ensures Leads(Start(), acts, Pushing(t))
  {
    acts := ReachAbandoned(t);
    var s0, s := Start(), Abandoned(t);
    var s1 := s.(calls := [NoCall, SubRaise(t), ShutJoin(0)], count := Counters(1, 0, 0, 0, 0));
    acts := Next(s0, acts, s, CStep(1), s1);
    assert {t} - {t} == {} && {} + {t} == {t};
    acts := Next(s0, acts, s1, CStep(1), Pushing(t));
  }

  lemma ReachPushed(t: Task) returns (acts: seq<Action>)
    requires t.priority < PRIORITY_HIGH
    ensures Leads(Start(), acts, Lost(t).(calls := [NoCall, SubDone(t, OK), ShutJoin(0)]))
  {
    acts := ReachPushing(t);
    assert {t} - {t} == {} && {} + {t} == {t} && [] + [t] == [t];
    acts := Next(Start(), acts, Pushing(t), CStep(1), Lost(t).(calls := [NoCall, SubDone(t, OK), ShutJoin(0)]));
  }

  lemma ReachLost(t: Task) returns (acts: seq<Action>)
    requires t.priority < PRIORITY_HIGH
    ensures Leads(Start(), acts, Lost(t))
  {
    acts := ReachPushed(t);
    var s0, s := Start(), Lost(t);
    var s1 := s.(calls := [NoCall, SubDone(t, OK), ShutJoin(0)]);
    var s2 := s.(calls := [NoCall, SubDone(t, OK), ShutJoin(1)]);
    acts := Next(s0, acts, s1, CStep(2), s2);
    acts := Next(s0, acts, s2, CStep(2), s);
  }

  /** "Waits for all pending tasks to complete" fails without the quiet flag store:
      fq_scheduler_submit returned OK, fq_scheduler_shutdown is through, and the
      task is in a queue that nobody will ever look at again. */
  lemma LateSubmitIsLost(t: Task)
    requires t.priority < PRIORITY_HIGH
    ensures exists acts :: Leads(Start(), acts, Lost(t))
    ensures var s := Lost(t);
            && s.calls[1] == SubDone(t, OK) && s.calls[2] == ShutDone
            && t in s.log.accepted && t !in s.log.ran && t !in s.log.dropped
            && s.locals[0].Items() == [t] && s.workers[0].pc == Stopped && !s.shut.quiet
  {
    var acts := ReachLost(t);
  }

  // ---- a true answer with a task queued ----

  function Asking(): State {
    Start().(calls := [NoCall, IdleActive2(0, {}), NoCall])
  }

  lemma ReachAsking() returns (acts: seq<Action>)
    ensures Leads(Start(), acts, Asking()) && Shape(Asking())
  {
    StartIsInitial();
    Nothing(Start());
    var s0 := Start();
    var s1 := s0.(calls := [NoCall, IdlePending1, NoCall]);
    acts := Next(s0, [], s0, Begin(1, IdlePending1), s1);
    var s2 := s0.(calls := [NoCall, IdleActive1(0), NoCall]);
    acts := Next(s0, acts, s1, CStep(1), s2);
    var s3 := s0.(calls := [NoCall, IdlePending2, NoCall]);
    acts := Next(s0, acts, s2, CStep(1), s3);
    assert s3.log.offered + s3.log.accepted == {};
    acts := Next(s0, acts, s3, CStep(1), Asking());
  }

  function Fooled(t: Task): State {
    Start().(count := Counters(1, 0, 0, 1, 0), locals := [Fifo([t], 0, 63)], next := [0, 0, 1],
             calls := [NoCall, IdleDone(true, {}), SubDone(t, OK)], log := History({}, {}, {t}, [], [], [], []))
  }

  /** Meanwhile another thread is in its submit. */
  function Submitting(t: Task, c: Call, submitted: nat): State {
    Asking().(calls := [NoCall, IdleActive2(0, {}), c], count := Counters(submitted, 0, 0, 0, 0),
              log := History({t}, {}, {}, [], [], [], []))
  }

  lemma ReachSubmitting(t: Task) returns (acts: seq<Action>)
    ensures Leads(Start(), acts, Submitting(t, SubRaise(t), 1))
  {
    acts := ReachAsking();
    var s0 := Start();
    assert {} + {t} == {t};
    acts := Next(s0, acts, Asking(), Begin(2, SubFlag(t)), Submitting(t, SubFlag(t), 0));
    acts := Next(s0, acts, Submitting(t, SubFlag(t), 0), CStep(2), Submitting(t, SubCount(t), 0));
    acts := Next(s0, acts, Submitting(t, SubCount(t), 0), CStep(2), Submitting(t, SubRaise(t), 1));
  }

  lemma ReachFooled(t: Task) returns (acts: seq<Action>)
    requires t.priority < PRIORITY_HIGH
    ensures Leads(Start(), acts, Fooled(t))
  {
    acts := ReachSubmitting(t);
    var s0, s, c := Start(), Submitting(t, SubRaise(t), 1), IdleActive2(0, {});
    assert {t} - {t} == {} && {} + {t} == {t} && [] + [t] == [t];
    var s1 := s.(calls := [NoCall, c, SubPush(t)], count := Counters(1, 0, 0, 1, 0),
                 log := History({}, {t}, {}, [], [], [], []));
    acts := Next(s0, acts, s, CStep(2), s1);
    acts := ReachBehind(t, acts, s1);
    acts := Next(s0, acts, Fooled(t).(calls := [NoCall, c, SubDone(t, OK)]), CStep(1), Fooled(t));
  }

  lemma ReachBehind(t: Task, acts: seq<Action>, s1: State) returns (acts': seq<Action>)
    requires t.priority < PRIORITY_HIGH
    requires s1 == Start().(calls := [NoCall, IdleActive2(0, {}), SubPush(t)], count := Counters(1, 0, 0, 1, 0),
                            log := History({}, {t}, {}, [], [], [], []))
    requires Leads(Start(), acts, s1)
    ensures Leads(Start(), acts', Fooled(t).(calls := [NoCall, IdleActive2(0, {}), SubDone(t, OK)]))
  {
    assert {t} - {t} == {} && {} + {t} == {t} && [] + [t] == [t];
    acts' := Next(Start(), acts, s1, CStep(2), Fooled(t).(calls := [NoCall, IdleActive2(0, {}), SubDone(t, OK)]));
  }

  /** A true answer does not mean that no task is pending: a submit after the second
      read of tasks_pending goes unnoticed. */
  lemma TrueAnswerWithTaskQueued(t: Task)
    requires t.priority < PRIORITY_HIGH
    ensures exists acts :: Leads(Start(), acts, Fooled(t))
    ensures var s := Fooled(t);
            s.calls[1] == IdleDone(true, {}) && s.count.pending == 1 && s.locals[0].Items() == [t]
  {
    var acts := ReachFooled(t);
  }
}
