/** worker_main and try_steal of src/scheduler/scheduler.c as code that runs among other
    threads, each of its atomic actions one of the machine's. */
module SchedulerWorker {
  import opened Common
  import opened Bits
  import opened SchedulerModel
  import opened SchedulerShape
  import opened SchedulerShutdown
  import opened SchedulerRuns
  import opened SchedulerCode

  /** Worker `w` is at `pc`, in no call, in a round it began at the moment `s0`. */
  ghost predicate At(sch: Scheduler, w: nat, pc: WPc, s0: Moment)
    reads sch
  {
    && sch.Valid() && w < |sch.s.workers| && w < |sch.s.calls|
    && sch.s.workers[w].pc == pc && sch.s.calls[w] == NoCall && sch.Since(s0)
  }

  method Yield(sch: Scheduler, w: nat, ghost pc: WPc, ghost s0: Moment)
    requires At(sch, w, pc, s0)
    modifies sch
    ensures At(sch, w, pc, s0) && Precedes(old(sch.Now()), sch.Now())
  {
    sch.Reached();
    ghost var m := sch.Now();
    ghost var acts := sch.Others(w);
    Append(sch.start, m.past, m.s, acts, sch.s);
    LaterRun(m.s, acts);
    UntouchedRun(m.s, acts, w);
    PrecedesTrans(s0, m, sch.Now());
  }

  /** At the moment `m` worker `w` was at `pc` and took its next action. */
  ghost predicate Moved(start: State, w: nat, from: Moment, m: Moment, pc: WPc, to: Moment) {
    Acted(start, from, m, WStep(w), to) && w < |m.s.workers| && m.s.workers[w].pc == pc
  }

  lemma MovedWider(start: State, w: nat, from: Moment, m: Moment, pc: WPc, to: Moment, from': Moment, to': Moment)
    requires Moved(start, w, from, m, pc, to) && from'.past <= from.past && to.past <= to'.past
    ensures Moved(start, w, from', m, pc, to')
  {
    ActedWider(start, from, m, WStep(w), to, from', to');
  }

  // ---- fq_queue_empty ----

  /** The queue whose size the exit test or the nap loads next. */
  predicate Loads(pc: WPc, w: nat, q: Target) {
    || ((pc.ExitGlobalHead? || pc.NapGlobalHead?) && q == Global)
    || ((pc.ExitOwnHead? || pc.NapOwnHead?) && q == Local(w))
  }

  ghost function HeadLoaded(pc: WPc, h0: nat): WPc {
    match pc
    case ExitGlobalHead => ExitGlobalTail(h0)
    case ExitOwnHead => ExitOwnTail(h0)
    case NapGlobalHead => NapGlobalTail(h0)
    case NapOwnHead => NapOwnTail(h0)
    case _ => pc
  }

  /** Where the worker goes on after it has found the queue empty or not. */
  ghost function Tested(pc: WPc, w: nat, h0: nat, empty: bool): WPc {
    match pc
    case ExitGlobalHead => if empty then ExitOwnHead else Probe(0, Saw(Global, h0))
    case ExitOwnHead => if empty then Stopped else Probe(0, Saw(Local(w), h0))
    case NapGlobalHead => if empty then NapOwnHead else Top
    case NapOwnHead => if empty then Napping else Top
    case _ => pc
  }

  /** The moments of the two loads of one fq_queue_empty. */
  datatype Look = Look(head: Moment, tail: Moment)

  /** Worker `w`, at `pc`, has loaded the indices of queue `q` at the moments of `look`,
      and found the size 0 or not. */
  ghost predicate Looked(start: State, w: nat, pc: WPc, q: Target, from: Moment, look: Look, empty: bool, to: Moment) {
    && Loads(pc, w, q) && Moved(start, w, from, look.head, pc, to) && Has(look.head.s, q)
    && var h0 := QueueAt(look.head.s, q).popped;
    && Moved(start, w, look.head, look.tail, HeadLoaded(pc, h0), to) && Has(look.tail.s, q)
    && (empty <==> QueueAt(look.tail.s, q).SizeSince(h0) == 0)
  }

  lemma LookedWider(start: State, w: nat, pc: WPc, q: Target, from: Moment, look: Look, empty: bool, to: Moment,
                    from': Moment, to': Moment)
    requires Looked(start, w, pc, q, from, look, empty, to) && from'.past <= from.past && to.past <= to'.past
    ensures Looked(start, w, pc, q, from', look, empty, to')
  {
    MovedWider(start, w, from, look.head, pc, to, from', to');
    MovedWider(start, w, look.head, look.tail, look.tail.s.workers[w].pc, to, look.head, to');
  }

  /** One action of the exit test or of the nap. */
  ghost method Advance(sch: Scheduler, w: nat, pc: WPc, to: WPc, s0: Moment)
    requires At(sch, w, pc, s0) && Resting(pc) && pc != Stopped && NextRound(sch.s, w).pc == to
    modifies sch`s, sch`trace
    ensures At(sch, w, to, s0) && Moved(sch.start, w, s0, old(sch.Now()), pc, sch.Now())
  {
    sch.Do(w, WStep(w), s0);
  }

  method LoadHead(sch: Scheduler, w: nat, ghost pc: WPc, q: Target, ghost s0: Moment) returns (h0: nat)
    requires At(sch, w, pc, s0) && Loads(pc, w, q)
    modifies sch`s, sch`trace
    ensures At(sch, w, HeadLoaded(pc, h0), s0) && Moved(sch.start, w, s0, old(sch.Now()), pc, sch.Now())
    ensures Has(old(sch.s), q) && h0 == QueueAt(old(sch.s), q).popped
  {
    h0 := if q.Global? then sch.global.popped else sch.locals[q.w].popped;
    Advance(sch, w, pc, HeadLoaded(pc, h0), s0);
  }

  method LoadTail(sch: Scheduler, w: nat, ghost pc: WPc, q: Target, h0: nat, ghost s0: Moment) returns (size: nat)
    requires At(sch, w, HeadLoaded(pc, h0), s0) && Loads(pc, w, q)
    modifies sch`s, sch`trace
    ensures At(sch, w, Tested(pc, w, h0, size == 0), s0)
    ensures Moved(sch.start, w, s0, old(sch.Now()), HeadLoaded(pc, h0), sch.Now())
    ensures Has(old(sch.s), q) && size == QueueAt(old(sch.s), q).SizeSince(h0)
  {
    size := if q.Global? then sch.global.SizeSince(h0) else sch.locals[q.w].SizeSince(h0);
    Advance(sch, w, HeadLoaded(pc, h0), Tested(pc, w, h0, size == 0), s0);
  }

  method QueueEmpty(sch: Scheduler, w: nat, ghost pc: WPc, q: Target, ghost s0: Moment)
      returns (empty: bool, ghost h0: nat, ghost look: Look)
    requires At(sch, w, pc, s0) && Loads(pc, w, q)
    modifies sch
    ensures At(sch, w, Tested(pc, w, h0, empty), s0)
    ensures Looked(sch.start, w, pc, q, old(sch.Now()), look, empty, sch.Now())
    ensures old(sch.trace) <= sch.trace
  {
    ghost var m := sch.Now();
    var head := LoadHead(sch, w, pc, q, s0);
    h0 := head;
    empty, look := SecondLoad(sch, w, pc, q, head, m, s0);
  }

  /** The same, other threads first. */
  method LookAt(sch: Scheduler, w: nat, ghost pc: WPc, q: Target, ghost s0: Moment)
      returns (empty: bool, ghost h0: nat, ghost look: Look)
    requires At(sch, w, pc, s0) && Loads(pc, w, q)
    modifies sch
    ensures At(sch, w, Tested(pc, w, h0, empty), s0)
    ensures Looked(sch.start, w, pc, q, old(sch.Now()), look, empty, sch.Now())
    ensures old(sch.trace) <= sch.trace
  {
    ghost var was := sch.Now();
    Yield(sch, w, pc, s0);
    ghost var m := sch.Now();
    empty, h0, look := QueueEmpty(sch, w, pc, q, s0);
    LookedWider(sch.start, w, pc, q, m, look, empty, sch.Now(), was, sch.Now());
  }

  method SecondLoad(sch: Scheduler, w: nat, ghost pc: WPc, q: Target, h0: nat, ghost m: Moment, ghost s0: Moment)
      returns (empty: bool, ghost look: Look)
    requires At(sch, w, HeadLoaded(pc, h0), s0) && Loads(pc, w, q)
    requires Moved(sch.start, w, m, m, pc, sch.Now()) && Has(m.s, q) && h0 == QueueAt(m.s, q).popped
    modifies sch
    ensures At(sch, w, Tested(pc, w, h0, empty), s0)
    ensures Looked(sch.start, w, pc, q, m, look, empty, sch.Now())
  {
    ghost var m1 := sch.Now();
    Yield(sch, w, HeadLoaded(pc, h0), s0);
    ghost var m2 := sch.Now();
    var size := LoadTail(sch, w, pc, q, h0, s0);
    empty, look := size == 0, Look(m, m2);
    MovedWider(sch.start, w, m, m, pc, m1, m, sch.Now());
    assert m.past + [WStep(w)] <= m2.past;
  }

  // ---- the exit test and the nap ----

  /** The looks of an exit test or of a nap: at the global queue and, if that looked
      empty, at the worker's own; `both` says that both looked empty. */
  ghost predicate Tests(start: State, w: nat, first: WPc, second: WPc, from: Moment, looks: seq<Look>, both: bool,
                        to: Moment)
  {
    && 1 <= |looks| <= 2 && Looked(start, w, first, Global, from, looks[0], |looks| == 2, to)
    && (|looks| == 2 ==> Looked(start, w, second, Local(w), looks[0].tail, looks[1], both, to))
    && (both ==> |looks| == 2)
  }

  lemma TestsWider(start: State, w: nat, first: WPc, second: WPc, from: Moment, looks: seq<Look>, both: bool,
                   to: Moment, from': Moment, to': Moment)
    requires Tests(start, w, first, second, from, looks, both, to) && from'.past <= from.past && to.past <= to'.past
    ensures Tests(start, w, first, second, from', looks, both, to')
  {
    LookedWider(start, w, first, Global, from, looks[0], |looks| == 2, to, from', to');
    if |looks| == 2 {
      LookedWider(start, w, second, Local(w), looks[0].tail, looks[1], both, to, looks[0].tail, to');
    }
  }

  /** One look that found the global queue not empty. */
  lemma TestsOne(start: State, w: nat, first: WPc, second: WPc, from: Moment, global: Look, to: Moment, s0: Moment)
    requires Looked(start, w, first, Global, from, global, false, to) && s0.past <= from.past
    ensures Tests(start, w, first, second, s0, [global], false, to)
  {
    LookedWider(start, w, first, Global, from, global, false, to, s0, to);
  }

  /** Two looks one after the other. */
  lemma TestsTwo(start: State, w: nat, first: WPc, second: WPc, from: Moment, global: Look, mid: Moment,
                 own: Look, both: bool, to: Moment, s0: Moment)
    requires Looked(start, w, first, Global, from, global, true, mid) && s0.past <= from.past
    requires Looked(start, w, second, Local(w), mid, own, both, to) && mid.past <= to.past
    ensures Tests(start, w, first, second, s0, [global, own], both, to)
  {
    LookedWider(start, w, first, Global, from, global, true, mid, s0, to);
    assert global.tail.past <= mid.past;
    LookedWider(start, w, second, Local(w), mid, own, both, to, global.tail, to);
  }

  /** A round begins with a load of the flag, at the moment `flag`; if it is up the worker
      looks at both queues, and exits if and only if both look empty. */
  ghost predicate ExitTested(start: State, w: nat, from: Moment, flag: Moment, looks: seq<Look>, exit: bool,
                             to: Moment)
  {
    && Moved(start, w, from, flag, Top, to)
    && if flag.s.shut.flag then Tests(start, w, ExitGlobalHead, ExitOwnHead, flag, looks, exit, to)
       else looks == [] && !exit
  }

  lemma ExitTestedWider(start: State, w: nat, from: Moment, flag: Moment, looks: seq<Look>, exit: bool, to: Moment,
                        from': Moment, to': Moment)
    requires ExitTested(start, w, from, flag, looks, exit, to) && from'.past <= from.past && to.past <= to'.past
    ensures ExitTested(start, w, from', flag, looks, exit, to')
  {
    MovedWider(start, w, from, flag, Top, to, from', to');
    if flag.s.shut.flag {
      TestsWider(start, w, ExitGlobalHead, ExitOwnHead, flag, looks, exit, to, flag, to');
    }
  }

  method LoadFlag(sch: Scheduler, w: nat, ghost s0: Moment) returns (down: bool)
    requires At(sch, w, Top, s0)
    modifies sch`s, sch`trace
    ensures At(sch, w, if down then Probe(0, FlagDown) else ExitGlobalHead, s0)
    ensures Moved(sch.start, w, s0, old(sch.Now()), Top, sch.Now()) && down == !old(sch.s).shut.flag
  {
    down := !sch.shutdown;
    sch.Do(w, WStep(w), s0);
  }

  method ExitTest(sch: Scheduler, w: nat, ghost s0: Moment)
      returns (exit: bool, ghost why: Why, ghost flag: Moment, ghost looks: seq<Look>)
    requires At(sch, w, Top, s0)
    modifies sch
    ensures At(sch, w, if exit then Stopped else Probe(0, why), s0)
    ensures ExitTested(sch.start, w, s0, flag, looks, exit, sch.Now())
  {
    flag := sch.Now();
    SinceSelf(sch, w, Top, s0);
    var down := LoadFlag(sch, w, flag);
    exit, why, looks := false, FlagDown, [];
    ghost var m := sch.Now();
    if !down {
      exit, why, looks := LookTwice(sch, w, flag);
    }
    MovedWider(sch.start, w, flag, flag, Top, m, s0, sch.Now());
    SinceStart(sch, w, if exit then Stopped else Probe(0, why), flag, s0);
  }

  /** The worker's place seen from this moment, and from an earlier one. */
  lemma SinceSelf(sch: Scheduler, w: nat, pc: WPc, s0: Moment)
    requires At(sch, w, pc, s0)
    ensures At(sch, w, pc, sch.Now()) && Precedes(s0, sch.Now())
  {
    LaterSelf(sch.s);
  }

  lemma SinceStart(sch: Scheduler, w: nat, pc: WPc, m: Moment, s0: Moment)
    requires At(sch, w, pc, m) && Precedes(s0, m)
    ensures At(sch, w, pc, s0)
  {
    PrecedesTrans(s0, m, sch.Now());
  }

  /** The two looks with the flag up. */
  method LookTwice(sch: Scheduler, w: nat, ghost s0: Moment)
      returns (exit: bool, ghost why: Why, ghost looks: seq<Look>)
    requires At(sch, w, ExitGlobalHead, s0)
    modifies sch
    ensures At(sch, w, if exit then Stopped else Probe(0, why), s0) && old(sch.trace) <= sch.trace
    ensures Tests(sch.start, w, ExitGlobalHead, ExitOwnHead, s0, looks, exit, sch.Now())
  {
    ghost var was, h0, look := sch.Now(), 0, Look(s0, s0);
    exit, h0, look := LookAt(sch, w, ExitGlobalHead, Global, s0);
    why, looks := Saw(Global, h0), [look];
    if exit {
      exit, why, looks := LookOn(sch, w, was, look, s0);
    } else {
      TestsOne(sch.start, w, ExitGlobalHead, ExitOwnHead, was, look, sch.Now(), s0);
    }
  }

  /** The global queue looked empty. */
  method LookOn(sch: Scheduler, w: nat, ghost from: Moment, ghost look: Look, ghost s0: Moment)
      returns (exit: bool, ghost why: Why, ghost looks: seq<Look>)
    requires At(sch, w, ExitOwnHead, s0) && s0.past <= from.past
    requires Looked(sch.start, w, ExitGlobalHead, Global, from, look, true, sch.Now())
    modifies sch
    ensures At(sch, w, if exit then Stopped else Probe(0, why), s0) && old(sch.trace) <= sch.trace
    ensures Tests(sch.start, w, ExitGlobalHead, ExitOwnHead, s0, looks, exit, sch.Now())
  {
    ghost var m, own := sch.Now(), look;
    exit, why, own := OwnEmpty(sch, w, s0);
    TestsTwo(sch.start, w, ExitGlobalHead, ExitOwnHead, from, look, m, own, exit, sch.Now(), s0);
    looks := [look, own];
  }

  method OwnEmpty(sch: Scheduler, w: nat, ghost s0: Moment) returns (empty: bool, ghost why: Why, ghost look: Look)
    requires At(sch, w, ExitOwnHead, s0)
    modifies sch
    ensures At(sch, w, if empty then Stopped else Probe(0, why), s0)
    ensures Looked(sch.start, w, ExitOwnHead, Local(w), old(sch.Now()), look, empty, sch.Now())
    ensures old(sch.trace) <= sch.trace
  {
    ghost var h0;
    empty, h0, look := LookAt(sch, w, ExitOwnHead, Local(w), s0);
    why := Saw(Local(w), h0);
  }

  /** The end of a round that found nothing: the worker looks at both queues again and
      sleeps, to wake at the moment `doze`, if and only if both look empty. */
  ghost predicate Dozed(start: State, w: nat, from: Moment, looks: seq<Look>, doze: Option<Moment>, to: Moment) {
    && Tests(start, w, NapGlobalHead, NapOwnHead, from, looks, doze.Some?, to)
    && (doze.Some? ==> Moved(start, w, from, doze.value, Napping, to))
  }

  lemma DozedWider(start: State, w: nat, from: Moment, looks: seq<Look>, doze: Option<Moment>, to: Moment,
                    from': Moment, to': Moment)
    requires Dozed(start, w, from, looks, doze, to) && from'.past <= from.past && to.past <= to'.past
    ensures Dozed(start, w, from', looks, doze, to')
  {
    TestsWider(start, w, NapGlobalHead, NapOwnHead, from, looks, doze.Some?, to, from', to');
    if doze.Some? {
      MovedWider(start, w, from, doze.value, Napping, to, from', to');
    }
  }

  method Nap(sch: Scheduler, w: nat, ghost s0: Moment) returns (ghost looks: seq<Look>, ghost doze: Option<Moment>)
    requires At(sch, w, NapGlobalHead, s0)
    modifies sch
    ensures At(sch, w, Top, s0) && Dozed(sch.start, w, s0, looks, doze, sch.Now())
    ensures old(sch.trace) <= sch.trace
  {
    ghost var m0, h0, look := sch.Now(), 0, Look(s0, s0);
    var empty;
    empty, h0, look := LookAt(sch, w, NapGlobalHead, Global, s0);
    looks, doze := [look], None;
    if empty {
      looks, doze := NapOn(sch, w, m0, look, s0);
    } else {
      TestsOne(sch.start, w, NapGlobalHead, NapOwnHead, m0, look, sch.Now(), s0);
    }
  }

  /** The global queue looked empty. */
  method NapOn(sch: Scheduler, w: nat, ghost from: Moment, ghost look: Look, ghost s0: Moment)
      returns (ghost looks: seq<Look>, ghost doze: Option<Moment>)
    requires At(sch, w, NapOwnHead, s0) && s0.past <= from.past
    requires Looked(sch.start, w, NapGlobalHead, Global, from, look, true, sch.Now())
    modifies sch
    ensures At(sch, w, Top, s0) && Dozed(sch.start, w, s0, looks, doze, sch.Now())
    ensures old(sch.trace) <= sch.trace
  {
    ghost var m, own := sch.Now(), look;
    own, doze := NapOwn(sch, w, s0);
    TestsTwo(sch.start, w, NapGlobalHead, NapOwnHead, from, look, m, own, doze.Some?, sch.Now(), s0);
    looks := [look, own];
  }

  method NapOwn(sch: Scheduler, w: nat, ghost s0: Moment) returns (ghost look: Look, ghost doze: Option<Moment>)
    requires At(sch, w, NapOwnHead, s0)
    modifies sch
    ensures At(sch, w, Top, s0)
    ensures Looked(sch.start, w, NapOwnHead, Local(w), old(sch.Now()), look, doze.Some?, sch.Now())
    ensures doze.Some? ==> Moved(sch.start, w, s0, doze.value, Napping, sch.Now())
    ensures old(sch.trace) <= sch.trace
  {
    ghost var was, h0 := sch.Now(), 0;
    var empty;
    empty, h0, look := LookAt(sch, w, NapOwnHead, Local(w), s0);
    ghost var m := sch.Now();
    doze := DozeIf(sch, w, empty, s0);
    LookedWider(sch.start, w, NapOwnHead, Local(w), was, look, empty, m, was, sch.Now());
  }

  method DozeIf(sch: Scheduler, w: nat, empty: bool, ghost s0: Moment) returns (ghost doze: Option<Moment>)
    requires At(sch, w, if empty then Napping else Top, s0)
    modifies sch
    ensures At(sch, w, Top, s0) && old(sch.trace) <= sch.trace && (doze.Some? <==> empty)
    ensures doze.Some? ==> Moved(sch.start, w, s0, doze.value, Napping, sch.Now())
  {
    doze := None;
    if empty {
      ghost var woken := Doze(sch, w, s0);
      doze := Some(woken);
    }
  }

  method Doze(sch: Scheduler, w: nat, ghost s0: Moment) returns (ghost doze: Moment)
    requires At(sch, w, Napping, s0)
    modifies sch
    ensures At(sch, w, Top, s0) && Moved(sch.start, w, s0, doze, Napping, sch.Now())
    ensures old(sch.trace) <= sch.trace
  {
    Yield(sch, w, Napping, s0);
    doze := sch.Now();
    Advance(sch, w, Napping, Top, s0);
  }

  // ---- looking for a task ----

  ghost function NextProbe(cfg: Config, w: nat, i: nat, why: Why): WPc {
    if i < |Plan(cfg, w)| then Probe(i, why) else NapGlobalHead
  }

  /** Worker `w` is about to probe `q`, the i-th queue of its plan. */
  ghost predicate Probes(sch: Scheduler, w: nat, q: Target, i: nat, why: Why, s0: Moment)
    reads sch
  {
    At(sch, w, Probe(i, why), s0) && i < |Plan(sch.cfg, w)| && Plan(sch.cfg, w)[i] == q
  }

  /** fq_queue_try_pop on the next queue of the plan; `taken` says that its pop lock was
      held by another thread. */
  method TryPop(sch: Scheduler, w: nat, q: Target, taken: bool, ghost i: nat, ghost why: Why, ghost s0: Moment)
      returns (task: Option<Task>)
    requires Probes(sch, w, q, i, why, s0)
    modifies sch`global, sch`locals, sch`s, sch`trace
    ensures At(sch, w, if task.Some? then Found(task.value) else NextProbe(sch.cfg, w, i + 1, why), s0)
    ensures task.None? ==> MissAt(sch.start, sch.cfg, w, i, !taken, s0, old(sch.Now()), sch.Now())
    ensures task.Some? ==> TakeAt(sch.start, sch.cfg, w, i, s0, old(sch.Now()), task.value, sch.Now())
  {
    ProbeNext(sch.s, w, q, !taken);
    var f := if q.Global? then sch.global else sch.locals[q.w];
    if taken || f.Empty() {
      Miss(sch, w, q, taken, i, why, s0);
      task := None;
    } else {
      task := Take(sch, w, q, i, why, s0);
    }
  }

  ghost method Miss(sch: Scheduler, w: nat, q: Target, taken: bool, i: nat, why: Why, s0: Moment)
    requires Probes(sch, w, q, i, why, s0)
    requires taken || (Has(sch.s, q) && QueueAt(sch.s, q).Empty())
    modifies sch`s, sch`trace
    ensures At(sch, w, NextProbe(sch.cfg, w, i + 1, why), s0)
    ensures Acted(sch.start, s0, old(sch.Now()), if taken then WContend(w) else WStep(w), sch.Now())
  {
    ProbeNext(sch.s, w, q, !taken);
    sch.Do(w, if taken then WContend(w) else WStep(w), s0);
  }

  method Take(sch: Scheduler, w: nat, q: Target, ghost i: nat, ghost why: Why, ghost s0: Moment)
      returns (task: Option<Task>)
    requires Probes(sch, w, q, i, why, s0)
    requires Has(sch.s, q) && !QueueAt(sch.s, q).Empty()
    modifies sch`global, sch`locals, sch`s, sch`trace
    ensures task.Some? && At(sch, w, Found(task.value), s0)
    ensures Acted(sch.start, s0, old(sch.Now()), WStep(w), sch.Now())
    ensures task.value == old(QueueAt(sch.s, q).pushed[QueueAt(sch.s, q).popped])
  {
    TakeStep(sch, w, q, i, why, s0);
    var t := sch.PopHead(q);
    task := Some(t);
  }

  ghost method TakeStep(sch: Scheduler, w: nat, q: Target, i: nat, why: Why, s0: Moment)
    requires Probes(sch, w, q, i, why, s0)
    requires Has(sch.s, q) && !QueueAt(sch.s, q).Empty()
    modifies sch`s, sch`trace
    ensures sch.OnTrace() && Known(sch.start) && sch.Since(s0) && Takes(old(sch.s), w, q, sch.s)
    ensures sch.trace == old(sch.trace) + [WStep(w)]
  {
    ProbeTakes(sch.s, w, q);
    TakingMirrors(sch.s, w, q);
    sch.DoTo(w, WStep(w), Taking(sch.s, w, q), s0);
  }

  /** What changes when worker `w` takes the oldest task of `q`, and what does not. */
  ghost predicate Takes(s: State, w: nat, q: Target, s': State)
    requires Has(s, q) && w < |s.workers| && !QueueAt(s, q).Empty()
  {
    && s'.global == (if q.Global? then s.global.Pop() else s.global)
    && s'.locals == (if q.Global? then s.locals else s.locals[q.w := s.locals[q.w].Pop()])
    && s'.cfg == s.cfg && s'.shut == s.shut && s'.count == s.count && s'.next == s.next && s'.log == s.log
    && s'.calls == s.calls && |s'.workers| == |s.workers|
    && (forall i :: 0 <= i < |s.workers| && i != w ==> s'.workers[i] == s.workers[i])
    && s'.workers[w].pc == Found(QueueAt(s, q).pushed[QueueAt(s, q).popped])
  }

  lemma TakingMirrors(s: State, w: nat, q: Target)
    requires Has(s, q) && w < |s.workers| && !QueueAt(s, q).Empty()
    ensures Takes(s, w, q, Taking(s, w, q))
  {
  }

  /** Worker `w` has the oldest task of `q`. */
  function Taking(s: State, w: nat, q: Target): State
    requires Has(s, q) && w < |s.workers| && !QueueAt(s, q).Empty()
  {
    SetQueue(Go(s, w, Found(QueueAt(s, q).pushed[QueueAt(s, q).popped])), q, QueueAt(s, q).Pop())
  }

  lemma ProbeTakes(s: State, w: nat, q: Target)
    requires Shape(s) && w < |s.workers| && s.workers[w].pc.Probe? && s.workers[w].pc.i < |Plan(s.cfg, w)|
    requires Plan(s.cfg, w)[s.workers[w].pc.i] == q && Has(s, q) && !QueueAt(s, q).Empty()
    ensures Enabled(s, WStep(w)) && Apply(s, WStep(w)) == Taking(s, w, q)
  {
    ProbeNext(s, w, q, true);
  }

  lemma ProbeNext(s: State, w: nat, q: Target, lock: bool)
    requires Shape(s) && w < |s.workers| && s.workers[w].pc.Probe? && s.workers[w].pc.i < |Plan(s.cfg, w)|
    requires Plan(s.cfg, w)[s.workers[w].pc.i] == q
    ensures Has(s, q)
    ensures StepProbe(s, w, lock) ==
            if lock && !QueueAt(s, q).Empty()
            then SetQueue(Go(s, w, Found(QueueAt(s, q).pushed[QueueAt(s, q).popped])), q, QueueAt(s, q).Pop())
            else Missed(s, w, NextProbe(s.cfg, w, s.workers[w].pc.i + 1, s.workers[w].pc.why), lock)
  {
    assert WorkerShape(s, w, s.workers[w].pc);
  }

  /** The position of try_steal's i-th candidate in the plan: from `base` on the plan is
      the rest of the scan, followed by `after`. */
  ghost predicate Scanning(cfg: Config, w: nat, i: nat, base: nat, after: seq<Target>)
    requires cfg.workers > 0
  {
    base <= |Plan(cfg, w)| && Plan(cfg, w)[base..] == Steals(w, i, cfg.workers) + after
  }

  /** The next candidate is the thief itself: nothing to probe. */
  lemma ScanSkips(cfg: Config, w: nat, i: nat, base: nat, after: seq<Target>)
    requires i < cfg.workers && Scanning(cfg, w, i, base, after) && Victim(w, i, cfg.workers) == w
    ensures Scanning(cfg, w, i + 1, base, after)
  {
    StealsStep(w, i, cfg.workers);
  }

  /** It is another worker: its queue is the next of the plan. */
  lemma ScanNext(cfg: Config, w: nat, i: nat, base: nat, after: seq<Target>)
    requires i < cfg.workers && Scanning(cfg, w, i, base, after) && Victim(w, i, cfg.workers) != w
    ensures base < |Plan(cfg, w)| && Plan(cfg, w)[base] == Local(Victim(w, i, cfg.workers))
    ensures Scanning(cfg, w, i + 1, base + 1, after)
  {
    var n, plan := cfg.workers, Plan(cfg, w);
    StealsStep(w, i, n);
    HeadAndTail(plan, base, Local(Victim(w, i, n)), Steals(w, i + 1, n), after);
  }

  lemma HeadAndTail<T>(plan: seq<T>, base: nat, x: T, rest: seq<T>, after: seq<T>)
    requires base <= |plan| && plan[base..] == [x] + rest + after
    ensures base < |plan| && plan[base] == x && plan[base + 1..] == rest + after
  {
    assert plan[base] == plan[base..][0];
    assert plan[base + 1..] == plan[base..][1..];
    assert ([x] + rest + after)[1..] == rest + after;
  }

  /** At the moment `m` worker `w` made the i-th probe of its plan. */
  ghost predicate ProbeAt(cfg: Config, w: nat, i: nat, m: Moment) {
    && i < |Plan(cfg, w)| && w < |m.s.workers| && m.s.workers[w].pc.Probe? && m.s.workers[w].pc.i == i
    && Has(m.s, Plan(cfg, w)[i])
  }

  /** ... in vain: the queue was empty or, unless no pop lock was held by others (`free`),
      its lock was taken. */
  ghost predicate MissAt(start: State, cfg: Config, w: nat, i: nat, free: bool, from: Moment, m: Moment, to: Moment) {
    && ProbeAt(cfg, w, i, m)
    && ((Acted(start, from, m, WStep(w), to) && QueueAt(m.s, Plan(cfg, w)[i]).Empty())
        || (!free && Acted(start, from, m, WContend(w), to)))
  }

  /** ... and took `t`, the oldest task of that queue. */
  ghost predicate TakeAt(start: State, cfg: Config, w: nat, i: nat, from: Moment, m: Moment, t: Task, to: Moment) {
    && ProbeAt(cfg, w, i, m) && Acted(start, from, m, WStep(w), to)
    && var f := QueueAt(m.s, Plan(cfg, w)[i]);
    && !f.Empty() && t == f.pushed[f.popped]
  }

  /** The first probes of the plan, all in vain. */
  ghost predicate Misses(start: State, cfg: Config, w: nat, free: bool, from: Moment, misses: seq<Moment>, to: Moment) {
    forall i :: 0 <= i < |misses| ==> MissAt(start, cfg, w, i, free, from, misses[i], to)
  }

  lemma MissesWider(start: State, cfg: Config, w: nat, free: bool, from: Moment, misses: seq<Moment>, to: Moment,
                    from': Moment, to': Moment)
    requires Misses(start, cfg, w, free, from, misses, to) && from'.past <= from.past && to.past <= to'.past
    ensures Misses(start, cfg, w, free, from', misses, to')
  {
    forall i | 0 <= i < |misses| ensures MissAt(start, cfg, w, i, free, from', misses[i], to') {
      assert MissAt(start, cfg, w, i, free, from, misses[i], to);
    }
  }

  lemma MissesNext(start: State, cfg: Config, w: nat, free: bool, from: Moment, was: seq<Moment>, mid: Moment,
                   m: Moment, free': bool, to: Moment)
    requires Misses(start, cfg, w, free, from, was, mid) && mid.past <= to.past && (free ==> free')
    requires MissAt(start, cfg, w, |was|, free', from, m, to)
    ensures Misses(start, cfg, w, free, from, was + [m], to)
  {
    MissesWider(start, cfg, w, free, from, was, mid, from, to);
  }

  /** Worker `w` is past the probes made in vain at the moments `misses`, one for each
      queue of its plan so far. */
  ghost predicate Scan(sch: Scheduler, w: nat, why: Why, free: bool, misses: seq<Moment>, s0: Moment)
    reads sch
  {
    && At(sch, w, NextProbe(sch.cfg, w, |misses|, why), s0)
    && Misses(sch.start, sch.cfg, w, free, s0, misses, sch.Now())
  }

  /** Worker `w` has found `t` at the probe of the moment `took`, after those in vain. */
  ghost predicate Caught(sch: Scheduler, w: nat, t: Task, free: bool, misses: seq<Moment>, took: Moment, s0: Moment)
    reads sch
  {
    && At(sch, w, Found(t), s0)
    && Misses(sch.start, sch.cfg, w, free, s0, misses, sch.Now())
    && TakeAt(sch.start, sch.cfg, w, |misses|, s0, took, t, sch.Now())
  }

  /** What a search ends with: the oldest task of the first queue of the plan that is not
      probed in vain, or the nap after one vain probe of every queue of the plan. */
  ghost predicate Searched(sch: Scheduler, w: nat, task: Option<Task>, free: bool, misses: seq<Moment>, took: Moment,
                           s0: Moment)
    reads sch
  {
    if task.Some? then Caught(sch, w, task.value, free, misses, took, s0)
    else
      && At(sch, w, NapGlobalHead, s0) && |misses| == |Plan(sch.cfg, w)|
      && Misses(sch.start, sch.cfg, w, free, s0, misses, sch.Now())
  }

  /** The next queue of the plan, other threads first. */
  method TryNext(sch: Scheduler, w: nat, q: Target, taken: bool, ghost free: bool, ghost was: seq<Moment>,
                 ghost why: Why, ghost s0: Moment)
      returns (task: Option<Task>, ghost misses: seq<Moment>, ghost took: Moment)
    requires Scan(sch, w, why, free, was, s0) && (free ==> !taken)
    requires |was| < |Plan(sch.cfg, w)| && Plan(sch.cfg, w)[|was|] == q
    modifies sch
    ensures if task.Some? then Caught(sch, w, task.value, free, misses, took, s0)
            else Scan(sch, w, why, free, misses, s0) && |misses| == |was| + 1
  {
    ghost var mid := sch.Now();
    Yield(sch, w, Probe(|was|, why), s0);
    took := sch.Now();
    task := TryPop(sch, w, q, taken, |was|, why, s0);
    misses := was;
    if task.Some? {
      MissesWider(sch.start, sch.cfg, w, free, s0, was, mid, s0, sch.Now());
    } else {
      MissesNext(sch.start, sch.cfg, w, free, s0, was, mid, took, !taken, sch.Now());
      misses := was + [took];
    }
  }

  /** try_steal: one try at every other worker's queue, from the next worker round; a
      failure leaves the worker after its whole scan. `taken` says which tries find
      the pop lock held. */
  method TrySteal(sch: Scheduler, w: nat, taken: nat -> bool, ghost free: bool, ghost was: seq<Moment>,
                  ghost after: seq<Target>, ghost why: Why, ghost s0: Moment)
      returns (task: Option<Task>, ghost misses: seq<Moment>, ghost took: Moment)
    requires Scan(sch, w, why, free, was, s0) && (free ==> Unlocked(taken))
    requires sch.cfg.workers > 0 && Scanning(sch.cfg, w, 0, |was|, after)
    modifies sch
    ensures if task.Some? then Caught(sch, w, task.value, free, misses, took, s0)
            else Scan(sch, w, why, free, misses, s0)
                 && |misses| <= |Plan(sch.cfg, w)| && Plan(sch.cfg, w)[|misses|..] == after
  {
    task, misses, took := None, was, sch.Now();
    for i := 0 to sch.cfg.workers
      invariant task == None && Scan(sch, w, why, free, misses, s0)
      invariant Scanning(sch.cfg, w, i, |misses|, after)
    {
      task, misses, took := StealOne(sch, w, i, taken(i), free, misses, after, why, s0);
      if task.Some? { return; }
    }
    ScanOver(sch.cfg, w, |misses|, after);
  }

  /** The i-th candidate of the scan. */
  method StealOne(sch: Scheduler, w: nat, i: nat, taken: bool, ghost free: bool, ghost was: seq<Moment>,
                  ghost after: seq<Target>, ghost why: Why, ghost s0: Moment)
      returns (task: Option<Task>, ghost misses: seq<Moment>, ghost took: Moment)
    requires Scan(sch, w, why, free, was, s0) && (free ==> !taken)
    requires i < sch.cfg.workers && Scanning(sch.cfg, w, i, |was|, after)
    modifies sch
    ensures if task.Some? then Caught(sch, w, task.value, free, misses, took, s0)
            else Scan(sch, w, why, free, misses, s0) && Scanning(sch.cfg, w, i + 1, |misses|, after)
  {
    var idx := Rem(w + 1 + i, sch.cfg.workers);
    if idx == w {
      ScanSkips(sch.cfg, w, i, |was|, after);
      return None, was, sch.Now();
    }
    ScanNext(sch.cfg, w, i, |was|, after);
    task, misses, took := TryNext(sch, w, Local(idx), taken, free, was, why, s0);
  }

  lemma ScanOver(cfg: Config, w: nat, base: nat, after: seq<Target>)
    requires cfg.workers > 0 && Scanning(cfg, w, cfg.workers, base, after)
    ensures base <= |Plan(cfg, w)| && Plan(cfg, w)[base..] == after
  {
    assert Steals(w, cfg.workers, cfg.workers) + after == after;
  }

  /** The probes of one round, in the order the configuration asks for: a search that
      finds nothing has made one probe of every queue of the plan, in its order, and if
      it lost no try to a taken lock each of them was empty when probed. */
  method FindTask(sch: Scheduler, w: nat, taken: nat -> bool, ghost why: Why, ghost s0: Moment)
      returns (task: Option<Task>, ghost misses: seq<Moment>, ghost took: Moment)
    requires At(sch, w, Probe(0, why), s0)
    modifies sch
    ensures Searched(sch, w, task, Unlocked(taken), misses, took, s0)
  {
    ghost var free := Unlocked(taken);
    AtLeastTwo(sch.cfg, w);
    if sch.cfg.priority {
      task, misses, took := FindGlobalFirst(sch, w, taken, free, why, s0);
    } else {
      task, misses, took := FindLocalFirst(sch, w, taken, free, why, s0);
    }
  }

  lemma AtLeastTwo(cfg: Config, w: nat)
    ensures |Plan(cfg, w)| >= 2
  {
  }

  lemma GlobalIsFirst(cfg: Config, w: nat)
    requires cfg.priority
    ensures |Plan(cfg, w)| >= 2 && Plan(cfg, w)[0] == Global && Plan(cfg, w)[1] == Local(w)
  {
  }

  lemma StealsAreLast(cfg: Config, w: nat)
    requires cfg.priority && cfg.workers > 0
    ensures if cfg.stealing then Scanning(cfg, w, 0, 2, []) else |Plan(cfg, w)| == 2
  {
    if cfg.stealing {
      assert Plan(cfg, w)[2..] == Steals(w, 0, cfg.workers) + [];
    }
  }

  lemma OwnIsFirst(cfg: Config, w: nat)
    requires !cfg.priority && cfg.workers > 0
    ensures |Plan(cfg, w)| >= 2 && Plan(cfg, w)[0] == Local(w)
    ensures if cfg.stealing then Scanning(cfg, w, 0, 1, [Global]) else Plan(cfg, w)[1..] == [Global]
  {
  }

  method FindGlobalFirst(sch: Scheduler, w: nat, taken: nat -> bool, ghost free: bool, ghost why: Why, ghost s0: Moment)
      returns (task: Option<Task>, ghost misses: seq<Moment>, ghost took: Moment)
    requires Scan(sch, w, why, free, [], s0) && sch.cfg.priority && (free ==> Unlocked(taken))
    modifies sch
    ensures Searched(sch, w, task, free, misses, took, s0)
  {
    GlobalIsFirst(sch.cfg, w);
    task, misses, took := TryNext(sch, w, Global, taken(sch.cfg.workers), free, [], why, s0);
    if task.None? {
      task, misses, took := FindOwnOrSteal(sch, w, taken, free, misses, why, s0);
    }
  }

  method FindOwnOrSteal(sch: Scheduler, w: nat, taken: nat -> bool, ghost free: bool, ghost was: seq<Moment>,
                        ghost why: Why, ghost s0: Moment)
      returns (task: Option<Task>, ghost misses: seq<Moment>, ghost took: Moment)
    requires Scan(sch, w, why, free, was, s0) && |was| == 1 && sch.cfg.priority
    requires free ==> Unlocked(taken)
    modifies sch
    ensures Searched(sch, w, task, free, misses, took, s0)
  {
    GlobalIsFirst(sch.cfg, w);
    task, misses, took := TryNext(sch, w, Local(w), taken(sch.cfg.workers + 1), free, was, why, s0);
    if task.None? {
      task, misses, took := StealLast(sch, w, taken, free, misses, why, s0);
    }
  }

  method StealLast(sch: Scheduler, w: nat, taken: nat -> bool, ghost free: bool, ghost was: seq<Moment>,
                   ghost why: Why, ghost s0: Moment)
      returns (task: Option<Task>, ghost misses: seq<Moment>, ghost took: Moment)
    requires Scan(sch, w, why, free, was, s0) && |was| == 2 && sch.cfg.priority
    requires free ==> Unlocked(taken)
    modifies sch
    ensures Searched(sch, w, task, free, misses, took, s0)
  {
    StealsAreLast(sch.cfg, w);
    task, misses, took := None, was, sch.Now();
    if sch.cfg.stealing {
      task, misses, took := TrySteal(sch, w, taken, free, was, [], why, s0);
    }
  }

  method FindLocalFirst(sch: Scheduler, w: nat, taken: nat -> bool, ghost free: bool, ghost why: Why, ghost s0: Moment)
      returns (task: Option<Task>, ghost misses: seq<Moment>, ghost took: Moment)
    requires Scan(sch, w, why, free, [], s0) && !sch.cfg.priority && (free ==> Unlocked(taken))
    modifies sch
    ensures Searched(sch, w, task, free, misses, took, s0)
  {
    OwnIsFirst(sch.cfg, w);
    task, misses, took := TryNext(sch, w, Local(w), taken(sch.cfg.workers + 1), free, [], why, s0);
    if task.None? {
      task, misses, took := StealThenGlobal(sch, w, taken, free, misses, why, s0);
    }
  }

  method StealThenGlobal(sch: Scheduler, w: nat, taken: nat -> bool, ghost free: bool, ghost was: seq<Moment>,
                         ghost why: Why, ghost s0: Moment)
      returns (task: Option<Task>, ghost misses: seq<Moment>, ghost took: Moment)
    requires Scan(sch, w, why, free, was, s0) && |was| == 1 && !sch.cfg.priority
    requires free ==> Unlocked(taken)
    modifies sch
    ensures Searched(sch, w, task, free, misses, took, s0)
  {
    OwnIsFirst(sch.cfg, w);
    task, misses, took := None, was, sch.Now();
    if sch.cfg.stealing {
      task, misses, took := TrySteal(sch, w, taken, free, was, [Global], why, s0);
    }
    if task.None? {
      task, misses, took := FindLast(sch, w, taken(sch.cfg.workers), free, misses, why, s0);
    }
  }

  /** The last queue of the plan is the global one. */
  method FindLast(sch: Scheduler, w: nat, taken: bool, ghost free: bool, ghost was: seq<Moment>,
                  ghost why: Why, ghost s0: Moment)
      returns (task: Option<Task>, ghost misses: seq<Moment>, ghost took: Moment)
    requires Scan(sch, w, why, free, was, s0) && (free ==> !taken)
    requires |was| <= |Plan(sch.cfg, w)| && Plan(sch.cfg, w)[|was|..] == [Global]
    modifies sch
    ensures Searched(sch, w, task, free, misses, took, s0)
  {
    assert Plan(sch.cfg, w)[|was|] == Plan(sch.cfg, w)[|was|..][0];
    task, misses, took := TryNext(sch, w, Global, taken, free, was, why, s0);
  }

  // ---- running a task ----

  ghost method Handle(sch: Scheduler, w: nat, pc: WPc, s0: Moment)
    requires At(sch, w, pc, s0) && Holding(pc)
    modifies sch`s, sch`trace
    ensures sch.OnTrace() && sch.s == StepTask(old(sch.s), w) && sch.Since(s0)
    ensures Moved(sch.start, w, old(sch.Now()), old(sch.Now()), pc, sch.Now())
  {
    sch.Do(w, WStep(w), s0);
  }

  method RaiseActive(sch: Scheduler, w: nat, t: Task, ghost s0: Moment)
    requires At(sch, w, Found(t), s0)
    modifies sch`count, sch`s, sch`trace
    ensures At(sch, w, Raised(t), s0) && Moved(sch.start, w, old(sch.Now()), old(sch.Now()), Found(t), sch.Now())
  {
    Handle(sch, w, Found(t), s0);
    sch.count := sch.count.(active := sch.count.active + 1);
  }

  method LowerPending(sch: Scheduler, w: nat, t: Task, ghost s0: Moment)
    requires At(sch, w, Raised(t), s0)
    modifies sch`count, sch`s, sch`trace
    ensures At(sch, w, Running(t), s0) && Moved(sch.start, w, old(sch.Now()), old(sch.Now()), Raised(t), sch.Now())
  {
    Handle(sch, w, Raised(t), s0);
    sch.count := sch.count.(pending := sch.count.pending - 1);
  }

  method CountCompleted(sch: Scheduler, w: nat, t: Task, ghost s0: Moment)
    requires At(sch, w, Returned(t), s0)
    modifies sch`count, sch`s, sch`trace
    ensures At(sch, w, Counted(t), s0) && t in sch.s.log.ran
    ensures Moved(sch.start, w, old(sch.Now()), old(sch.Now()), Returned(t), sch.Now())
  {
    Handle(sch, w, Returned(t), s0);
    sch.count := sch.count.(completed := sch.count.completed + 1);
  }

  method LowerActive(sch: Scheduler, w: nat, t: Task, ghost s0: Moment)
    requires At(sch, w, Counted(t), s0)
    modifies sch`count, sch`s, sch`trace
    ensures At(sch, w, Leaving(t), s0) && sch.s.log == old(sch.s.log)
    ensures Moved(sch.start, w, old(sch.Now()), old(sch.Now()), Counted(t), sch.Now())
  {
    Handle(sch, w, Counted(t), s0);
    sch.count := sch.count.(active := sch.count.active - 1);
  }

  /** The task's callback returns. */
  method Return(sch: Scheduler, w: nat, t: Task, ghost s0: Moment)
    requires At(sch, w, Running(t), s0)
    modifies sch`s, sch`trace
    ensures At(sch, w, Returned(t), s0) && Moved(sch.start, w, old(sch.Now()), old(sch.Now()), Running(t), sch.Now())
  {
    Handle(sch, w, Running(t), s0);
  }

  method Destroy(sch: Scheduler, w: nat, t: Task, ghost s0: Moment)
    requires At(sch, w, Leaving(t), s0)
    modifies sch`s, sch`trace
    ensures At(sch, w, Top, s0) && sch.s.log == old(sch.s.log)
    ensures Moved(sch.start, w, old(sch.Now()), old(sch.Now()), Leaving(t), sch.Now())
  {
    Handle(sch, w, Leaving(t), s0);
  }

  /** Is `a` an action by which worker `w` itself moves? */
  predicate Moves(a: Action, w: nat) {
    (a.WStep? || a.WContend?) && a.w == w
  }

  /** The task's callback: it may call the scheduler, while the other threads go on. As
      for Scheduler.Others, the contract is all that is known. */
  method Callback(sch: Scheduler, w: nat) returns (ghost acts: seq<Action>)
    requires sch.Valid() && w < |sch.s.calls| && sch.s.calls[w] == NoCall
    modifies sch
    ensures sch.Mirror() && sch.handles >= old(sch.handles)
    ensures Leads(old(sch.s), acts, sch.s) && sch.trace == old(sch.trace) + acts
    ensures forall i :: 0 <= i < |acts| ==> !Moves(acts[i], w)
    ensures w < |sch.s.calls| && sch.s.calls[w] == NoCall
  {
    acts := [];
  }

  lemma {:induction false} StaysRunning(s: State, acts: seq<Action>, w: nat)
    requires Legal(s, acts) && w < |s.workers|
    requires forall i :: 0 <= i < |acts| ==> !Moves(acts[i], w)
    ensures w < |Run(s, acts).workers| && Run(s, acts).workers[w] == s.workers[w]
    decreases |acts|
  {
    if acts != [] {
      StaysPut(s, acts[0], w);
      StaysRunning(Apply(s, acts[0]), acts[1..], w);
    }
  }

  lemma StaysPut(s: State, a: Action, w: nat)
    requires Shape(s) && Enabled(s, a) && w < |s.workers| && !Moves(a, w)
    ensures w < |Apply(s, a).workers| && Apply(s, a).workers[w] == s.workers[w]
  {
    SameThreads(s, a);
    match a
    case WStep(v) => WStepEffect(s, a);
    case WContend(v) => WStepEffect(s, a);
    case Begin(_, _) =>
    case CStep(k) => CStepEffect(s, k);
  }

  method RunCallback(sch: Scheduler, w: nat, t: Task, ghost s0: Moment)
    requires At(sch, w, Running(t), s0)
    modifies sch
    ensures At(sch, w, Running(t), s0) && Precedes(old(sch.Now()), sch.Now())
  {
    sch.Reached();
    ghost var m := sch.Now();
    ghost var acts := Callback(sch, w);
    Append(sch.start, m.past, m.s, acts, sch.s);
    LaterRun(m.s, acts);
    StaysRunning(m.s, acts, w);
    PrecedesTrans(s0, m, sch.Now());
  }

  /** Where a worker is on its way from the pop of `t` to the next round: it raises
      tasks_active, lowers tasks_pending, runs the callback until that returns, counts
      the task as completed, lowers tasks_active and destroys the task. */
  function Course(t: Task): (pcs: seq<WPc>) {
    [Found(t), Raised(t), Running(t), Returned(t), Counted(t), Leaving(t)]
  }

  /** The first `n` of these steps, made at the moments `steps` one after the other. */
  ghost predicate OnCourse(start: State, w: nat, t: Task, n: nat, from: Moment, steps: seq<Moment>, to: Moment) {
    |steps| == n <= 6 && forall i :: 0 <= i < n ==> Stepped(start, w, t, from, steps, i, to)
  }

  ghost predicate Stepped(start: State, w: nat, t: Task, from: Moment, steps: seq<Moment>, i: nat, to: Moment)
    requires i < |steps| && i < 6
  {
    Moved(start, w, if i == 0 then from else steps[i - 1], steps[i], Course(t)[i], to)
  }

  lemma CourseWider(start: State, w: nat, t: Task, n: nat, from: Moment, steps: seq<Moment>, to: Moment,
                    from': Moment, to': Moment)
    requires OnCourse(start, w, t, n, from, steps, to) && from'.past <= from.past && to.past <= to'.past
    ensures OnCourse(start, w, t, n, from', steps, to')
  {
    forall i | 0 <= i < n ensures Stepped(start, w, t, from', steps, i, to') {
      assert Stepped(start, w, t, from, steps, i, to);
      if i == 0 {
        MovedWider(start, w, from, steps[0], Course(t)[0], to, from', to');
      } else {
        MovedWider(start, w, steps[i - 1], steps[i], Course(t)[i], to, steps[i - 1], to');
      }
    }
  }

  /** One step more, at the moment `m`. */
  lemma CourseNext(start: State, w: nat, t: Task, n: nat, from: Moment, was: seq<Moment>, mid: Moment, m: Moment,
                   to: Moment)
    requires OnCourse(start, w, t, n, from, was, mid) && n < 6 && from.past <= mid.past <= m.past
    requires Moved(start, w, m, m, Course(t)[n], to)
    ensures OnCourse(start, w, t, n + 1, from, was + [m], to)
  {
    CourseWider(start, w, t, n, from, was, mid, from, to);
    var steps := was + [m];
    if n > 0 {
      assert Stepped(start, w, t, from, was, n - 1, mid);
      assert was[n - 1].past <= mid.past;
      MovedWider(start, w, m, m, Course(t)[n], to, was[n - 1], to);
    } else {
      MovedWider(start, w, m, m, Course(t)[n], to, from, to);
    }
    forall i | 0 <= i < n + 1 ensures Stepped(start, w, t, from, steps, i, to) {
      if i < n {
        assert Stepped(start, w, t, from, was, i, to);
        assert steps[i] == was[i] && (i > 0 ==> steps[i - 1] == was[i - 1]);
      }
    }
  }

  /** Worker `w` is past the first `n` steps with `t`. */
  ghost predicate InHand(sch: Scheduler, w: nat, t: Task, n: nat, from: Moment, steps: seq<Moment>, s0: Moment)
    reads sch
  {
    && At(sch, w, if n < 6 then Course(t)[n] else Top, s0)
    && OnCourse(sch.start, w, t, n, from, steps, sch.Now()) && from.past <= sch.trace
  }


  method ThenRaise(sch: Scheduler, w: nat, t: Task, ghost s0: Moment) returns (ghost steps: seq<Moment>)
    requires At(sch, w, Found(t), s0)
    modifies sch
    ensures InHand(sch, w, t, 1, old(sch.Now()), steps, s0)
  {
    ghost var mid := sch.Now();
    Yield(sch, w, Found(t), s0);
    ghost var m := sch.Now();
    RaiseActive(sch, w, t, s0);
    CourseNext(sch.start, w, t, 0, mid, [], mid, m, sch.Now());
    steps := [] + [m];
  }

  method ThenLower(sch: Scheduler, w: nat, t: Task, ghost from: Moment, ghost was: seq<Moment>, ghost s0: Moment)
      returns (ghost steps: seq<Moment>)
    requires InHand(sch, w, t, 1, from, was, s0)
    modifies sch
    ensures InHand(sch, w, t, 2, from, steps, s0)
  {
    ghost var mid := sch.Now();
    Yield(sch, w, Raised(t), s0);
    ghost var m := sch.Now();
    LowerPending(sch, w, t, s0);
    CourseNext(sch.start, w, t, 1, from, was, mid, m, sch.Now());
    steps := was + [m];
  }

  method ThenRun(sch: Scheduler, w: nat, t: Task, ghost from: Moment, ghost was: seq<Moment>, ghost s0: Moment)
      returns (ghost steps: seq<Moment>)
    requires InHand(sch, w, t, 2, from, was, s0)
    modifies sch
    ensures InHand(sch, w, t, 3, from, steps, s0)
  {
    ghost var mid := sch.Now();
    RunCallback(sch, w, t, s0);
    ghost var m := sch.Now();
    Return(sch, w, t, s0);
    CourseNext(sch.start, w, t, 2, from, was, mid, m, sch.Now());
    steps := was + [m];
  }

  method ThenCount(sch: Scheduler, w: nat, t: Task, ghost from: Moment, ghost was: seq<Moment>, ghost s0: Moment)
      returns (ghost steps: seq<Moment>)
    requires InHand(sch, w, t, 3, from, was, s0)
    modifies sch
    ensures InHand(sch, w, t, 4, from, steps, s0) && t in sch.s.log.ran
  {
    ghost var mid := sch.Now();
    Yield(sch, w, Returned(t), s0);
    ghost var m := sch.Now();
    CountCompleted(sch, w, t, s0);
    CourseNext(sch.start, w, t, 3, from, was, mid, m, sch.Now());
    steps := was + [m];
  }

  method ThenLeave(sch: Scheduler, w: nat, t: Task, ghost from: Moment, ghost was: seq<Moment>, ghost s0: Moment)
      returns (ghost steps: seq<Moment>)
    requires InHand(sch, w, t, 4, from, was, s0) && t in sch.s.log.ran
    modifies sch
    ensures InHand(sch, w, t, 5, from, steps, s0) && t in sch.s.log.ran
  {
    ghost var mid := sch.Now();
    Yield(sch, w, Counted(t), s0);
    ghost var m := sch.Now();
    LowerActive(sch, w, t, s0);
    CourseNext(sch.start, w, t, 4, from, was, mid, m, sch.Now());
    steps := was + [m];
  }

  method ThenDestroy(sch: Scheduler, w: nat, t: Task, ghost from: Moment, ghost was: seq<Moment>, ghost s0: Moment)
      returns (ghost steps: seq<Moment>)
    requires InHand(sch, w, t, 5, from, was, s0) && t in sch.s.log.ran
    modifies sch
    ensures InHand(sch, w, t, 6, from, steps, s0) && t in sch.s.log.ran
  {
    ghost var mid := sch.Now();
    Yield(sch, w, Leaving(t), s0);
    ghost var m := sch.Now();
    Destroy(sch, w, t, s0);
    CourseNext(sch.start, w, t, 5, from, was, mid, m, sch.Now());
    steps := was + [m];
  }

  /** From the pop of `t` to its destruction: tasks_active is raised, then tasks_pending
      lowered, then the callback runs and returns, and only then the task is counted as
      completed and tasks_active lowered; each is an action of the worker of its own, at
      one of the moments `steps`. */
  method RunTask(sch: Scheduler, w: nat, t: Task, ghost s0: Moment) returns (ghost steps: seq<Moment>)
    requires At(sch, w, Found(t), s0)
    modifies sch
    ensures At(sch, w, Top, s0) && t in sch.s.log.ran
    ensures OnCourse(sch.start, w, t, 6, old(sch.Now()), steps, sch.Now()) && old(sch.trace) <= sch.trace
  {
    ghost var from := sch.Now();
    steps := ThenRaise(sch, w, t, s0);
    steps := ThenLower(sch, w, t, from, steps, s0);
    steps := ThenRun(sch, w, t, from, steps, s0);
    steps := ThenCount(sch, w, t, from, steps, s0);
    steps := ThenLeave(sch, w, t, from, steps, s0);
    steps := ThenDestroy(sch, w, t, from, steps, s0);
  }

  // ---- worker_main ----

  /** What a round came to: the exit; a task, found at the moment `took` after probes in
      vain, and run; or a nap, after a vain probe of every queue. */
  datatype Work =
    | Exit
    | Ran(task: Task, misses: seq<Moment>, took: Moment, steps: seq<Moment>)
    | Napped(misses: seq<Moment>, looks: seq<Look>, doze: Option<Moment>)

  /** The work of a round that went on, made between the moments `from` and `to`. */
  ghost predicate WorkMade(start: State, cfg: Config, w: nat, free: bool, from: Moment, work: Work, to: Moment) {
    match work
    case Exit => false
    case Ran(t, misses, took, steps) =>
      && Misses(start, cfg, w, free, from, misses, to)
      && TakeAt(start, cfg, w, |misses|, from, took, t, to)
      && OnCourse(start, w, t, 6, took, steps, to) && t in to.s.log.ran
    case Napped(misses, looks, doze) =>
      && |misses| == |Plan(cfg, w)| && Misses(start, cfg, w, free, from, misses, to)
      && Dozed(start, w, from, looks, doze, to)
  }

  /** One round of worker_main: its load of the flag, its looks at the queues if the flag
      is up, and its work. */
  datatype Round = Round(flag: Moment, looks: seq<Look>, work: Work)

  /** The round `r`, made between the moments `from` and `to`: it is the exit if and only if
      the flag was up and both queues looked empty. */
  ghost predicate Made(start: State, cfg: Config, w: nat, free: bool, from: Moment, r: Round, to: Moment) {
    && ExitTested(start, w, from, r.flag, r.looks, r.work.Exit?, to)
    && (!r.work.Exit? ==> WorkMade(start, cfg, w, free, from, r.work, to))
  }

  /** One round of worker_main: it ends the worker, or it runs the first task it finds, or
      it finds none in any queue of its plan and naps. */
  method OneRound(sch: Scheduler, w: nat, taken: nat -> bool, ghost s0: Moment) returns (stopped: bool, ghost r: Round)
    requires At(sch, w, Top, s0)
    modifies sch
    ensures At(sch, w, if stopped then Stopped else Top, s0) && (stopped <==> r.work.Exit?)
    ensures Made(sch.start, sch.cfg, w, Unlocked(taken), s0, r, sch.Now())
  {
    ghost var why, flag, looks, work := FlagDown, s0, [], Exit;
    stopped, why, flag, looks := ExitTest(sch, w, s0);
    ghost var m := sch.Now();
    if !stopped {
      work := WorkOrNap(sch, w, taken, why, s0);
      ExitTestedWider(sch.start, w, s0, flag, looks, false, m, s0, sch.Now());
    }
    r := Round(flag, looks, work);
  }

  method WorkOrNap(sch: Scheduler, w: nat, taken: nat -> bool, ghost why: Why, ghost s0: Moment)
      returns (ghost work: Work)
    requires At(sch, w, Probe(0, why), s0)
    modifies sch
    ensures At(sch, w, Top, s0) && old(sch.trace) <= sch.trace
    ensures WorkMade(sch.start, sch.cfg, w, Unlocked(taken), s0, work, sch.Now())
  {
    ghost var was, free := sch.Now(), Unlocked(taken);
    SinceSelf(sch, w, Probe(0, why), s0);
    ghost var misses, took;
    var task;
    task, misses, took := FindTask(sch, w, taken, why, was);
    if task.Some? {
      work := FoundWork(sch, w, task.value, free, misses, took, was);
    } else {
      work := FoundNone(sch, w, free, misses, was);
    }
    SinceStart(sch, w, Top, was, s0);
    WorkWider(sch.start, sch.cfg, w, free, was, work, s0, sch.Now());
  }

  lemma WorkWider(start: State, cfg: Config, w: nat, free: bool, from: Moment, work: Work, from': Moment, to: Moment)
    requires WorkMade(start, cfg, w, free, from, work, to) && from'.past <= from.past
    ensures WorkMade(start, cfg, w, free, from', work, to)
  {
    MissesWider(start, cfg, w, free, from, work.misses, to, from', to);
    if work.Napped? {
      DozedWider(start, w, from, work.looks, work.doze, to, from', to);
    }
  }

  method FoundWork(sch: Scheduler, w: nat, t: Task, ghost free: bool, ghost misses: seq<Moment>, ghost took: Moment,
                   ghost s0: Moment)
      returns (ghost work: Work)
    requires Caught(sch, w, t, free, misses, took, s0)
    modifies sch
    ensures At(sch, w, Top, s0) && WorkMade(sch.start, sch.cfg, w, free, s0, work, sch.Now())
  {
    ghost var mid := sch.Now();
    ghost var steps := RunTask(sch, w, t, s0);
    RunIsWork(sch.start, sch.cfg, w, t, free, s0, misses, took, mid, steps, sch.Now());
    work := Ran(t, misses, took, steps);
  }

  lemma RunIsWork(start: State, cfg: Config, w: nat, t: Task, free: bool, from: Moment, misses: seq<Moment>,
                  took: Moment, mid: Moment, steps: seq<Moment>, to: Moment)
    requires Misses(start, cfg, w, free, from, misses, mid) && TakeAt(start, cfg, w, |misses|, from, took, t, mid)
    requires OnCourse(start, w, t, 6, mid, steps, to) && t in to.s.log.ran && mid.past <= to.past
    ensures WorkMade(start, cfg, w, free, from, Ran(t, misses, took, steps), to)
  {
    MissesWider(start, cfg, w, free, from, misses, mid, from, to);
    ActedWider(start, from, took, WStep(w), mid, from, to);
    assert took.past <= mid.past;
    CourseWider(start, w, t, 6, mid, steps, to, took, to);
  }

  method FoundNone(sch: Scheduler, w: nat, ghost free: bool, ghost misses: seq<Moment>, ghost s0: Moment)
      returns (ghost work: Work)
    requires At(sch, w, NapGlobalHead, s0) && |misses| == |Plan(sch.cfg, w)|
    requires Misses(sch.start, sch.cfg, w, free, s0, misses, sch.Now())
    modifies sch
    ensures At(sch, w, Top, s0) && WorkMade(sch.start, sch.cfg, w, free, s0, work, sch.Now())
  {
    ghost var mid := sch.Now();
    ghost var looks, doze := Nap(sch, w, s0);
    MissesWider(sch.start, sch.cfg, w, free, s0, misses, mid, s0, sch.Now());
    work := Napped(misses, looks, doze);
  }

  /** No try finds the pop lock taken. */
  ghost predicate Unlocked(taken: nat -> bool) {
    forall n :: !taken(n)
  }

  /** The rounds of a worker one after the other: the n-th lies between the moments
      `marks[n]` and `marks[n + 1]`, and only the last one can be the exit. */
  ghost predicate AllMade(start: State, cfg: Config, w: nat, taken: nat -> (nat -> bool), done: seq<Round>,
                          marks: seq<Moment>, stopped: bool)
  {
    && |marks| == |done| + 1
    && (forall n :: 0 <= n < |done| ==> MadeAt(start, cfg, w, taken, done, marks, n))
    && (forall n :: 0 <= n < |done| ==> (done[n].work.Exit? <==> stopped && n == |done| - 1))
    && (stopped ==> done != [])
  }

  ghost predicate MadeAt(start: State, cfg: Config, w: nat, taken: nat -> (nat -> bool), done: seq<Round>,
                         marks: seq<Moment>, n: nat)
    requires n < |done| == |marks| - 1
  {
    Made(start, cfg, w, Unlocked(taken(n)), marks[n], done[n], marks[n + 1])
  }

  /** worker_main, watched for a number of rounds: it makes them all, unless it stops, and
      then its thread ends.
      A worker that stops leaves the flag up; if no harmful submit was in its window when
      the flag was first stored it leaves its own queue empty for good, and if none at
      all was, the global one too. */
  method WorkerMain(sch: Scheduler, w: nat, rounds: nat, taken: nat -> (nat -> bool))
      returns (stopped: bool, ghost done: seq<Round>, ghost marks: seq<Moment>)
    requires At(sch, w, Top, sch.Now())
    modifies sch
    ensures At(sch, w, if stopped then Stopped else Top, old(sch.Now()))
    ensures AllMade(sch.start, sch.cfg, w, taken, done, marks, stopped)
    ensures marks[0] == old(sch.Now()) && marks[|done|] == sch.Now()
    ensures !stopped ==> |done| == rounds
    ensures stopped ==> sch.shutdown && w in sch.ended
    ensures stopped && sch.s.shut.quiet ==> sch.global.Empty()
    ensures stopped && sch.s.shut.safe ==> w < |sch.locals| && sch.locals[w].Empty()
  {
    stopped, done, marks := false, [], [sch.Now()];
    for n := 0 to rounds
      invariant At(sch, w, Top, old(sch.Now())) && !stopped && |done| == n
      invariant AllMade(sch.start, sch.cfg, w, taken, done, marks, false)
      invariant marks[0] == old(sch.Now()) && marks[n] == sch.Now()
    {
      stopped, done, marks := AnotherRound(sch, w, taken, n, done, marks, old(sch.Now()));
      if stopped {
        EndThread(sch, w, old(sch.Now()));
        return;
      }
    }
  }

  /** The thread of a worker that has stopped ends. */
  method EndThread(sch: Scheduler, w: nat, ghost s0: Moment)
    requires At(sch, w, Stopped, s0)
    modifies sch`ended
    ensures At(sch, w, Stopped, s0) && sch.shutdown && w in sch.ended
    ensures sch.s.shut.quiet ==> sch.global.Empty()
    ensures sch.s.shut.safe ==> w < |sch.locals| && sch.locals[w].Empty()
  {
    sch.Reached();
    StoppedWell(sch.s, w);
    sch.ended := sch.ended + {w};
  }

  method AnotherRound(sch: Scheduler, w: nat, taken: nat -> (nat -> bool), n: nat, ghost was: seq<Round>,
                      ghost before: seq<Moment>, ghost s0: Moment)
      returns (stopped: bool, ghost done: seq<Round>, ghost marks: seq<Moment>)
    requires At(sch, w, Top, s0) && |was| == n && AllMade(sch.start, sch.cfg, w, taken, was, before, false)
    requires before[n] == sch.Now()
    modifies sch
    ensures At(sch, w, if stopped then Stopped else Top, s0) && |done| == n + 1
    ensures AllMade(sch.start, sch.cfg, w, taken, done, marks, stopped)
    ensures marks[0] == before[0] && marks[n + 1] == sch.Now()
  {
    ghost var r;
    stopped, r := RoundFromHere(sch, w, taken(n), s0);
    MadeNext(sch.start, sch.cfg, w, taken, was, before, r, sch.Now(), stopped);
    done, marks := was + [r], before + [sch.Now()];
  }

  method RoundFromHere(sch: Scheduler, w: nat, taken: nat -> bool, ghost s0: Moment)
      returns (stopped: bool, ghost r: Round)
    requires At(sch, w, Top, s0)
    modifies sch
    ensures At(sch, w, if stopped then Stopped else Top, s0) && (stopped <==> r.work.Exit?)
    ensures Made(sch.start, sch.cfg, w, Unlocked(taken), old(sch.Now()), r, sch.Now())
  {
    ghost var m := sch.Now();
    SinceSelf(sch, w, Top, s0);
    stopped, r := OneRound(sch, w, taken, m);
    SinceStart(sch, w, if stopped then Stopped else Top, m, s0);
  }

  lemma MadeNext(start: State, cfg: Config, w: nat, taken: nat -> (nat -> bool), was: seq<Round>, marks: seq<Moment>,
                 r: Round, to: Moment, stopped: bool)
    requires AllMade(start, cfg, w, taken, was, marks, false) && (stopped <==> r.work.Exit?)
    requires Made(start, cfg, w, Unlocked(taken(|was|)), marks[|was|], r, to)
    ensures AllMade(start, cfg, w, taken, was + [r], marks + [to], stopped)
  {
    var done, marks' := was + [r], marks + [to];
    forall n | 0 <= n < |done| ensures MadeAt(start, cfg, w, taken, done, marks', n) {
      if n < |was| {
        assert MadeAt(start, cfg, w, taken, was, marks, n);
        assert done[n] == was[n] && marks'[n] == marks[n] && marks'[n + 1] == marks[n + 1];
      }
    }
  }

  lemma StoppedWell(s: State, w: nat)
    requires Known(s) && w < |s.workers| && s.workers[w].pc == Stopped
    ensures s.shut.flag && w < |s.locals|
    ensures s.shut.quiet ==> s.global.Empty()
    ensures s.shut.safe ==> s.locals[w].Empty()
    ensures s.shut.quiet ==> s.shut.safe
  {
    assert Exiting(s.workers[w].pc);
    assert s.shut.quiet ==> ExitSound(s, w, s.workers[w].pc);
    assert s.shut.safe ==> OwnSound(s, w, s.workers[w].pc);
  }
}
