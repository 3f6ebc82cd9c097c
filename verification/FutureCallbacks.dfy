/** The concurrent future refines a sequential one: the critical sections, in the order
    they commit, determine how often each completion callback is invoked and with what. */
module FutureCallbacks {
  import opened Common
  import opened FutureModel
  import opened FutureFacts

  // ---- the sequential future ----

  /** The registered callback, the last outcome, and the invocations due so far. */
  datatype Spec = Spec(cb: Option<nat>, done: Option<Status>, due: seq<(nat, Status)>)

  function After(sp: Spec, e: Event): Spec {
    match e
    case Reg(r) => Spec(Some(r), sp.done, if sp.done.Some? then sp.due + [(r, sp.done.value)] else sp.due)
    case Ful(st) => Spec(sp.cb, Some(st), if sp.cb.Some? then sp.due + [(sp.cb.value, st)] else sp.due)
  }

  function ReplayTo(order: seq<Event>, m: nat): Spec
    requires m <= |order|
  {
    if m == 0 then Spec(None, None, []) else After(ReplayTo(order, m - 1), order[m - 1])
  }

  function Replay(order: seq<Event>): Spec {
    ReplayTo(order, |order|)
  }

  lemma {:induction false} ReplayPrefix(order: seq<Event>, e: Event, m: nat)
    requires m <= |order|
    ensures ReplayTo(order + [e], m) == ReplayTo(order, m)
  {
    if m > 0 {
      ReplayPrefix(order, e, m - 1);
    }
  }

  lemma ReplayNext(order: seq<Event>, e: Event)
    ensures Replay(order + [e]) == After(Replay(order), e)
  {
    ReplayPrefix(order, e, |order|);
  }

  // ---- which invocations are due ----

  ghost predicate NoFul(order: seq<Event>, from: nat, to: nat) {
    to <= |order| && forall i :: from <= i < to ==> !order[i].Ful?
  }

  ghost predicate NoReg(order: seq<Event>, from: nat, to: nat) {
    to <= |order| && forall i :: from <= i < to ==> !order[i].Reg?
  }

  /** The last fulfilment before event `n` had outcome `st`. */
  ghost predicate LastFul(order: seq<Event>, n: nat, st: Status) {
    exists j :: 0 <= j < n <= |order| && order[j] == Ful(st) && NoFul(order, j + 1, n)
  }

  /** The last registration before event `n` was `r`. */
  ghost predicate LastReg(order: seq<Event>, n: nat, r: nat) {
    exists j :: 0 <= j < n <= |order| && order[j] == Reg(r) && NoReg(order, j + 1, n)
  }

  /** Event `n` makes an invocation of `r` with `st` due: it registers `r` after a
      fulfilment, or fulfils while `r` is the registration in force. */
  ghost predicate Fires(order: seq<Event>, n: nat, r: nat, st: Status) {
    && n < |order|
    && ((order[n] == Reg(r) && LastFul(order, n, st)) || (order[n] == Ful(st) && LastReg(order, n, r)))
  }

  ghost function Firings(order: seq<Event>, m: nat, r: nat, st: Status): set<nat> {
    set n: nat | n < m && Fires(order, n, r, st)
  }

  lemma {:induction false} DoneIsLast(order: seq<Event>, m: nat, st: Status)
    requires m <= |order|
    ensures ReplayTo(order, m).done == Some(st) <==> LastFul(order, m, st)
  {
    if m > 0 {
      DoneIsLast(order, m - 1, st);
      LastFulNext(order, m, st);
    }
  }

  lemma LastFulNext(order: seq<Event>, m: nat, st: Status)
    requires 0 < m <= |order|
    ensures LastFul(order, m, st) <==> if order[m - 1].Ful? then order[m - 1] == Ful(st) else LastFul(order, m - 1, st)
  {
    if LastFul(order, m, st) {
      var j :| 0 <= j < m && order[j] == Ful(st) && NoFul(order, j + 1, m);
      assert NoFul(order, j + 1, m - 1);
    }
    if order[m - 1] == Ful(st) {
      assert NoFul(order, m, m);
    } else if !order[m - 1].Ful? && LastFul(order, m - 1, st) {
      var j :| 0 <= j < m - 1 && order[j] == Ful(st) && NoFul(order, j + 1, m - 1);
      assert NoFul(order, j + 1, m);
    }
  }

  lemma {:induction false} CallbackIsLast(order: seq<Event>, m: nat, r: nat)
    requires m <= |order|
    ensures ReplayTo(order, m).cb == Some(r) <==> LastReg(order, m, r)
  {
    if m > 0 {
      CallbackIsLast(order, m - 1, r);
      LastRegNext(order, m, r);
    }
  }

  lemma LastRegNext(order: seq<Event>, m: nat, r: nat)
    requires 0 < m <= |order|
    ensures LastReg(order, m, r) <==> if order[m - 1].Reg? then order[m - 1] == Reg(r) else LastReg(order, m - 1, r)
  {
    if LastReg(order, m, r) {
      var j :| 0 <= j < m && order[j] == Reg(r) && NoReg(order, j + 1, m);
      assert NoReg(order, j + 1, m - 1);
    }
    if order[m - 1] == Reg(r) {
      assert NoReg(order, m, m);
    } else if !order[m - 1].Reg? && LastReg(order, m - 1, r) {
      var j :| 0 <= j < m - 1 && order[j] == Reg(r) && NoReg(order, j + 1, m - 1);
      assert NoReg(order, j + 1, m);
    }
  }

  /** The invocations due are exactly the firings, counted. */
  lemma {:induction false} DueAreFirings(order: seq<Event>, m: nat, r: nat, st: Status)
    requires m <= |order|
    ensures multiset(ReplayTo(order, m).due)[(r, st)] == |Firings(order, m, r, st)|
  {
    if m > 0 {
      DueAreFirings(order, m - 1, r, st);
      DoneIsLast(order, m - 1, st);
      CallbackIsLast(order, m - 1, r);
      AfterDue(ReplayTo(order, m - 1), order[m - 1], r, st);
      FiringsNext(order, m, r, st);
    }
  }

  lemma AfterDue(sp: Spec, e: Event, r: nat, st: Status)
    ensures multiset(After(sp, e).due)[(r, st)] == multiset(sp.due)[(r, st)]
         + if (e == Reg(r) && sp.done == Some(st)) || (e == Ful(st) && sp.cb == Some(r)) then 1 else 0
  {}

  lemma FiringsNext(order: seq<Event>, m: nat, r: nat, st: Status)
    requires 0 < m <= |order|
    ensures |Firings(order, m, r, st)| == |Firings(order, m - 1, r, st)| + if Fires(order, m - 1, r, st) then 1 else 0
  {
    var rest := Firings(order, m - 1, r, st);
    assert Firings(order, m, r, st) == if Fires(order, m - 1, r, st) then rest + {m - 1} else rest;
  }

  // ---- the concurrent future follows it ----

  /** The position of the thread that holds the mutex. */
  function Holder(s: State): Option<Pc> {
    if s.future.lock.Some? && s.future.lock.value < |s.pcs| then Some(s.pcs[s.future.lock.value]) else None
  }

  predicate Fulfilled(holder: Option<Pc>) {
    holder.Some? && (holder.value.FReady? || holder.value.FBroadcast? || holder.value.FCapture?)
  }

  /** The fields of the future are those of the sequential one, except between the
      stores of a critical section and the point where it commits. */
  predicate Tracks(f: Future, holder: Option<Pc>, sp: Spec) {
    && f.callback == (if holder.Some? && holder.value.RCheck? then Some(holder.value.r) else sp.cb)
    && (!Fulfilled(holder) ==> sp.done == if f.ready then Some(f.status) else None)
  }

  ghost predicate Follows(s: State) {
    Tracks(s.future, Holder(s), Replay(s.log.order))
  }

  /** The event that an action commits, if any. */
  function Commits(pc: Pc): Option<Event> {
    match pc
    case RCheck(r) => Some(Reg(r))
    case FCapture(st, who) => Some(Ful(st))
    case _ => None
  }

  function Extended(sp: Spec, e: Option<Event>): Spec {
    if e.Some? then After(sp, e.value) else sp
  }

  lemma RecordCommits(s: State, a: Action)
    requires Enabled(s, a)
    ensures Replay(Record(s, a).order) == Extended(Replay(s.log.order), Commits(s.pcs[a.k]))
    ensures Record(s, a).order == s.log.order + (if Commits(s.pcs[a.k]).Some? then [Commits(s.pcs[a.k]).value] else [])
  {
    if Commits(s.pcs[a.k]).Some? {
      ReplayNext(s.log.order, Commits(s.pcs[a.k]).value);
    }
  }

  /** A move by a thread that holds the mutex, takes it or releases it. */
  lemma HolderMoves(f: Future, t: Job, k: nat, pc: Pc, sp: Spec)
    requires Private(f, t, pc) && Lasting(f, t, k, pc)
    requires !pc.WSleep? && pc != Idle
    requires Tracks(f, if HoldsLock(pc) then Some(pc) else None, sp)
    ensures var m := Next(f, t, k, pc);
            Tracks(m.future, if HoldsLock(m.pc) then Some(m.pc) else None, Extended(sp, Commits(pc)))
  {
    if InRegister(pc) {
    } else if InFulfil(pc) {
    } else {
      assert Commits(pc) == None;
      ReadersChangeNothing(f, t, k, pc);
    }
  }

  lemma ReadersChangeNothing(f: Future, t: Job, k: nat, pc: Pc)
    requires !InRegister(pc) && !InFulfil(pc) && pc != Idle
    ensures var m := Next(f, t, k, pc);
            && m.future.callback == f.callback && m.future.status == f.status && m.future.ready == f.ready
            && !m.pc.RCheck? && !m.pc.FReady? && !m.pc.FBroadcast? && !m.pc.FCapture?
  {}

  /** A move that neither starts nor ends holding the mutex leaves the future alone. */
  lemma Outside(f: Future, t: Job, k: nat, pc: Pc)
    requires !HoldsLock(pc) && !HoldsLock(Next(f, t, k, pc).pc)
    ensures var m := Next(f, t, k, pc);
            m.future.callback == f.callback && m.future.status == f.status && m.future.ready == f.ready
    ensures Commits(pc) == None
  {}

  lemma FollowsKept(s: State, a: Action)
    requires Enabled(s, a) && Facts(s) && Follows(s)
    ensures Follows(Apply(s, a))
  {
    var k, s', m := a.k, Apply(s, a), MoveOf(s, a);
    FactsKept(s, a);
    MoveKeeps(s, a);
    RecordCommits(s, a);
    assert Locked(s) && Locked(s') && Mine(s.future, s.task, k, s.pcs[k]);
    if a.Step? && (HoldsLock(s.pcs[k]) || HoldsLock(m.pc)) {
      if !HoldsLock(s.pcs[k]) {
        OnlyLockersLock(s.future, s.task, k, s.pcs[k]);
      }
      HolderIsMine(s, s', k);
      HolderMoves(s.future, s.task, k, s.pcs[k], Replay(s.log.order));
    } else {
      if a.Step? {
        Outside(s.future, s.task, k, s.pcs[k]);
      }
      HolderStays(s, a);
    }
  }

  lemma HolderIsMine(s: State, s': State, k: nat)
    requires Locked(s) && Locked(s') && k < |s.pcs| == |s'.pcs|
    requires HoldsLock(s.pcs[k]) || HoldsLock(s'.pcs[k])
    requires s.future.lock.None? || s.future.lock == Some(k)
    requires s'.future.lock.None? || s'.future.lock == Some(k)
    ensures Holder(s) == if HoldsLock(s.pcs[k]) then Some(s.pcs[k]) else None
    ensures Holder(s') == if HoldsLock(s'.pcs[k]) then Some(s'.pcs[k]) else None
  {}

  lemma HolderStays(s: State, a: Action)
    requires Enabled(s, a) && Locked(s) && Locked(Apply(s, a))
    requires !HoldsLock(s.pcs[a.k]) && !HoldsLock(MoveOf(s, a).pc)
    requires MoveOf(s, a).future.lock == s.future.lock
    ensures Holder(Apply(s, a)) == Holder(s)
  {
    if s.future.lock.Some? {
      Others(s, a, s.future.lock.value);
    }
  }

  // ---- invocations ----

  /** The invocation a thread is about to make. */
  function Due(pc: Pc): Option<(nat, Status)> {
    match pc
    case RUnlock(r, now) => if now.Some? then Some((r, now.value)) else None
    case RInvoke(r, st) => Some((r, st))
    case FUnlock(st, who, cb) => if cb.Some? then Some((cb.value, st)) else None
    case FInvoke(st, who, cb) => if cb.Some? then Some((cb.value, st)) else None
    case _ => None
  }

  function Owed(pc: Pc, e: (nat, Status)): int {
    if Due(pc) == Some(e) then 1 else 0
  }

  function Owes(e: (nat, Status)): Pc -> int {
    pc => Owed(pc, e)
  }

  /** Every invocation that is due has been made or is some thread's next business. */
  ghost predicate Delivered(s: State) {
    forall e: (nat, Status) ::
      multiset(s.log.invoked)[e] + Total(Owes(e), s.pcs) == multiset(Replay(s.log.order).due)[e]
  }

  /** What is added to the invocations due, and the invocation made, by one move. */
  lemma MoveDelivers(f: Future, t: Job, k: nat, pc: Pc, sp: Spec, e: (nat, Status))
    requires !pc.WSleep? && pc != Idle
    requires HoldsLock(pc) ==> Tracks(f, Some(pc), sp)
    ensures Owed(Next(f, t, k, pc).pc, e) - (if pc.RInvoke? || pc.FInvoke? then 0 else Owed(pc, e))
         == multiset(Extended(sp, Commits(pc)).due)[e] - multiset(sp.due)[e]
  {
    if InRegister(pc) {
      RegisterDelivers(f, t, k, pc, sp, e);
    } else if InFulfil(pc) {
      FulfilDelivers(f, t, k, pc, sp, e);
    } else {
      assert Due(pc) == None;
      assert Due(Next(f, t, k, pc).pc) == None;
    }
  }

  lemma RegisterDelivers(f: Future, t: Job, k: nat, pc: Pc, sp: Spec, e: (nat, Status))
    requires InRegister(pc)
    requires HoldsLock(pc) ==> Tracks(f, Some(pc), sp)
    ensures Owed(Register(f, t, k, pc).pc, e) - (if pc.RInvoke? then 0 else Owed(pc, e))
         == multiset(Extended(sp, Commits(pc)).due)[e] - multiset(sp.due)[e]
  {
  }

  lemma FulfilDelivers(f: Future, t: Job, k: nat, pc: Pc, sp: Spec, e: (nat, Status))
    requires InFulfil(pc)
    requires HoldsLock(pc) ==> Tracks(f, Some(pc), sp)
    ensures Owed(Fulfil(f, t, k, pc).pc, e) - (if pc.FInvoke? then 0 else Owed(pc, e))
         == multiset(Extended(sp, Commits(pc)).due)[e] - multiset(sp.due)[e]
  {
    if pc.FCapture? {
    } else if pc.FInvoke? {
      assert Due(AfterFulfil(pc.who)) == None;
    }
  }

  lemma RecordInvokes(s: State, a: Action, e: (nat, Status))
    requires Enabled(s, a)
    ensures multiset(Record(s, a).invoked)[e] == multiset(s.log.invoked)[e]
         + (if s.pcs[a.k].RInvoke? || s.pcs[a.k].FInvoke? then Owes(e)(s.pcs[a.k]) else 0)
  {}

  lemma DeliveredOne(s: State, a: Action, e: (nat, Status))
    requires Enabled(s, a) && Facts(s) && Follows(s) && Delivered(s)
    ensures multiset(Apply(s, a).log.invoked)[e] + Total(Owes(e), Apply(s, a).pcs)
         == multiset(Replay(Apply(s, a).log.order).due)[e]
  {
    var k, pc, pcs := a.k, s.pcs[a.k], Signalled(s, a);
    RecordInvokes(s, a, e);
    RecordCommits(s, a);
    forall j | 0 <= j < |s.pcs| ensures Owes(e)(pcs[j]) == Owes(e)(s.pcs[j]) {}
    TotalSame(Owes(e), s.pcs, pcs, |pcs|);
    TotalUpdate(Owes(e), pcs, k, MoveOf(s, a).pc);
    if a.Step? {
      assert HoldsLock(pc) ==> Holder(s) == Some(pc);
      MoveDelivers(s.future, s.task, k, pc, Replay(s.log.order), e);
    } else {
      assert Due(pc) == None && Due(MoveOf(s, a).pc) == None && Commits(pc) == None;
    }
  }

  // ---- how often the future is fulfilled ----

  function Fulfils(pc: Pc): int {
    if pc.FLock? || pc.FStatus? || pc.FReady? || pc.FBroadcast? || pc.FCapture? then 1 else 0
  }

  function IsFul(e: Event): int {
    if e.Ful? then 1 else 0
  }

  /** One fulfilment for the execution and one for the first cancel, and no other. */
  ghost predicate Counted(s: State) {
    Total(IsFul, s.log.order) + Total(Fulfils, s.pcs) == Bit(s.future.canceled) + Bit(s.task.executed)
  }

  function FlagsRaised(s: State, a: Action): int
    requires Enabled(s, a)
  {
    var m := MoveOf(s, a);
    Bit(m.future.canceled) - Bit(s.future.canceled) + Bit(m.task.executed) - Bit(s.task.executed)
  }

  lemma MoveCounts(s: State, a: Action)
    requires Enabled(s, a) && Mine(s.future, s.task, a.k, s.pcs[a.k])
    ensures Fulfils(MoveOf(s, a).pc) - Fulfils(s.pcs[a.k])
         == FlagsRaised(s, a) - Bit(Commits(s.pcs[a.k]).Some? && Commits(s.pcs[a.k]).value.Ful?)
  {
    if a.Step? && InFulfil(s.pcs[a.k]) {
    }
  }

  lemma CountedKept(s: State, a: Action)
    requires Enabled(s, a) && Facts(s) && Counted(s)
    ensures Counted(Apply(s, a))
  {
    var k, pcs := a.k, Signalled(s, a);
    RecordCommits(s, a);
    MoveCounts(s, a);
    TotalSame(Fulfils, s.pcs, pcs, |pcs|);
    TotalUpdate(Fulfils, pcs, k, MoveOf(s, a).pc);
    if Commits(s.pcs[k]).Some? {
      TotalAppend(IsFul, s.log.order, Commits(s.pcs[k]).value);
    } else {
      assert Record(s, a).order == s.log.order;
    }
  }

  // ---- over every run ----

  ghost predicate Linear(s: State) {
    Facts(s) && Follows(s) && Delivered(s) && Counted(s)
  }

  lemma LinearKept(s: State, a: Action)
    requires Enabled(s, a) && Linear(s)
    ensures Linear(Apply(s, a))
  {
    FactsKept(s, a);
    FollowsKept(s, a);
    CountedKept(s, a);
    forall e: (nat, Status)
      ensures multiset(Apply(s, a).log.invoked)[e] + Total(Owes(e), Apply(s, a).pcs)
           == multiset(Replay(Apply(s, a).log.order).due)[e]
    {
      DeliveredOne(s, a, e);
    }
  }

  lemma InitialLinear(n: nat)
    ensures Linear(Initial(n))
  {
    var s := Initial(n);
    InitialFacts(n);
    forall e: (nat, Status) ensures Total(Owes(e), s.pcs) == 0 {
      TotalZero(Owes(e), s.pcs);
    }
    TotalZero(Fulfils, s.pcs);
  }

  lemma {:induction false} LinearOverRun(s: State, acts: seq<Action>)
    requires Linear(s) && Legal(s, acts)
    ensures Linear(Run(s, acts))
    decreases |acts|
  {
    if acts != [] {
      LinearKept(s, acts[0]);
      LinearOverRun(Apply(s, acts[0]), acts[1..]);
    }
  }

  ghost predicate AllReturned(s: State) {
    forall k :: 0 <= k < |s.pcs| ==> s.pcs[k] == Idle
  }

  /** No lost completion: when every call has returned, each callback has been invoked
      with each outcome exactly as often as the committed critical sections call for,
      whatever the interleaving was. */
  lemma CallbacksExactly(n: nat, acts: seq<Action>, r: nat, st: Status)
    requires Legal(Initial(n), acts) && AllReturned(Run(Initial(n), acts))
    ensures var s := Run(Initial(n), acts);
            multiset(s.log.invoked)[(r, st)] == |Firings(s.log.order, |s.log.order|, r, st)|
  {
    InitialLinear(n);
    LinearOverRun(Initial(n), acts);
    var s := Run(Initial(n), acts);
    TotalZero(Owes((r, st)), s.pcs);
    DueAreFirings(s.log.order, |s.log.order|, r, st);
  }

  /** With one registration and one fulfilment, in either order, the callback has run
      exactly once, with the outcome of the fulfilment. */
  lemma OnceEach(n: nat, acts: seq<Action>, r: nat, st: Status)
    requires Legal(Initial(n), acts) && AllReturned(Run(Initial(n), acts))
    requires var order := Run(Initial(n), acts).log.order; order == [Reg(r), Ful(st)] || order == [Ful(st), Reg(r)]
    ensures Run(Initial(n), acts).log.invoked == [(r, st)]
  {
    InitialLinear(n);
    LinearOverRun(Initial(n), acts);
    var s := Run(Initial(n), acts);
    PairReplay(s.log.order, r, st);
    forall e: (nat, Status) ensures multiset(s.log.invoked)[e] == multiset([(r, st)])[e] {
      TotalZero(Owes(e), s.pcs);
    }
    SameSingleton(s.log.invoked, (r, st));
  }

  lemma PairReplay(order: seq<Event>, r: nat, st: Status)
    requires order == [Reg(r), Ful(st)] || order == [Ful(st), Reg(r)]
    ensures Replay(order).due == [(r, st)]
  {
    assert ReplayTo(order, 1) == After(Spec(None, None, []), order[0]);
    assert ReplayTo(order, 2) == After(ReplayTo(order, 1), order[1]);
  }

  lemma SameSingleton<T>(s: seq<T>, x: T)
    requires forall y :: multiset(s)[y] == multiset([x])[y]
    ensures s == [x]
  {
    assert multiset(s) == multiset([x]);
    assert |s| == |multiset(s)| == 1;
    assert s[0] in multiset(s);
  }

  /** A future is fulfilled at most twice: once by the execution, once by the first
      cancel; the status is the last one stored. A cancel after the execution, or an
      execution after a cancel, therefore overwrites the first outcome. */
  lemma FulfilledAtMostTwice(n: nat, acts: seq<Action>)
    requires Legal(Initial(n), acts) && AllReturned(Run(Initial(n), acts))
    ensures var s := Run(Initial(n), acts);
            && Total(IsFul, s.log.order) == Bit(s.future.canceled) + Bit(s.task.executed)
            && (s.future.ready <==> s.future.canceled || s.task.executed)
            && (s.future.ready ==> LastFul(s.log.order, |s.log.order|, s.future.status))
  {
    InitialLinear(n);
    LinearOverRun(Initial(n), acts);
    var s := Run(Initial(n), acts);
    TotalZero(Fulfils, s.pcs);
    assert Holder(s) == None;
    if s.future.ready {
      DoneIsLast(s.log.order, |s.log.order|, s.future.status);
      var j :| 0 <= j < |s.log.order| && s.log.order[j] == Ful(s.future.status);
      TotalBounds(IsFul, s.log.order, j);
    } else if s.future.canceled || s.task.executed {
      var j := TotalSource(IsFul, s.log.order);
      NoneDone(s.log.order, |s.log.order|, j);
    }
  }

  lemma {:induction false} NoneDone(order: seq<Event>, m: nat, j: nat)
    requires m <= |order| && j < m && order[j].Ful?
    ensures ReplayTo(order, m).done.Some?
  {
    if j < m - 1 {
      NoneDone(order, m - 1, j);
    }
  }
}
