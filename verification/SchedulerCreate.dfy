/** The queues of fq_scheduler_create (src/scheduler/scheduler.c): when they can be made
    and how much they hold together. */
module SchedulerCreate {
  import opened Common
  import opened Bits
  import opened Queue
  import opened SchedulerModel
  import opened SchedulerShape
  import opened SchedulerIdle
  import opened SchedulerRuns
  import opened SchedulerSolo
  import opened SchedulerFairness

  /** FQ_MAX_THREADS. */
  const MAX_THREADS: nat := 256

  /** The number of workers for a requested thread count on a machine with `cores`: the
      count requested, or as many as there are cores when none is, brought into 1..256. */
  function WorkerCount(threads: nat, cores: nat): (n: nat)
    ensures 1 <= n <= MAX_THREADS
    ensures 1 <= threads <= MAX_THREADS ==> n == threads
    ensures threads == 0 && 1 <= cores <= MAX_THREADS ==> n == cores
    ensures threads == cores == 0 ==> n == 1
    ensures threads > MAX_THREADS || (threads == 0 && cores > MAX_THREADS) ==> n == MAX_THREADS
  {
    var tc := if threads == 0 then cores else threads;
    if tc == 0 then 1 else if tc > MAX_THREADS then MAX_THREADS else tc
  }

  /** Each worker's queue holds its part of the request, rounded up, and all hold as much. */
  ghost predicate EqualShares(sizes: seq<nat>, requested: nat) {
    && sizes != []
    && forall i :: 0 <= i < |sizes| ==> Rounds(sizes[i], requested / |sizes|) && sizes[i] == sizes[0]
  }

  /** The queues are made exactly when the requested capacity is at most 2^24, but for
      a scheduler of one worker, for which the rounding of next_pow2 lets a request
      above 2^63 through and makes queues without a slot. */
  method CreateQueues(requested: nat, threads: nat, cores: nat)
      returns (st: Status, global: TaskQueue?, locals: seq<TaskQueue>, ghost sizes: seq<nat>)
    requires requested < WORD64
    ensures st == OK || st == Inval
    ensures st == OK <==> requested <= MAX_CAPACITY || (requested > TOP64 && WorkerCount(threads, cores) == 1)
    ensures st == OK ==> global != null && |locals| == |sizes| == WorkerCount(threads, cores)
    ensures st == OK && 1 <= threads <= MAX_THREADS ==> |locals| == threads
    ensures st == OK && requested <= MAX_CAPACITY ==>
              && global.Valid() && Rounds(global.capacity, requested)
              && (forall i :: 0 <= i < |locals| ==> locals[i].Valid() && locals[i].capacity == sizes[i])
              && EqualShares(sizes, requested)
              && global.capacity + Total(Size, sizes) <= 3 * MAX_CAPACITY
  {
    locals, sizes := [], [];
    st, global := CreateQueue(requested);
    if st != OK { return; }
    var tc := WorkerCount(threads, cores);
    Shares(requested, tc);
    st, locals, sizes := CreateLocals(PerWorker(requested, tc), tc);
    if requested <= MAX_CAPACITY { SumOfShares(sizes, requested, tc); }
  }

  /** fq_queue_create with the bound on what it rounds up to. */
  method CreateQueue(requested: nat) returns (st: Status, q: TaskQueue?)
    requires requested < WORD64
    ensures st == OK || st == Inval
    ensures st == OK <==> requested <= MAX_CAPACITY || requested > TOP64
    ensures st == OK ==> q != null
    ensures requested <= MAX_CAPACITY ==>
              q.Valid() && requested <= q.capacity <= Share(requested) && q.capacity <= MAX_CAPACITY
              && Rounds(q.capacity, requested)
  {
    st, q := TaskQueue.Create(requested);
    if requested <= MAX_CAPACITY {
      Pow2Constants();
      Pow2Mono(6, q.lg);
      Rounded(q.capacity, requested, q.lg);
    }
  }

  /** `capacity` is the least power of two that is at least 64 and at least `requested`. */
  ghost predicate Rounds(capacity: nat, requested: nat) {
    && (exists k: nat :: capacity == Pow2(k)) && MIN_CAPACITY <= capacity && requested <= capacity
    && forall k: nat :: MIN_CAPACITY <= Pow2(k) && requested <= Pow2(k) ==> capacity <= Pow2(k)
  }

  lemma RoundsOnce(c: nat, d: nat, requested: nat)
    requires Rounds(c, requested) && Rounds(d, requested)
    ensures c == d
  {
    var k: nat :| c == Pow2(k);
    var l: nat :| d == Pow2(l);
  }

  /** The workers' queues. */
  method CreateLocals(share: nat, tc: nat) returns (st: Status, locals: seq<TaskQueue>, ghost sizes: seq<nat>)
    requires share < WORD64 && tc > 0
    ensures st == OK || st == Inval
    ensures st == OK <==> share <= MAX_CAPACITY || share > TOP64
    ensures st == OK ==> |locals| == |sizes| == tc
    ensures share <= MAX_CAPACITY ==>
              forall i :: 0 <= i < tc ==>
                locals[i].Valid() && locals[i].capacity == sizes[i] && share <= sizes[i] <= Share(share)
                && Rounds(sizes[i], share) && sizes[i] == sizes[0]
  {
    st, locals, sizes := OK, [], [];
    for i := 0 to tc
      invariant |locals| == |sizes| == i && st == OK
      invariant i > 0 ==> share <= MAX_CAPACITY || share > TOP64
      invariant share <= MAX_CAPACITY ==>
                  forall j :: 0 <= j < i ==>
                    locals[j].Valid() && locals[j].capacity == sizes[j] && share <= sizes[j] <= Share(share)
                    && Rounds(sizes[j], share) && sizes[j] == sizes[0]
    {
      var q;
      st, q := CreateQueue(share);
      if st != OK { return; }
      if i > 0 && share <= MAX_CAPACITY { RoundsOnce(q.capacity, sizes[0], share); }
      locals, sizes := locals + [q], sizes + [q.capacity];
    }
  }

  function Size(n: nat): int { n }

  /** A bound on a capacity rounded up from `q`. */
  function Share(q: nat): nat {
    if q <= MIN_CAPACITY then MIN_CAPACITY else 2 * q
  }

  lemma Rounded(capacity: nat, requested: nat, lg: nat)
    requires capacity == Pow2(lg) && 6 <= lg <= 24
    requires forall k: nat :: MIN_CAPACITY <= Pow2(k) && requested <= Pow2(k) ==> capacity <= Pow2(k)
    ensures capacity <= Share(requested) && capacity <= MAX_CAPACITY
  {
    Pow2Constants();
    Pow2Mono(lg, 24);
    if lg > 6 {
      Pow2Mono(6, lg - 1);
      assert capacity == 2 * Pow2(lg - 1);
    }
  }

  /** The capacity requested for each worker's queue. */
  function PerWorker(requested: nat, tc: nat): nat
    requires tc > 0
  {
    requested / tc
  }

  lemma Shares(requested: nat, tc: nat)
    requires 1 <= tc <= MAX_THREADS && requested < WORD64
    ensures PerWorker(requested, tc) <= requested
    ensures tc == 1 ==> PerWorker(requested, tc) == requested
    ensures requested > TOP64 && tc > 1 ==> MAX_CAPACITY < PerWorker(requested, tc) <= TOP64
  {
    var q := PerWorker(requested, tc);
    Divided(requested, tc);
    MulMono(1, tc, q);
    if tc > 1 {
      MulMono(2, tc, q);
      MulMono(tc, MAX_THREADS, q);
    }
  }

  lemma Divided(x: nat, d: nat)
    requires d > 0
    ensures PerWorker(x, d) * d <= x < PerWorker(x, d) * d + d
    ensures d == 1 ==> PerWorker(x, d) == x
  {
  }

  /** Together the workers' queues hold at most twice the greatest capacity. */
  lemma SumOfShares(sizes: seq<nat>, requested: nat, tc: nat)
    requires 1 <= tc <= MAX_THREADS && requested <= MAX_CAPACITY && |sizes| == tc
    requires forall i :: 0 <= i < tc ==> sizes[i] <= Share(PerWorker(requested, tc))
    ensures Total(Size, sizes) <= 2 * MAX_CAPACITY
  {
    var q := PerWorker(requested, tc);
    assert requested == tc * q + requested % tc;
    TotalRange(Size, sizes, Share(q));
    if q <= MIN_CAPACITY {
      assert tc * MIN_CAPACITY <= MAX_THREADS * MIN_CAPACITY;
    } else {
      assert tc * (2 * q) == 2 * (tc * q);
    }
  }

  /** tasks_pending fits its C int: in every run of a scheduler with queues of the
      capacities that CreateQueues makes and fewer than 2^30 threads, it stays below
      2^31 as long as no cancel_all is called. */
  lemma PendingFits(cfg: Config, capacity: nat, sizes: seq<nat>, clients: nat, acts: seq<Action>)
    requires cfg.workers == |sizes| > 0 && capacity > 0 && sizes[0] > 0
    requires forall i :: 0 <= i < |sizes| ==> sizes[i] == sizes[0]
    requires capacity + Total(Size, sizes) <= 3 * MAX_CAPACITY
    requires |sizes| + clients < 0x4000_0000
    requires Legal(Initial(cfg, sizes[0] - 1, capacity - 1, clients), acts) && NoCancels(acts)
    ensures var s := Run(Initial(cfg, sizes[0] - 1, capacity - 1, clients), acts);
            0 <= s.count.pending < 0x8000_0000 && 0 <= s.count.active <= cfg.workers
  {
    var start := Initial(cfg, sizes[0] - 1, capacity - 1, clients);
    InitialKnown(cfg, sizes[0] - 1, capacity - 1, clients);
    InitialRooms(cfg, sizes[0] - 1, capacity - 1, clients);
    PendingFitsAfter(start, acts, capacity, sizes);
  }

  lemma InitialRooms(cfg: Config, localRoom: nat, globalRoom: nat, clients: nat)
    requires cfg.workers > 0
    ensures var s := Initial(cfg, localRoom, globalRoom, clients);
            && NobodyCancels(s) && |s.workers| == |s.locals| == cfg.workers && |s.calls| == cfg.workers + clients
            && s.global.room == globalRoom && forall i :: 0 <= i < |s.locals| ==> s.locals[i].room == localRoom
  {
  }

  lemma PendingFitsAfter(start: State, acts: seq<Action>, capacity: nat, sizes: seq<nat>)
    requires Known(start) && NobodyCancels(start) && Legal(start, acts) && NoCancels(acts)
    requires |start.locals| == |sizes| && start.global.room + 1 == capacity
    requires forall i :: 0 <= i < |sizes| ==> start.locals[i].room + 1 == sizes[i]
    requires capacity + Total(Size, sizes) <= 3 * MAX_CAPACITY && |start.calls| < 0x4000_0000
    ensures var s := Run(start, acts);
            0 <= s.count.pending < 0x8000_0000 && 0 <= s.count.active <= |start.workers|
  {
    NoneCancels(start, acts);
    RoomsOverRun(start, acts);
    PendingFitsIn(Run(start, acts), capacity, sizes);
  }

  lemma PendingFitsIn(s: State, capacity: nat, sizes: seq<nat>)
    requires Sound(s) && NobodyCancels(s) && |s.locals| == |sizes|
    requires s.global.room + 1 == capacity && forall i :: 0 <= i < |sizes| ==> s.locals[i].room + 1 == sizes[i]
    requires capacity + Total(Size, sizes) <= 3 * MAX_CAPACITY && |s.calls| < 0x4000_0000
    ensures 0 <= s.count.pending < 0x8000_0000 && 0 <= s.count.active <= |s.workers|
  {
    PendingBounded(s);
    RoomsOfSizes(s.locals, sizes, |sizes|);
  }

  /** No thread calls fq_scheduler_cancel_all. */
  predicate NoCancels(acts: seq<Action>) {
    forall i :: 0 <= i < |acts| ==> !(acts[i].Begin? && acts[i].call.CancelFlag?)
  }

  ghost predicate NobodyCancels(s: State) {
    s.log.dropped == [] && forall k :: 0 <= k < |s.calls| ==> !InCancel(s.calls[k])
  }

  lemma StaysUncanceled(s: State, a: Action)
    requires Shape(s) && Enabled(s, a) && NobodyCancels(s) && !(a.Begin? && a.call.CancelFlag?)
    ensures NobodyCancels(Apply(s, a))
    ensures |Apply(s, a).calls| == |s.calls| && |Apply(s, a).workers| == |s.workers|
  {
    SameThreads(s, a);
    forall k | 0 <= k < |s.calls| ensures !InCancel(Apply(s, a).calls[k]) {
      CallsAfter(s, a, k);
      if a == CStep(k) { NoCancelStep(s, k); }
    }
    match a
    case WStep(w) =>
      if s.workers[w].pc.Probe? {
        ProbeEffect(s, w, true);
      } else if Holding(s.workers[w].pc) {
        TaskEffect(s, w);
      } else {
        RoundEffect(s, w);
      }
    case WContend(w) => ProbeEffect(s, w, false);
    case Begin(_, _) =>
    case CStep(k) => NoCancelStep(s, k);
  }

  lemma NoCancelStep(s: State, k: nat)
    requires Shape(s) && Enabled(s, CStep(k)) && !InCancel(s.calls[k])
    ensures var s' := Apply(s, CStep(k));
            s'.log.dropped == s.log.dropped && k < |s'.calls| && !InCancel(s'.calls[k])
  {
    if s.calls[k].SubPush? || s.calls[k].SubSpill? {
      var q := AttemptEffect(s, k);
    }
  }

  lemma {:induction false} NoneCancels(s: State, acts: seq<Action>)
    requires Known(s) && Legal(s, acts) && NobodyCancels(s) && NoCancels(acts)
    ensures var s' := Run(s, acts);
            Known(s') && NobodyCancels(s') && |s'.calls| == |s.calls| && |s'.workers| == |s.workers|
    decreases |acts|
  {
    if acts != [] {
      assert !(acts[0].Begin? && acts[0].call.CancelFlag?);
      KnownKept(s, acts[0]);
      StaysUncanceled(s, acts[0]);
      NoneCancels(Apply(s, acts[0]), acts[1..]);
    }
  }

  lemma {:induction false} RoomsOfSizes(locals: seq<Fifo>, sizes: seq<nat>, n: nat)
    requires n <= |sizes| == |locals|
    requires forall i :: 0 <= i < |sizes| ==> locals[i].room + 1 == sizes[i]
    ensures TotalTo(RoomOf, locals, n) + n == TotalTo(Size, sizes, n)
  {
    if n > 0 {
      RoomsOfSizes(locals, sizes, n - 1);
    }
  }
}
