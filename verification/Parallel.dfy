/** src/utils/parallel.c: fq_scheduler_parallel_for end to end, on the scheduler code
    that runs among other threads. */
module Parallel {
  import opened Common
  import opened SchedulerModel
  import opened SchedulerPlaces
  import opened SchedulerIdle
  import opened SchedulerRuns
  import opened SchedulerCode

  /** A fq_parallel_range_t: the indices of one chunk. */
  datatype Range = Range(begin: int, end: int) {
    predicate Has(j: int) {
      begin <= j < end
    }
  }

  const LONG_MAX: int := 0x7FFF_FFFF_FFFF_FFFF

  // ---- calls of fn ----

  /** parallel_for_worker: `calls` are the indices fn is called with, in order. */
  method RunRange(range: Range) returns (calls: seq<int>)
    ensures |calls| == if range.begin < range.end then range.end - range.begin else 0
    ensures forall i :: 0 <= i < |calls| ==> calls[i] == range.begin + i
    ensures forall j :: multiset(calls)[j] == Bit(range.Has(j))
  {
    calls := [];
    var i := range.begin;
    while i < range.end
      invariant i == range.begin + |calls| && (i <= range.end || calls == [])
      invariant forall n :: 0 <= n < |calls| ==> calls[n] == range.begin + n
      invariant forall j :: multiset(calls)[j] == Bit(range.begin <= j < i)
    {
      calls := calls + [i];
      i := i + 1;
    }
  }

  /** How often running the task of a chunk calls fn with `j`. */
  function CallsWith(ranges: map<Task, Range>, j: int): Task -> int {
    t => Bit(t in ranges && ranges[t].Has(j))
  }

  /** How often fn has been called with `j` by the tasks in `ran`. */
  ghost function Calls(ran: seq<Task>, ranges: map<Task, Range>, j: int): int {
    Total(CallsWith(ranges, j), ran)
  }

  // ---- the chunks ----

  /** The chunks of `mine` tile [begin, cur): every index in it is in exactly one of
      them and no other index is in any. */
  ghost predicate Tiles(ranges: map<Task, Range>, mine: seq<Task>, begin: int, cur: int) {
    forall j :: Total(CallsWith(ranges, j), mine) == Bit(begin <= j < cur)
  }

  /** `t` was turned away. */
  ghost predicate Refused(s: State, t: Task) {
    t in s.log.refused || t in s.log.overflowed
  }

  /** The tasks made so far: those in `mine` were accepted, each once, and any other
      was turned away. */
  ghost predicate Placed(s: State, ranges: map<Task, Range>, mine: seq<Task>) {
    && (forall t :: t in mine ==> t in s.log.accepted && t in ranges)
    && (forall t :: multiset(mine)[t] <= 1)
    && (forall t :: t in ranges ==> t in mine || Refused(s, t))
  }

  lemma PlacedLater(s: State, s': State, ranges: map<Task, Range>, mine: seq<Task>)
    requires Placed(s, ranges, mine) && Later(s, s')
    ensures Placed(s', ranges, mine)
  {
  }

  lemma RefusedNeverRuns(s: State, t: Task)
    requires Known(s) && Refused(s, t)
    ensures multiset(s.log.ran)[t] == 0
  {
    assert ConservedFor(s, t);
    TotalNonNegative(Announcing(t), s.calls);
    TotalNonNegative(Offering(t), s.calls);
    if t in s.log.refused {
      assert multiset(s.log.refused)[t] > 0;
    } else {
      assert multiset(s.log.overflowed)[t] > 0;
    }
    RanAtMostOnce(s, t);
  }

  lemma RanAtMostOnce(s: State, t: Task)
    requires Known(s)
    ensures multiset(s.log.ran)[t] <= Bit(t in s.log.accepted)
  {
    assert ConservedFor(s, t);
    TotalNonNegative(Queueing(t), s.locals);
    TotalNonNegative(Handling(t), s.workers);
    TotalNonNegative(Batching(t), s.calls);
  }

  /** fn is never called twice with the same index, nor with an index outside the
      chunks that were accepted. */
  lemma AtMostOnce(s: State, ranges: map<Task, Range>, mine: seq<Task>, begin: int, cur: int, j: int)
    requires Known(s) && Placed(s, ranges, mine) && Tiles(ranges, mine, begin, cur)
    ensures Calls(s.log.ran, ranges, j) <= Bit(begin <= j < cur)
  {
    forall t | CallsWith(ranges, j)(t) > 0
      ensures multiset(s.log.ran)[t] <= multiset(mine)[t]
    {
      RanAtMostOnce(s, t);
      if t !in mine {
        RefusedNeverRuns(s, t);
      }
    }
    TotalByCounts(CallsWith(ranges, j), s.log.ran, mine);
  }

  /** When all the accepted chunks are done, fn has been called with every index. */
  lemma AtLeastOnce(s: State, ranges: map<Task, Range>, mine: seq<Task>, begin: int, cur: int, j: int)
    requires Known(s) && Placed(s, ranges, mine) && Tiles(ranges, mine, begin, cur)
    requires forall t :: t in mine ==> Done(s, t)
    ensures Calls(s.log.ran, ranges, j) >= Bit(begin <= j < cur)
  {
    forall t | CallsWith(ranges, j)(t) > 0
      ensures multiset(mine)[t] <= multiset(s.log.ran)[t]
    {
      if t in mine {
        AcceptedNotOverflowed(s, t);
        assert t in s.log.ran;
      }
    }
    TotalByCounts(CallsWith(ranges, j), mine, s.log.ran);
  }

  /** One more accepted chunk. */
  lemma TilesNext(ranges: map<Task, Range>, mine: seq<Task>, begin: int, cur: int, t: Task, end: int)
    requires Tiles(ranges, mine, begin, cur) && t !in mine && begin <= cur <= end
    ensures Tiles(ranges[t := Range(cur, end)], mine + [t], begin, end)
  {
    var ranges' := ranges[t := Range(cur, end)];
    forall j ensures Total(CallsWith(ranges', j), mine + [t]) == Bit(begin <= j < end) {
      TotalAppend(CallsWith(ranges', j), mine, t);
      SameCalls(ranges, ranges', mine, |mine|, j);
    }
  }

  /** One more chunk that was turned away. */
  lemma TilesRefused(ranges: map<Task, Range>, mine: seq<Task>, begin: int, cur: int, t: Task, range: Range)
    requires Tiles(ranges, mine, begin, cur) && t !in mine
    ensures Tiles(ranges[t := range], mine, begin, cur)
  {
    var ranges' := ranges[t := range];
    forall j ensures Total(CallsWith(ranges', j), mine) == Bit(begin <= j < cur) {
      SameCalls(ranges, ranges', mine, |mine|, j);
    }
  }

  lemma {:induction false} SameCalls(ranges: map<Task, Range>, ranges': map<Task, Range>,
                                       mine: seq<Task>, n: nat, j: int)
    requires n <= |mine|
    requires forall t :: t in mine ==> (t in ranges <==> t in ranges') && (t in ranges ==> ranges'[t] == ranges[t])
    ensures TotalTo(CallsWith(ranges', j), mine, n) == TotalTo(CallsWith(ranges, j), mine, n)
  {
    if n > 0 {
      SameCalls(ranges, ranges', mine, n - 1, j);
    }
  }

  // ---- where the chunks end ----

  /** The number of indices in the first `i` chunks, each of `chunk` or, for the first
      `remainder` of them, one more. */
  function Cut(chunk: nat, remainder: nat, i: nat): nat {
    if i == 0 then 0 else Cut(chunk, remainder, i - 1) + chunk + if i - 1 < remainder then 1 else 0
  }

  lemma {:induction false} CutForm(chunk: nat, remainder: nat, i: nat)
    ensures Cut(chunk, remainder, i) == i * chunk + if i < remainder then i else remainder
  {
    if i > 0 {
      CutForm(chunk, remainder, i - 1);
      assert i * chunk == (i - 1) * chunk + chunk;
    }
  }

  lemma {:induction false} CutMono(chunk: nat, remainder: nat, i: nat, n: nat)
    requires i <= n
    ensures Cut(chunk, remainder, i) <= Cut(chunk, remainder, n)
  {
    if i < n {
      CutMono(chunk, remainder, i, n - 1);
    }
  }

  /** The chunks of a division with remainder make up the whole. */
  lemma CutsAll(count: nat, threads: nat)
    requires threads > 0
    ensures Cut(count / threads, count % threads, threads) == count
  {
    CutForm(count / threads, count % threads, threads);
  }

  // ---- fq_scheduler_parallel_for ----

  /** For every state from `s` on, fn has been called at most once with each index of
      [begin, cur) and with no other. */
  ghost predicate ForGood(s: State, ranges: map<Task, Range>, begin: int, cur: int) {
    forall s', j :: Known(s') && Later(s, s') ==> Calls(s'.log.ran, ranges, j) <= Bit(begin <= j < cur)
  }

  lemma PlacedForGood(s: State, ranges: map<Task, Range>, mine: seq<Task>, begin: int, cur: int)
    requires Placed(s, ranges, mine) && Tiles(ranges, mine, begin, cur)
    ensures ForGood(s, ranges, begin, cur)
  {
    forall s', j | Known(s') && Later(s, s') ensures Calls(s'.log.ran, ranges, j) <= Bit(begin <= j < cur) {
      PlacedLater(s, s', ranges, mine);
      AtMostOnce(s', ranges, mine, begin, cur, j);
    }
  }

  /** thread_count as fq_scheduler_parallel_for uses it. */
  function Threads(n: nat): (threads: nat)
    ensures threads > 0
  {
    if n == 0 then 1 else n
  }

  /** Is there memory for the i-th chunk's range structure and task? */
  predicate Memory(memory: nat -> bool, i: nat) {
    memory(2 * i) && memory(2 * i + 1)
  }

  /** What the answer says of the chunks: those of `mine` were accepted, one after the
      other, each with memory for it, and on an error the next one, `lost`, had no memory,
      was refused because the flag is up, or was turned away for lack of room. */
  ghost predicate Explained(s: State, ranges: map<Task, Range>, mine: seq<Task>, lost: Option<Task>, st: Status,
                            memory: nat -> bool)
  {
    && (forall t :: t in ranges <==> t in mine || lost == Some(t))
    && (forall i :: 0 <= i < |mine| ==> Memory(memory, i))
    && (st == NoMem ==> !Memory(memory, |mine|))
    && (st == Closed || st == Overflow ==> Memory(memory, |mine|))
    && match st
       case Closed => lost.Some? && lost.value in s.log.refused && s.shut.flag
       case Overflow => lost.Some? && lost.value in s.log.overflowed
       case _ => lost == None && (st == OK || st == NoMem)
  }

  /** The chunks follow each other and are as equal as can be: `chunk` indices each, and one
      more in the first `remainder`. */
  ghost predicate Even(ranges: map<Task, Range>, mine: seq<Task>, begin: int, chunk: int, remainder: int) {
    forall i :: 0 <= i < |mine| ==> EvenAt(ranges, mine, begin, chunk, remainder, i)
  }

  ghost predicate EvenAt(ranges: map<Task, Range>, mine: seq<Task>, begin: int, chunk: int, remainder: int, i: nat)
    requires i < |mine|
  {
    && mine[i] in ranges && (i > 0 ==> mine[i - 1] in ranges)
    && ranges[mine[i]].begin == (if i == 0 then begin else ranges[mine[i - 1]].end)
    && ranges[mine[i]].end - ranges[mine[i]].begin == chunk + if i < remainder then 1 else 0
  }

  /** The chunks of [begin, end) for so many threads. */
  ghost predicate Spread(ranges: map<Task, Range>, mine: seq<Task>, begin: int, end: int, threads: nat) {
    threads > 0 && Even(ranges, mine, begin, (end - begin) / threads, (end - begin) % threads)
  }

  /** ... in terms of where they are cut. */
  ghost predicate CutThere(ranges: map<Task, Range>, mine: seq<Task>, begin: int, chunk: nat, remainder: nat) {
    forall i :: 0 <= i < |mine| ==> CutAt(ranges, mine[i], begin, chunk, remainder, i)
  }

  predicate CutAt(ranges: map<Task, Range>, t: Task, begin: int, chunk: nat, remainder: nat, i: nat) {
    && t in ranges
    && ranges[t] == Range(begin + Cut(chunk, remainder, i), begin + Cut(chunk, remainder, i + 1))
  }

  lemma CutsAreEven(ranges: map<Task, Range>, mine: seq<Task>, begin: int, chunk: nat, remainder: nat)
    requires CutThere(ranges, mine, begin, chunk, remainder)
    ensures Even(ranges, mine, begin, chunk, remainder)
  {
    forall i | 0 <= i < |mine| ensures EvenAt(ranges, mine, begin, chunk, remainder, i) {
      assert CutAt(ranges, mine[i], begin, chunk, remainder, i);
      if i > 0 {
        assert CutAt(ranges, mine[i - 1], begin, chunk, remainder, i - 1);
      }
    }
  }

  lemma CutNext(was: map<Task, Range>, had: seq<Task>, begin: int, chunk: nat, remainder: nat, t: Task, range: Range)
    requires CutThere(was, had, begin, chunk, remainder) && t !in had
    requires range == Range(begin + Cut(chunk, remainder, |had|), begin + Cut(chunk, remainder, |had| + 1))
    ensures CutThere(was[t := range], had, begin, chunk, remainder)
    ensures CutThere(was[t := range], had + [t], begin, chunk, remainder)
  {
    assert forall i :: 0 <= i < |had| ==> had[i] != t && CutAt(was, had[i], begin, chunk, remainder, i);
  }

  /** The submission loop, among other threads. `memory` answers the allocations of
      range structures and of tasks. */
  method SubmitChunks(sch: Scheduler, k: nat, begin: int, end: int, memory: nat -> bool)
      returns (st: Status, ranges: map<Task, Range>, cur: int, ghost mine: seq<Task>, ghost lost: Option<Task>)
    requires sch.Free(k, sch.Now()) && begin < end
    modifies sch
    ensures sch.Free(k, old(sch.Now()))
    ensures begin <= cur <= end && (st == OK <==> cur == end)
    ensures Placed(sch.s, ranges, mine) && Tiles(ranges, mine, begin, cur)
    ensures Explained(sch.s, ranges, mine, lost, st, memory)
    ensures |mine| <= Threads(sch.cfg.workers) && (st != OK ==> |mine| < Threads(sch.cfg.workers))
    ensures Spread(ranges, mine, begin, end, Threads(sch.cfg.workers))
  {
    var count := end - begin;
    var threads := Threads(sch.cfg.workers);
    var chunk, remainder := count / threads, count % threads;
    CutsAll(count, threads);
    st, ranges, cur, mine, lost := SubmitLoop(sch, k, begin, end, threads, chunk, remainder, memory, sch.Now());
  }

  /** After the chunks up to `cur`, submitted since the moment `s0`. */
  ghost predicate Reached(sch: Scheduler, k: nat, ranges: map<Task, Range>, mine: seq<Task>,
                          begin: int, cur: int, s0: Moment)
    reads sch
  {
    sch.Free(k, s0) && Placed(sch.s, ranges, mine) && Tiles(ranges, mine, begin, cur)
  }

  method SubmitLoop(sch: Scheduler, k: nat, begin: int, end: int, threads: nat, chunk: nat, remainder: nat,
                    memory: nat -> bool, ghost s0: Moment)
      returns (st: Status, ranges: map<Task, Range>, cur: int, ghost mine: seq<Task>, ghost lost: Option<Task>)
    requires Reached(sch, k, map[], [], begin, begin, s0) && begin < end == begin + Cut(chunk, remainder, threads)
    modifies sch
    ensures begin <= cur <= end && (st == OK <==> cur == end)
    ensures Reached(sch, k, ranges, mine, begin, cur, s0) && Explained(sch.s, ranges, mine, lost, st, memory)
    ensures |mine| <= threads && (st != OK ==> |mine| < threads)
    ensures Even(ranges, mine, begin, chunk, remainder)
  {
    st, cur, ranges, mine, lost := OK, begin, map[], [], None;
    var i := 0;
    while i < threads && cur < end
      invariant 0 <= i <= threads && st == OK && cur == begin + Cut(chunk, remainder, i) && begin <= cur <= end
      invariant i == threads ==> cur == end
      invariant Reached(sch, k, ranges, mine, begin, cur, s0)
      invariant |mine| == i && lost == None && Explained(sch.s, ranges, mine, lost, st, memory)
      invariant CutThere(ranges, mine, begin, chunk, remainder)
    {
      st, ranges, mine, lost, cur := SubmitNext(sch, k, begin, end, cur, threads, chunk, remainder, i, memory,
                                                ranges, mine, s0);
      if st != OK { break; }
      i := i + 1;
    }
    CutsAreEven(ranges, mine, begin, chunk, remainder);
  }

  /** The i-th chunk; the next one begins at `next`. */
  method SubmitNext(sch: Scheduler, k: nat, begin: int, end: int, cur: int, threads: nat, chunk: nat, remainder: nat,
                    i: nat, memory: nat -> bool, was: map<Task, Range>, ghost had: seq<Task>, ghost s0: Moment)
      returns (st: Status, ranges: map<Task, Range>, ghost mine: seq<Task>, ghost lost: Option<Task>, next: int)
    requires Reached(sch, k, was, had, begin, cur, s0) && i < threads
    requires |had| == i && Explained(sch.s, was, had, None, OK, memory)
    requires end == begin + Cut(chunk, remainder, threads) && cur == begin + Cut(chunk, remainder, i)
    requires CutThere(was, had, begin, chunk, remainder)
    modifies sch
    ensures CutThere(ranges, mine, begin, chunk, remainder)
    ensures begin <= cur <= next <= end && next == if st == OK then begin + Cut(chunk, remainder, i + 1) else cur
    ensures Reached(sch, k, ranges, mine, begin, next, s0) && Explained(sch.s, ranges, mine, lost, st, memory)
    ensures |mine| == if st == OK then i + 1 else i
  {
    var chunkEnd := ChunkEnd(begin, end, cur, threads, chunk, remainder, i);
    var t;
    st, t, ranges, mine, lost := OfferChunk(sch, k, Range(cur, chunkEnd), i, memory, was, had, begin, s0);
    if st != NoMem { CutNext(was, had, begin, chunk, remainder, t, Range(cur, chunkEnd)); }
    next := if st == OK then chunkEnd else cur;
  }

  /** Where the i-th chunk, which begins at `cur`, ends. */
  method ChunkEnd(begin: int, end: int, cur: int, threads: nat, chunk: nat, remainder: nat, i: nat)
      returns (chunkEnd: int)
    requires i < threads && end == begin + Cut(chunk, remainder, threads) && cur == begin + Cut(chunk, remainder, i)
    ensures begin <= cur <= chunkEnd <= end && chunkEnd == begin + Cut(chunk, remainder, i + 1)
  {
    chunkEnd := cur + chunk + if i < remainder then 1 else 0;
    if chunkEnd > end { chunkEnd := end; }
    CutMono(chunk, remainder, i + 1, threads);
  }

  /** One chunk, unless there is no memory for its range structure or its task. */
  method OfferChunk(sch: Scheduler, k: nat, range: Range, i: nat, memory: nat -> bool, was: map<Task, Range>,
                    ghost had: seq<Task>, ghost begin: int, ghost s0: Moment)
      returns (st: Status, t: Task, ranges: map<Task, Range>, ghost mine: seq<Task>, ghost lost: Option<Task>)
    requires Reached(sch, k, was, had, begin, range.begin, s0) && begin <= range.begin <= range.end
    requires |had| == i && Explained(sch.s, was, had, None, OK, memory)
    modifies sch
    ensures Reached(sch, k, ranges, mine, begin, if st == OK then range.end else range.begin, s0)
    ensures Explained(sch.s, ranges, mine, lost, st, memory) && |mine| == if st == OK then i + 1 else i
    ensures if st == NoMem then ranges == was && mine == had
            else t !in had && ranges == was[t := range] && mine == if st == OK then had + [t] else had
  {
    t := Task(0, PRIORITY_NORMAL);
    if !(memory(2 * i) && memory(2 * i + 1)) { return NoMem, t, was, had, None; }
    ghost var m := sch.Now();
    st, t, ranges, mine := SubmitChunk(sch, k, range, was, had, begin, s0);
    lost := if st == OK then None else Some(t);
    ChunkExplained(m.s, sch.s, was, had, t, range, st, memory);
  }

  lemma ChunkExplained(s: State, s': State, was: map<Task, Range>, had: seq<Task>, t: Task, range: Range, st: Status,
                       memory: nat -> bool)
    requires Explained(s, was, had, None, OK, memory) && Memory(memory, |had|)
    requires Answered(s', SubDone(t, st))
    ensures Explained(s', was[t := range], if st == OK then had + [t] else had, if st == OK then None else Some(t), st,
                      memory)
  {
  }

  /** fq_scheduler_submit_fn for one chunk. */
  method SubmitChunk(sch: Scheduler, k: nat, range: Range, was: map<Task, Range>, ghost had: seq<Task>,
                     ghost begin: int, ghost s0: Moment)
      returns (st: Status, t: Task, ranges: map<Task, Range>, ghost mine: seq<Task>)
    requires Reached(sch, k, was, had, begin, range.begin, s0) && begin <= range.begin <= range.end
    modifies sch
    ensures Reached(sch, k, ranges, mine, begin, if st == OK then range.end else range.begin, s0)
    ensures t !in had && ranges == was[t := range] && mine == if st == OK then had + [t] else had
    ensures Answered(sch.s, SubDone(t, st))
  {
    t := sch.NewTask(k, s0);
    ghost var s1 := sch.Now();
    LaterSelf(s1.s);
    ghost var local, global;
    st, local, global := sch.Submit(k, Some(t));
    PrecedesTrans(s0, s1, sch.Now());
    ranges := was[t := range];
    mine := if st == OK then had + [t] else had;
    ChunkPlaced(s1.s, sch.s, was, had, t, range, st, begin);
  }

  lemma ChunkPlaced(s: State, s': State, was: map<Task, Range>, had: seq<Task>, t: Task, range: Range, st: Status,
                    begin: int)
    requires Placed(s, was, had) && Tiles(was, had, begin, range.begin) && begin <= range.begin <= range.end
    requires Entry(s, SubFlag(t)) && Later(s, s') && Answered(s', SubDone(t, st))
    ensures t !in had
    ensures var ranges, mine := was[t := range], if st == OK then had + [t] else had;
            Placed(s', ranges, mine) && Tiles(ranges, mine, begin, if st == OK then range.end else range.begin)
  {
    assert t !in had;
    if st == OK {
      TilesNext(was, had, begin, range.begin, t, range.end);
    } else {
      TilesRefused(was, had, begin, range.begin, t, range);
    }
  }

  /** FQ_OK means that fn was called exactly once, and to its end, for every index in
      [begin, end) and with no other index. On an error exactly the chunks of a
      prefix [begin, cur) were accepted, those of `mine`, which tile it, and the next one
      was not, for the reason the status gives: no index is ever called twice and none
      outside the prefix ever. While it has not returned, each of its attempts to find the
      scheduler idle has found a counter that was not zero. The range must fit a long. */
  method ParallelFor(sch: Scheduler, k: nat, begin: int, end: int, attempts: nat, memory: nat -> bool)
      returns (st: Status, returned: bool, ranges: map<Task, Range>, cur: int, ghost mine: seq<Task>,
               ghost lost: Option<Task>, ghost busy: seq<Moment>)
    requires sch.Free(k, sch.Now()) && end - begin <= LONG_MAX
    modifies sch
    ensures sch.Free(k, old(sch.Now()))
    ensures st == Inval <==> begin >= end
    ensures st == Inval ==> ranges == map[] && cur == begin && sch.s == old(sch.s)
    ensures st != OK ==> returned
    ensures begin < end ==> begin <= cur <= end && (st == OK <==> cur == end)
    ensures begin < end ==> Explained(sch.s, ranges, mine, lost, st, memory)
    ensures begin < end ==> Spread(ranges, mine, begin, end, Threads(sch.cfg.workers))
    ensures |mine| <= Threads(sch.cfg.workers) && (st != OK ==> |mine| < Threads(sch.cfg.workers))
    ensures Placed(sch.s, ranges, mine) && Tiles(ranges, mine, begin, cur)
    ensures st == OK && returned ==> forall j :: Calls(sch.s.log.ran, ranges, j) == Bit(begin <= j < end)
    ensures ForGood(sch.s, ranges, begin, cur)
    ensures !returned ==> |busy| == attempts && WorkedInTurn(sch.start, old(sch.Now()), busy, k, sch.Now())
  {
    lost, busy := None, [];
    if begin >= end {
      PlacedForGood(sch.s, map[], [], begin, begin);
      return Inval, true, map[], begin, [], None, [];
    }
    st, ranges, cur, mine, lost := SubmitChunks(sch, k, begin, end, memory);
    returned := true;
    if st == OK {
      returned, busy := AwaitChunks(sch, k, attempts, ranges, mine, begin, end, memory, old(sch.Now()));
    }
    PlacedForGood(sch.s, ranges, mine, begin, cur);
  }

  method AwaitChunks(sch: Scheduler, k: nat, attempts: nat, ghost ranges: map<Task, Range>, ghost mine: seq<Task>,
                     ghost begin: int, ghost end: int, ghost memory: nat -> bool, ghost s0: Moment)
      returns (returned: bool, ghost busy: seq<Moment>)
    requires sch.Free(k, s0)
    requires Placed(sch.s, ranges, mine) && Tiles(ranges, mine, begin, end)
    requires Explained(sch.s, ranges, mine, None, OK, memory)
    modifies sch
    ensures sch.Free(k, s0)
    ensures Placed(sch.s, ranges, mine) && Explained(sch.s, ranges, mine, None, OK, memory)
    ensures returned ==> forall j :: Calls(sch.s.log.ran, ranges, j) == Bit(begin <= j < end)
    ensures !returned ==> |busy| == attempts && WorkedInTurn(sch.start, s0, busy, k, sch.Now())
  {
    ghost var s1 := sch.Now();
    LaterSelf(s1.s);
    returned, busy := sch.WaitIdle(k, attempts);
    PrecedesTrans(s0, s1, sch.Now());
    PlacedLater(s1.s, sch.s, ranges, mine);
    TurnsEarlier(sch.start, s1, busy, k, sch.Now(), s0);
    if returned {
      sch.Reached();
      assert forall t :: t in mine ==> t in RaisedTasks(s1.s);
      EachOnce(sch.s, ranges, mine, begin, end);
    }
  }

  lemma EachOnce(s: State, ranges: map<Task, Range>, mine: seq<Task>, begin: int, end: int)
    requires Known(s) && Placed(s, ranges, mine) && Tiles(ranges, mine, begin, end)
    requires forall t :: t in mine ==> Done(s, t)
    ensures forall j :: Calls(s.log.ran, ranges, j) == Bit(begin <= j < end)
  {
    forall j ensures Calls(s.log.ran, ranges, j) == Bit(begin <= j < end) {
      AtMostOnce(s, ranges, mine, begin, end, j);
      AtLeastOnce(s, ranges, mine, begin, end, j);
    }
  }
}
