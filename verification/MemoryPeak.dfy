/** The statistics of src/memory/memory.c under any number of threads: stats_alloc with
    its weak compare-and-exchange loop and stats_free, one atomic action at a time. */
module MemoryPeak {
  import opened Common
  import opened Memory

  /** Where a thread is in stats_alloc, whose fetch_add left `mark` in the byte
      counter, or in stats_free. */
  datatype Pc =
    | Idle
    | CountAlloc(mark: int)
    | LoadPeak(mark: int)
    | Exchange(mark: int, p: int)
    | CountFree

  /** The four counters, the live blocks, the most bytes ever live, and every value the
      byte counter has held. */
  datatype State = State(
    bytes: int,
    peak: int,
    allocs: int,
    frees: int,
    live: map<nat, nat>,
    most: nat,
    seen: seq<int>,
    pcs: seq<Pc>)

  /** The fetch_add and the fetch_sub account for a block; Spurious is a weak exchange
      that fails although the peak has not changed. */
  datatype Action =
    | Add(k: nat, block: nat, size: nat)
    | Sub(k: nat, block: nat)
    | Step(k: nat)
    | Spurious(k: nat)

  predicate Enabled(s: State, a: Action) {
    && a.k < |s.pcs|
    && match a
       case Add(k, block, size) => s.pcs[k] == Idle && block !in s.live
       case Sub(k, block) => s.pcs[k] == Idle && block in s.live
       case Step(k) => s.pcs[k] != Idle
       case Spurious(k) => s.pcs[k].Exchange?
  }

  function Max(a: nat, b: nat): nat {
    if a < b then b else a
  }

  ghost function Apply(s: State, a: Action): State
    requires Enabled(s, a)
  {
    match a
    case Add(k, block, size) => Accounted(s, k, Wrap(s.bytes + Low31(size)), s.live[block := size], true)
    case Sub(k, block) => Accounted(s, k, Wrap(s.bytes - Low31(s.live[block])), s.live - {block}, false)
    case Spurious(k) => s.(pcs := s.pcs[k := LoadPeak(s.pcs[k].mark)])
    case Step(k) => Advance(s, k)
  }

  ghost function Advance(s: State, k: nat): State
    requires k < |s.pcs|
  {
    match s.pcs[k]
    case Idle => s
    case CountAlloc(mark) => s.(allocs := Wrap(s.allocs + 1), pcs := s.pcs[k := LoadPeak(mark)])
    case LoadPeak(mark) => s.(pcs := s.pcs[k := if mark <= s.peak then Idle else Exchange(mark, s.peak)])
    case Exchange(mark, p) =>
      if s.peak == p then s.(peak := mark, pcs := s.pcs[k := Idle])
      else s.(pcs := s.pcs[k := LoadPeak(mark)])
    case CountFree => s.(frees := Wrap(s.frees + 1), pcs := s.pcs[k := Idle])
  }

  ghost function Accounted(s: State, k: nat, bytes: int, live: map<nat, nat>, add: bool): State
    requires k < |s.pcs|
  {
    s.(bytes := bytes, live := live, most := Max(s.most, Sizes(live)), seen := s.seen + [bytes],
       pcs := s.pcs[k := if add then CountAlloc(bytes) else CountFree])
  }

  ghost predicate Legal(s: State, acts: seq<Action>)
    decreases |acts|
  {
    acts != [] ==> Enabled(s, acts[0]) && Legal(Apply(s, acts[0]), acts[1..])
  }

  ghost function Run(s: State, acts: seq<Action>): State
    requires Legal(s, acts)
    decreases |acts|
  {
    if acts == [] then s else Run(Apply(s, acts[0]), acts[1..])
  }

  function Initial(n: nat): State {
    State(0, 0, 0, 0, map[], 0, [0], seq(n, _ => Idle))
  }

  // ---- the ledger ----

  /** Blocks accounted for in the byte counter and not yet in the call counters. */
  function Uncounted(pc: Pc): int {
    if pc.CountAlloc? then 1 else if pc.CountFree? then -1 else 0
  }

  ghost predicate Ledger(s: State) {
    && s.bytes == Wrap(Bytes(s.live)) && Sizes(s.live) <= s.most
    && Wrap(s.allocs - s.frees + Total(Uncounted, s.pcs)) == Wrap(|s.live|)
  }

  lemma LedgerKept(s: State, a: Action)
    requires Enabled(s, a) && Ledger(s)
    ensures Ledger(Apply(s, a))
  {
    BytesKept(s, a);
    UncountedMoves(s, a);
    CallsKept(s, a, Total(Uncounted, s.pcs));
  }

  lemma UncountedMoves(s: State, a: Action)
    requires Enabled(s, a)
    ensures Apply(s, a).pcs == s.pcs[a.k := Apply(s, a).pcs[a.k]]
    ensures Total(Uncounted, Apply(s, a).pcs)
         == Total(Uncounted, s.pcs) - Uncounted(s.pcs[a.k]) + Uncounted(Apply(s, a).pcs[a.k])
  {
    TotalUpdate(Uncounted, s.pcs, a.k, Apply(s, a).pcs[a.k]);
  }

  lemma BytesKept(s: State, a: Action)
    requires Enabled(s, a) && s.bytes == Wrap(Bytes(s.live)) && Sizes(s.live) <= s.most
    ensures Apply(s, a).bytes == Wrap(Bytes(Apply(s, a).live)) && Sizes(Apply(s, a).live) <= Apply(s, a).most
  {
    if a.Add? {
      AddBytes(s, a);
    } else if a.Sub? {
      SubBytes(s, a);
    }
  }

  lemma AddBytes(s: State, a: Action)
    requires Enabled(s, a) && a.Add? && s.bytes == Wrap(Bytes(s.live))
    ensures Apply(s, a).bytes == Wrap(Bytes(Apply(s, a).live)) && Sizes(Apply(s, a).live) <= Apply(s, a).most
  {
    WrapsWith(s.live, a.block, a.size);
  }

  lemma SubBytes(s: State, a: Action)
    requires Enabled(s, a) && a.Sub? && s.bytes == Wrap(Bytes(s.live))
    ensures Apply(s, a).bytes == Wrap(Bytes(Apply(s, a).live)) && Sizes(Apply(s, a).live) <= Apply(s, a).most
  {
    WrapsWithout(s.live, a.block);
  }

  lemma CallsKept(s: State, a: Action, t: int)
    requires Enabled(s, a) && Wrap(s.allocs - s.frees + t) == Wrap(|s.live|)
    ensures var s' := Apply(s, a);
            Wrap(s'.allocs - s'.frees + (t - Uncounted(s.pcs[a.k]) + Uncounted(s'.pcs[a.k]))) == Wrap(|s'.live|)
  {
    match a
    case Add(_, block, size) =>
      SumWith(Low31, s.live, block, size);
      WrapStep(s.allocs - s.frees + t, |s.live|, 1);
    case Sub(_, block) =>
      SizeWithout(s.live, block);
      WrapStep(s.allocs - s.frees + t, |s.live|, -1);
    case Step(k) =>
      if s.pcs[k].CountAlloc? {
        WrapAdd(s.allocs + 1, t - 1 - s.frees);
      } else if s.pcs[k].CountFree? {
        WrapSub(s.allocs + t + 1, s.frees + 1);
      }
    case Spurious(_) =>
  }

  lemma WrapStep(x: int, y: int, d: int)
    requires Wrap(x) == Wrap(y)
    ensures Wrap(x + d) == Wrap(y + d)
  {
    WrapAdd(x, d);
    WrapAdd(y, d);
  }

  // ---- the peak ----

  predicate Carries(pc: Pc) {
    pc.CountAlloc? || pc.LoadPeak? || pc.Exchange?
  }

  /** A value is covered when the peak has reached it or some thread is still on its
      way to raising the peak that far. */
  ghost predicate Covered(s: State, v: int) {
    v <= s.peak || exists k :: 0 <= k < |s.pcs| && Carries(s.pcs[k]) && v <= s.pcs[k].mark
  }

  ghost predicate Peaks(s: State) {
    && s.bytes in s.seen && s.peak in s.seen
    && (forall k :: 0 <= k < |s.pcs| && Carries(s.pcs[k]) ==> s.pcs[k].mark in s.seen)
    && (forall i :: 0 <= i < |s.seen| ==> Covered(s, s.seen[i]))
  }

  /** An exchange is only attempted to raise the peak. */
  ghost predicate Upwards(s: State) {
    forall k :: 0 <= k < |s.pcs| && s.pcs[k].Exchange? ==> s.pcs[k].mark > s.pcs[k].p
  }

  lemma UpwardsKept(s: State, a: Action)
    requires Enabled(s, a) && Upwards(s)
    ensures Upwards(Apply(s, a)) && Apply(s, a).peak >= s.peak
  {}

  lemma CoveredKept(s: State, a: Action, v: int)
    requires Enabled(s, a) && Upwards(s) && Covered(s, v)
    ensures Covered(Apply(s, a), v)
  {
    var s' := Apply(s, a);
    UpwardsKept(s, a);
    if v > s'.peak {
      var k :| 0 <= k < |s.pcs| && Carries(s.pcs[k]) && v <= s.pcs[k].mark;
      assert Carries(s'.pcs[k]) && s'.pcs[k].mark == s.pcs[k].mark;
    }
  }

  lemma PeaksKept(s: State, a: Action)
    requires Enabled(s, a) && Upwards(s) && Peaks(s) && Ledger(s) && Apply(s, a).most < TOP32
    ensures Peaks(Apply(s, a))
  {
    var k, s' := a.k, Apply(s, a);
    forall i | 0 <= i < |s'.seen| ensures Covered(s', s'.seen[i]) {
      if i < |s.seen| {
        assert s'.seen[i] == s.seen[i];
        CoveredKept(s, a, s.seen[i]);
      } else if a.Add? {
        assert Carries(s'.pcs[k]) && s'.pcs[k].mark == s'.bytes;
      } else {
        SubLowers(s, a);
        BytesSeen(s);
        CoveredKept(s, a, s.bytes);
        CoveredBelow(s', s.bytes, s'.bytes);
      }
    }
  }

  lemma CoveredBelow(s: State, v: int, w: int)
    requires Covered(s, v) && w <= v
    ensures Covered(s, w)
  {
    if w > s.peak {
      var k :| 0 <= k < |s.pcs| && Carries(s.pcs[k]) && v <= s.pcs[k].mark;
      assert w <= s.pcs[k].mark;
    }
  }

  lemma BytesSeen(s: State)
    requires Peaks(s)
    ensures Covered(s, s.bytes)
  {
    var i :| 0 <= i < |s.seen| && s.seen[i] == s.bytes;
  }

  lemma SubLowers(s: State, a: Action)
    requires Enabled(s, a) && a.Sub? && Ledger(s) && s.most < TOP32
    ensures Apply(s, a).bytes <= s.bytes
  {
    SumWithout(Low31, s.live, a.block);
    SmallTotal(s.live);
    WrapSmall(Bytes(s.live));
    WrapSmall(Bytes(s.live - {a.block}));
    WrapsWithout(s.live, a.block);
  }

  // ---- over every run ----

  ghost predicate Inv(s: State) {
    Ledger(s) && Upwards(s) && (s.most < TOP32 ==> Peaks(s))
  }

  lemma InvKept(s: State, a: Action)
    requires Enabled(s, a) && Inv(s)
    ensures Inv(Apply(s, a)) && Apply(s, a).most >= s.most
  {
    LedgerKept(s, a);
    UpwardsKept(s, a);
    if Apply(s, a).most < TOP32 {
      PeaksKept(s, a);
    }
  }

  /** The peak never falls, in any interleaving. */
  lemma {:induction false} PeakNeverFalls(s: State, acts: seq<Action>)
    requires Inv(s) && Legal(s, acts)
    ensures Inv(Run(s, acts)) && Run(s, acts).peak >= s.peak
    decreases |acts|
  {
    if acts != [] {
      InvKept(s, acts[0]);
      UpwardsKept(s, acts[0]);
      PeakNeverFalls(Apply(s, acts[0]), acts[1..]);
    }
  }

  lemma InitialInv(n: nat)
    ensures Inv(Initial(n))
  {
    TotalZero(Uncounted, Initial(n).pcs);
    WrapSmall(0);
  }

  ghost predicate Quiescent(s: State) {
    forall k :: 0 <= k < |s.pcs| ==> s.pcs[k] == Idle
  }

  /** When no call is in progress, after any interleaving: the call counters differ by
      the number of live blocks, the byte counter is the sum of what it keeps of the
      live sizes (both in 32-bit words), and, if fewer than 2^31 bytes were ever live, the
      byte count is exact and the peak is the largest value the byte counter ever held. */
  lemma QuiescentStatistics(n: nat, acts: seq<Action>)
    requires Legal(Initial(n), acts) && Quiescent(Run(Initial(n), acts))
    ensures var s := Run(Initial(n), acts);
            && Wrap(s.allocs - s.frees) == Wrap(|s.live|)
            && s.bytes == Wrap(Bytes(s.live))
            && (s.most < TOP32 ==>
                 && s.bytes == Sizes(s.live)
                 && s.peak in s.seen
                 && forall i :: 0 <= i < |s.seen| ==> s.seen[i] <= s.peak)
  {
    InitialInv(n);
    PeakNeverFalls(Initial(n), acts);
    QuiescentFacts(Run(Initial(n), acts));
  }

  lemma QuiescentFacts(s: State)
    requires Inv(s) && Quiescent(s)
    ensures Wrap(s.allocs - s.frees) == Wrap(|s.live|) && s.bytes == Wrap(Bytes(s.live))
    ensures s.most < TOP32 ==>
              && s.bytes == Sizes(s.live)
              && s.peak in s.seen
              && forall i :: 0 <= i < |s.seen| ==> s.seen[i] <= s.peak
  {
    TotalZero(Uncounted, s.pcs);
    if s.most < TOP32 {
      SmallTotal(s.live);
      WrapSmall(Bytes(s.live));
      assert forall i :: 0 <= i < |s.seen| ==> Covered(s, s.seen[i]);
    }
  }

  /** `seen` is a faithful record: it ends with the byte counter's value. */
  lemma {:induction false} SeenIsRecord(s: State, acts: seq<Action>)
    requires Legal(s, acts) && s.seen != [] && s.seen[|s.seen| - 1] == s.bytes
    ensures var s' := Run(s, acts);
            && |s'.seen| >= |s.seen| && s'.seen[..|s.seen|] == s.seen
            && s'.seen[|s'.seen| - 1] == s'.bytes
    decreases |acts|
  {
    if acts != [] {
      var s1 := Apply(s, acts[0]);
      assert s1.seen[..|s.seen|] == s.seen;
      SeenIsRecord(s1, acts[1..]);
      assert Run(s1, acts[1..]).seen[..|s.seen|] == s1.seen[..|s.seen|];
    }
  }

  // ---- a call that nobody interleaves ----

  /** The run `acts` of thread `k` alone leads from `s` to `s'`. */
  ghost predicate Alone(s: State, acts: seq<Action>, s': State, k: nat) {
    Legal(s, acts) && Run(s, acts) == s' && forall i :: 0 <= i < |acts| ==> acts[i].k == k
  }

  lemma {:induction false} Then(s: State, acts: seq<Action>, a: Action)
    requires Legal(s, acts) && Enabled(Run(s, acts), a)
    ensures Legal(s, acts + [a]) && Run(s, acts + [a]) == Apply(Run(s, acts), a)
    decreases |acts|
  {
    if acts == [] {
      assert [a][1..] == [];
    } else {
      Then(Apply(s, acts[0]), acts[1..], a);
      assert (acts + [a])[1..] == acts[1..] + [a];
    }
  }

  lemma GoesOn(s: State, acts: seq<Action>, s1: State, k: nat, a: Action) returns (acts': seq<Action>, s': State)
    requires Alone(s, acts, s1, k) && Enabled(s1, a) && a.k == k
    ensures Alone(s, acts', s', k) && s' == Apply(s1, a)
  {
    acts', s' := acts + [a], Apply(s1, a);
    Then(s, acts, a);
  }

  /** An allocation counts itself and raises the peak to the byte counter if that is
      higher; a weak exchange that does not fail spuriously succeeds at once. */
  lemma AllocAlone(s: State, k: nat, block: nat, size: nat) returns (acts: seq<Action>, s': State)
    requires Enabled(s, Add(k, block, size))
    ensures Alone(s, acts, s', k) && s'.pcs == s.pcs
    ensures s'.bytes == Wrap(s.bytes + Low31(size)) && s'.live == s.live[block := size]
    ensures s'.allocs == Wrap(s.allocs + 1) && s'.frees == s.frees
    ensures s'.peak == if s'.bytes > s.peak then s'.bytes else s.peak
  {
    acts, s' := GoesOn(s, [], s, k, Add(k, block, size));
    acts, s' := GoesOn(s, acts, s', k, Step(k));
    acts, s' := RaisesAlone(s, acts, s', k);
  }

  /** The loop that raises the peak. */
  lemma RaisesAlone(s: State, acts: seq<Action>, s1: State, k: nat) returns (acts': seq<Action>, s': State)
    requires Alone(s, acts, s1, k) && k < |s1.pcs| && s1.pcs[k].LoadPeak?
    ensures Alone(s, acts', s', k)
    ensures var mark := s1.pcs[k].mark;
            s' == s1.(pcs := s1.pcs[k := Idle], peak := if mark > s1.peak then mark else s1.peak)
  {
    acts', s' := GoesOn(s, acts, s1, k, Step(k));
    if s'.pcs[k].Exchange? {
      acts', s' := GoesOn(s, acts', s', k, Step(k));
    }
  }

  lemma FreeAlone(s: State, k: nat, block: nat) returns (acts: seq<Action>, s': State)
    requires Enabled(s, Sub(k, block))
    ensures Alone(s, acts, s', k) && s'.pcs == s.pcs && s'.peak == s.peak
    ensures s'.bytes == Wrap(s.bytes - Low31(s.live[block])) && s'.live == s.live - {block}
    ensures s'.frees == Wrap(s.frees + 1) && s'.allocs == s.allocs
  {
    acts, s' := GoesOn(s, [], s, k, Sub(k, block));
    acts, s' := GoesOn(s, acts, s', k, Step(k));
  }
}
