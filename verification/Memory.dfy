/** src/memory/memory.c for one caller at a time: the allocation statistics kept in
    place against the blocks that are live, and the alignment arithmetic. The malloc
    family is a parameter: the address it returns, or None for NULL. */
module Memory {
  import opened Common
  import opened Bits

  const TOP32: nat := 0x8000_0000

  /** A C int: 32 bits, two's complement. */
  function Wrap(x: int): int {
    if x % WORD32 < TOP32 then x % WORD32 else x % WORD32 - WORD32
  }

  lemma WrapAdd(a: int, b: int)
    ensures Wrap(Wrap(a) + b) == Wrap(a + b)
  {
    if Wrap(a) == a % WORD32 {
      ModShift(a, b, 0);
    } else {
      ModShift(a, b, 1);
    }
  }

  lemma ModShift(a: int, b: int, n: nat)
    requires n <= 1
    ensures (a % WORD32 - n * WORD32 + b) % WORD32 == (a + b) % WORD32
  {
    var q := a / WORD32;
    assert a == q * WORD32 + a % WORD32;
    ModPlusMultiple(a % WORD32 - n * WORD32 + b, q + n, WORD32);
    assert (a % WORD32 - n * WORD32 + b) + (q + n) * WORD32 == a + b;
  }

  lemma WrapSmall(x: int)
    requires 0 - TOP32 <= x < TOP32
    ensures Wrap(x) == x
  {
    if x < 0 {
      ModPlusMultiple(x + WORD32, -1, WORD32);
    }
  }

  lemma WrapMod(x: int)
    ensures Wrap(x) % WORD32 == x % WORD32
  {
    WrapAdd(x, 0);
  }

  /** What the counters keep of a size: its low 31 bits. */
  function Low31(size: nat): (r: nat)
    ensures r < TOP32
    ensures size < TOP32 ==> r == size
  {
    size % TOP32
  }

  method Size32(size: nat) returns (r: nat)
    ensures r == Low31(size)
  {
    r := And(size, 0x7FFF_FFFF);
    AndMask(size, 31);
    PowOf31();
  }

  lemma PowOf31()
    ensures Pow2(31) == TOP32
  {
    Pow2Constants();
    assert Pow2(32) == 2 * Pow2(31);
  }

  // ---- the live blocks ----

  ghost function SumOf(f: nat -> nat, live: map<nat, nat>): (b: nat)
    decreases |live|
  {
    if live == map[] then 0
    else
      var p :| p in live;
      f(live[p]) + SumOf(f, live - {p})
  }

  /** Any block can be taken out first. */
  lemma {:induction false} SumWithout(f: nat -> nat, live: map<nat, nat>, p: nat)
    requires p in live
    ensures SumOf(f, live) == f(live[p]) + SumOf(f, live - {p})
    decreases |live|
  {
    var q :| q in live && SumOf(f, live) == f(live[q]) + SumOf(f, live - {q});
    if q != p {
      SumWithout(f, live - {q}, p);
      SumWithout(f, live - {p}, q);
      assert live - {q} - {p} == live - {p} - {q};
    }
  }

  lemma SumWith(f: nat -> nat, live: map<nat, nat>, p: nat, size: nat)
    requires p !in live
    ensures SumOf(f, live[p := size]) == SumOf(f, live) + f(size)
    ensures |live[p := size]| == |live| + 1
  {
    SumWithout(f, live[p := size], p);
    assert live[p := size] - {p} == live;
  }

  function Whole(size: nat): nat { size }

  /** The bytes of the live blocks, and what the counter keeps of them. */
  ghost function Sizes(live: map<nat, nat>): nat {
    SumOf(Whole, live)
  }

  ghost function Bytes(live: map<nat, nat>): nat {
    SumOf(Low31, live)
  }

  /** The counter keeps all bytes exactly when every block has fewer than 2^31. */
  lemma {:induction false} CountedExactly(live: map<nat, nat>)
    ensures Bytes(live) <= Sizes(live)
    ensures Bytes(live) == Sizes(live) <==> forall p :: p in live ==> live[p] < TOP32
    decreases |live|
  {
    if live != map[] {
      var q :| q in live;
      SumWithout(Whole, live, q);
      SumWithout(Low31, live, q);
      CountedExactly(live - {q});
      assert forall p :: p in live ==> p == q || p in live - {q};
    }
  }

  /** ... as they all have when fewer than 2^31 bytes are live. */
  lemma SmallTotal(live: map<nat, nat>)
    ensures Bytes(live) <= Sizes(live)
    ensures Sizes(live) < TOP32 ==> Bytes(live) == Sizes(live)
  {
    CountedExactly(live);
    forall p | p in live ensures live[p] <= Sizes(live) {
      SumWithout(Whole, live, p);
    }
  }

  lemma WrapsWith(live: map<nat, nat>, block: nat, size: nat)
    requires block !in live
    ensures Wrap(Wrap(Bytes(live)) + Low31(size)) == Wrap(Bytes(live[block := size]))
    ensures |live[block := size]| == |live| + 1
  {
    BytesWith(live, block, size);
    WrapSum(Bytes(live), Low31(size), Bytes(live[block := size]));
  }

  lemma BytesWith(live: map<nat, nat>, block: nat, size: nat)
    requires block !in live
    ensures Bytes(live[block := size]) == Bytes(live) + Low31(size) && |live[block := size]| == |live| + 1
  {
    SumWith(Low31, live, block, size);
  }

  lemma WrapSum(a: int, b: int, c: int)
    requires c == a + b
    ensures Wrap(Wrap(a) + b) == Wrap(c)
  {
    WrapAdd(a, b);
  }

  lemma WrapsWithout(live: map<nat, nat>, block: nat)
    requires block in live
    ensures Wrap(Wrap(Bytes(live)) - Low31(live[block])) == Wrap(Bytes(live - {block}))
    ensures Bytes(live - {block}) <= Bytes(live) && Sizes(live - {block}) <= Sizes(live)
  {
    SumWithout(Low31, live, block);
    SumWithout(Whole, live, block);
    WrapSum(Bytes(live), 0 - Low31(live[block]), Bytes(live - {block}));
  }

  class Allocator {
    var allocCount: int
    var freeCount: int
    var bytes: int
    var peak: int
    /** The headers of the live blocks, by the address handed to the caller. */
    var headers: map<nat, nat>

    /** Every value the byte counter has held, and the most bytes ever live at once. */
    ghost var seen: seq<int>
    ghost var most: nat

    /** The ledger, in 32-bit words: allocations less frees are the live blocks and the
        byte counter is the sum of what it keeps of their sizes. While fewer than 2^31
        bytes were ever live, the peak is the largest value the byte counter ever held. */
    ghost predicate Valid()
      reads this
    {
      && Wrap(allocCount - freeCount) == Wrap(|headers|)
      && bytes == Wrap(Bytes(headers)) && Sizes(headers) <= most
      && seen != [] && seen[|seen| - 1] == bytes
      && (most < TOP32 ==> PeakIsHighest())
    }

    ghost predicate PeakIsHighest()
      reads this
    {
      0 <= peak < TOP32 && peak in seen && forall i :: 0 <= i < |seen| ==> seen[i] <= peak
    }

    constructor ()
      ensures Valid() && headers == map[] && seen == [0] && most == 0
      ensures allocCount == 0 && freeCount == 0
    {
      allocCount, freeCount, bytes, peak := 0, 0, 0, 0;
      headers := map[];
      seen, most := [0], 0;
      new;
      WrapSmall(0);
    }

    /** stats_alloc with nobody else at the counters: the exchange succeeds at once. */
    method StatsAlloc(size: nat)
      modifies this`allocCount, this`bytes, this`peak, this`seen
      ensures allocCount == Wrap(old(allocCount) + 1)
      ensures bytes == Wrap(old(bytes) + Low31(size))
      ensures seen == old(seen) + [bytes]
      ensures old(PeakIsHighest()) ==> PeakIsHighest()
      ensures peak == if bytes > old(peak) then bytes else old(peak)
    {
      var sz32 := Size32(size);
      var newVal := Wrap(bytes + sz32);
      bytes := newVal;
      allocCount := Wrap(allocCount + 1);
      seen := seen + [newVal];
      if newVal > peak {
        peak := newVal;
      }
    }

    method StatsFree(size: nat)
      modifies this`freeCount, this`bytes, this`seen
      ensures freeCount == Wrap(old(freeCount) + 1)
      ensures bytes == Wrap(old(bytes) - Low31(size))
      ensures seen == old(seen) + [bytes]
      ensures old(PeakIsHighest()) && bytes <= peak ==> PeakIsHighest()
    {
      var sz32 := Size32(size);
      bytes := Wrap(bytes - sz32);
      freeCount := Wrap(freeCount + 1);
      seen := seen + [bytes];
    }

    /** default_alloc; `got` is malloc's answer. */
    method Alloc(size: nat, got: Option<nat>) returns (p: Option<nat>)
      requires Valid() && (got.Some? ==> got.value !in headers)
      modifies this
      ensures Valid()
      ensures p == got
      ensures headers == if got.None? then old(headers) else old(headers)[got.value := size]
      ensures seen == if got.None? then old(seen) else old(seen) + [bytes]
      ensures most == if Sizes(headers) > old(most) then Sizes(headers) else old(most)
      ensures allocCount == if got.None? then old(allocCount) else Wrap(old(allocCount) + 1)
      ensures freeCount == old(freeCount)
      ensures peak == if got.Some? && bytes > old(peak) then bytes else old(peak)
    {
      if got.None? { return None; }
      WrapsWith(headers, got.value, size);
      OneMore(allocCount, freeCount, |headers|);
      headers := headers[got.value := size];
      if Sizes(headers) > most { most := Sizes(headers); }
      StatsAlloc(size);
      p := got;
    }

    /** default_free. */
    method Free(p: Option<nat>)
      requires Valid() && (p.Some? ==> p.value in headers)
      modifies this
      ensures Valid()
      ensures headers == if p.None? then old(headers) else old(headers) - {p.value}
      ensures peak == old(peak) && most == old(most) && allocCount == old(allocCount)
      ensures freeCount == if p.None? then old(freeCount) else Wrap(old(freeCount) + 1)
      ensures seen == if p.None? then old(seen) else old(seen) + [bytes]
    {
      if p.None? { return; }
      var size := headers[p.value];
      WrapsWithout(headers, p.value);
      SizeWithout(headers, p.value);
      OneLess(allocCount, freeCount, |headers|);
      StillHigh(Bytes(headers), Bytes(headers - {p.value}));
      SmallTotal(headers);
      headers := headers - {p.value};
      assert seen[|seen| - 1] == bytes;
      StatsFree(size);
    }

    /** default_realloc; `got` is realloc's answer. On failure the old block stays live
        and nothing is counted. */
    method Realloc(p: Option<nat>, size: nat, got: Option<nat>) returns (r: Option<nat>)
      requires Valid() && (p.Some? ==> p.value in headers)
      requires got.Some? ==> got.value !in headers || got == p
      modifies this
      ensures Valid()
      ensures r == got
      ensures got.None? ==>
                && headers == old(headers) && bytes == old(bytes) && seen == old(seen) && peak == old(peak)
                && allocCount == old(allocCount) && freeCount == old(freeCount)
      ensures got.Some? ==>
                && allocCount == Wrap(old(allocCount) + 1)
                && freeCount == if p.None? then old(freeCount) else Wrap(old(freeCount) + 1)
      ensures got.Some? && p.None? ==> headers == old(headers)[got.value := size]
      ensures got.Some? && p.Some? ==> headers == (old(headers) - {p.value})[got.value := size]
      ensures got.Some? && p.None? ==> seen == old(seen) + [bytes]
      ensures got.Some? && p.Some? ==> seen == old(seen) + [Wrap(Bytes(old(headers) - {p.value})), bytes]
      ensures got.Some? ==> peak == if bytes > old(peak) then bytes else old(peak)
      ensures most == if got.Some? && Sizes(headers) > old(most) then Sizes(headers) else old(most)
    {
      if p.None? {
        r := Alloc(size, got);
        return;
      }
      if got.None? { return None; }
      Free(p);
      r := Alloc(size, got);
    }

    /** fq_calloc: refused exactly when the product does not fit a size_t. */
    method Calloc(count: nat, size: nat, got: Option<nat>) returns (p: Option<nat>)
      requires Valid() && (got.Some? ==> got.value !in headers)
      requires count < WORD64 && size < WORD64
      modifies this
      ensures Valid()
      ensures p == if count * size < WORD64 then got else None
      ensures headers == if p.None? then old(headers) else old(headers)[p.value := count * size]
      ensures p.None? ==> seen == old(seen)
    {
      ProductFits(count, size);
      if count != 0 && size > (WORD64 - 1) / count {
        return None;
      }
      Wraps(count * size);
      var total := (count * size) % WORD64;
      p := Alloc(total, got);
    }

    /** fq_mem_stats: the counters as they are, which are exact while fewer than 2^31
        bytes were ever live. */
    method Stats() returns (now: nat, high: nat, allocs: nat, frees: nat)
      requires Valid()
      ensures allocs == allocCount % WORD32 && frees == freeCount % WORD32
      ensures (allocs - frees) % WORD32 == |headers| % WORD32
      ensures now == bytes % WORD32 == Bytes(headers) % WORD32 && high == peak % WORD32
      ensures most < TOP32 ==>
                && now == Sizes(headers) <= high
                && high in seen && forall i :: 0 <= i < |seen| ==> seen[i] <= high
    {
      now, high := bytes % WORD32, peak % WORD32;
      allocs, frees := allocCount % WORD32, freeCount % WORD32;
      CountsLive(allocCount, freeCount, |headers|);
      WrapMod(Bytes(headers));
      if most < TOP32 {
        SmallTotal(headers);
        WrapSmall(Bytes(headers));
        assert seen[|seen| - 1] <= peak;
      }
    }
  }

  lemma CountsLive(a: int, f: int, n: int)
    requires Wrap(a - f) == Wrap(n)
    ensures (a % WORD32 - f % WORD32) % WORD32 == n % WORD32
  {
    WrapMod(a - f);
    WrapMod(n);
    var q, r := a / WORD32, f / WORD32;
    assert a == q * WORD32 + a % WORD32 && f == r * WORD32 + f % WORD32;
    ModPlusMultiple(a % WORD32 - f % WORD32, q - r, WORD32);
    assert (a % WORD32 - f % WORD32) + (q - r) * WORD32 == a - f;
  }

  lemma StillHigh(was: nat, now: nat)
    requires now <= was
    ensures was < TOP32 ==> 0 <= Wrap(now) <= Wrap(was)
  {}

  lemma OneMore(a: int, f: int, n: int)
    requires Wrap(a - f) == Wrap(n)
    ensures Wrap(Wrap(a + 1) - f) == Wrap(n + 1)
  {
    WrapAdd(a + 1, -f);
    WrapAdd(a - f, 1);
    WrapAdd(n, 1);
  }

  lemma OneLess(a: int, f: int, n: int)
    requires Wrap(a - f) == Wrap(n)
    ensures Wrap(a - Wrap(f + 1)) == Wrap(n - 1)
  {
    WrapSub(a, f + 1);
    WrapAdd(a - f, -1);
    WrapAdd(n, -1);
  }

  lemma WrapSub(a: int, b: int)
    ensures Wrap(a - Wrap(b)) == Wrap(a - b)
  {
    var e := (b - Wrap(b)) / WORD32;
    assert b - Wrap(b) == e * WORD32 by {
      assert b == (b / WORD32) * WORD32 + b % WORD32;
      if Wrap(b) != b % WORD32 {
        assert b - Wrap(b) == (b / WORD32 + 1) * WORD32;
        DivUnique(b - Wrap(b), WORD32, b / WORD32 + 1, 0);
      } else {
        DivUnique(b - Wrap(b), WORD32, b / WORD32, 0);
      }
    }
    ModPlusMultiple(a - b, e, WORD32);
  }

  lemma SizeWithout(m: map<nat, nat>, p: nat)
    requires p in m
    ensures |m - {p}| == |m| - 1
  {
    assert m == (m - {p})[p := m[p]];
  }

  /** The division test of fq_calloc. */
  lemma ProductFits(count: nat, size: nat)
    ensures count == 0 ==> count * size == 0
    ensures count != 0 ==> (count * size < WORD64 <==> size <= (WORD64 - 1) / count)
  {
    if count != 0 {
      if size <= (WORD64 - 1) / count {
        NotTooMany(count, size);
      } else {
        TooMany(count, size);
      }
    }
  }

  lemma TooMany(count: nat, size: nat)
    requires 0 < count && size > (WORD64 - 1) / count
    ensures count * size >= WORD64
  {
    MulMono((WORD64 - 1) / count + 1, size, count);
    assert (WORD64 - 1) / count * count + (WORD64 - 1) % count == WORD64 - 1;
    assert ((WORD64 - 1) / count + 1) * count == (WORD64 - 1) / count * count + count;
  }

  lemma NotTooMany(count: nat, size: nat)
    requires 0 < count && size <= (WORD64 - 1) / count
    ensures count * size < WORD64
  {
    MulMono(size, (WORD64 - 1) / count, count);
    assert (WORD64 - 1) / count * count + (WORD64 - 1) % count == WORD64 - 1;
  }

  // ---- alignment ----

  /** `~x` on 64 bits. */
  function Not64(x: nat): nat {
    if x < WORD64 then WORD64 - 1 - x else 0
  }

  /** `alignment & (alignment - 1)` is zero exactly for powers of two. */
  lemma {:induction false} PowerTest(a: nat)
    requires a > 0
    ensures And(a, a - 1) == 0 <==> IsPow2(a)
  {
    if a == 1 {
      PowIsPow(0);
    } else if a % 2 == 1 {
      OddTest(a);
    } else {
      PowerTest(a / 2);
      assert (a - 1) / 2 == a / 2 - 1;
      EvenPower(a);
    }
  }

  lemma OddTest(a: nat)
    requires a > 1 && a % 2 == 1
    ensures And(a, a - 1) != 0 && !IsPow2(a)
  {
    AndSelf(a / 2);
    assert (a - 1) / 2 == a / 2;
    assert And(a, a - 1) == 2 * And(a / 2, a / 2);
    forall k: nat ensures a != Pow2(k) {
      if k > 0 {
        assert Pow2(k) % 2 == 0;
      }
    }
  }

  lemma {:induction false} AndSelf(x: nat)
    ensures And(x, x) == x
  {
    if x > 0 {
      AndSelf(x / 2);
    }
  }

  lemma EvenPower(a: nat)
    requires a > 0 && a % 2 == 0
    ensures IsPow2(a) <==> IsPow2(a / 2)
  {
    if IsPow2(a) {
      var k: nat :| a == Pow2(k);
      assert a / 2 == Pow2(k - 1);
    }
    if IsPow2(a / 2) {
      var k: nat :| a / 2 == Pow2(k);
      assert a == Pow2(k + 1);
    }
  }

  lemma AndEven(x: nat, h: nat)
    requires h % 2 == 0
    ensures And(x, h) == 2 * And(x / 2, h / 2)
  {}

  /** Clearing the low `k` bits of an `n`-bit number. */
  lemma {:induction false} AndHigh(x: nat, n: nat, k: nat)
    requires k <= n && x < Pow2(n)
    ensures Pow2(k) <= Pow2(n) && And(x, Pow2(n) - Pow2(k)) == x - Low(x, k)
  {
    Pow2Mono(k, n);
    if k == 0 {
      AndAll(x, n);
    } else {
      Halves(n, k);
      HalfBelow(x, n);
      AndHigh(x / 2, n - 1, k - 1);
      AndHighStep(x, Pow2(n) - Pow2(k), Pow2(n - 1) - Pow2(k - 1), k);
    }
  }

  lemma HalfBelow(x: nat, n: nat)
    requires 0 < n && x < Pow2(n)
    ensures x / 2 < Pow2(n - 1)
  {
  }

  lemma AndHighStep(x: nat, h: nat, half: nat, k: nat)
    requires k > 0 && h == 2 * half && And(x / 2, half) == x / 2 - Low(x / 2, k - 1)
    ensures And(x, h) == x - Low(x, k)
  {
    AndEven(x, h);
  }

  lemma Halves(n: nat, k: nat)
    requires 0 < k <= n && Pow2(k) <= Pow2(n)
    ensures Pow2(k - 1) <= Pow2(n - 1) && Pow2(n) - Pow2(k) == 2 * (Pow2(n - 1) - Pow2(k - 1))
  {}

  lemma AndAll(x: nat, n: nat)
    requires x < Pow2(n)
    ensures And(x, Pow2(n) - 1) == x
  {
    AndMask(x, n);
    DivUnique(x, Pow2(n), 0, x);
  }

  /** fq_align_up: for a power of two, the least multiple that is not below `size`,
      except that it wraps to 0 when that multiple does not fit 64 bits; any other
      alignment leaves the size alone. */
  method AlignUp(size: nat, alignment: nat) returns (r: nat)
    requires size < WORD64 && alignment < WORD64
    ensures !IsPow2(alignment) ==> r == size
    ensures IsPow2(alignment) ==> r % alignment == 0
    ensures IsPow2(alignment) && size + alignment - 1 < WORD64 ==> size <= r < size + alignment
    ensures IsPow2(alignment) && size + alignment - 1 >= WORD64 ==> r == 0 < size
  {
    if alignment > 0 { PowerTest(alignment); }
    if alignment == 0 || And(alignment, alignment - 1) != 0 {
      NoZeroPower(alignment);
      return size;
    }
    var up := (size + alignment - 1) % WORD64;
    r := And(up, Not64(alignment - 1));
    AlignExact(size, alignment);
  }

  lemma NoZeroPower(a: nat)
    ensures IsPow2(a) ==> a > 0
  {}

  lemma AlignExact(size: nat, alignment: nat)
    requires size < WORD64 && alignment < WORD64 && IsPow2(alignment)
    ensures var up := (size + alignment - 1) % WORD64;
            var r := And(up, Not64(alignment - 1));
            && r % alignment == 0
            && (size + alignment - 1 < WORD64 ==> size <= r < size + alignment)
            && (size + alignment - 1 >= WORD64 ==> r == 0 < size)
  {
    var up := (size + alignment - 1) % WORD64;
    var k: nat :| alignment == Pow2(k);
    Pow2Constants();
    if k > 64 { Pow2Mono(64, k); }
    ClearLow(up, k);
    WrapsOnce(size + alignment - 1);
  }

  lemma WrapsOnce(x: nat)
    requires x < 2 * WORD64
    ensures x % WORD64 == if x < WORD64 then x else x - WORD64
  {}

  /** `x & ~(2^k - 1)`. */
  lemma ClearLow(x: nat, k: nat)
    requires x < WORD64 && k <= 64
    ensures var r := And(x, Not64(Pow2(k) - 1));
            && x - Pow2(k) < r <= x
            && r % Pow2(k) == 0
            && (x < Pow2(k) ==> r == 0)
  {
    Pow2Constants();
    Pow2Mono(k, 64);
    AndHigh(x, 64, k);
    LowIsMod(x, k);
    MultipleBelow(x, Pow2(k));
  }

  lemma MultipleBelow(x: nat, a: nat)
    requires a > 0
    ensures (x - x % a) % a == 0
    ensures x < a ==> x % a == x
  {
    DivUnique(x - x % a, a, x / a, 0);
  }

  /** Among the multiples of the alignment that are not below `size`, the result of
      fq_align_up is the least. */
  lemma AlignLeast(size: nat, alignment: nat, r: nat, m: nat)
    requires alignment > 0 && size <= r < size + alignment && r % alignment == 0
    requires m >= size && m % alignment == 0
    ensures r <= m
  {
    if m < r {
      assert r - m < alignment;
      MultiplesApart(r, m, alignment);
    }
  }

  lemma MultiplesApart(r: nat, m: nat, a: nat)
    requires a > 0 && m < r && r % a == 0 && m % a == 0
    ensures r - m >= a
  {
    assert r == r / a * a && m == m / a * a;
    if r / a <= m / a {
      MulMono(r / a, m / a, a);
    } else {
      MulMono(m / a + 1, r / a, a);
      assert (m / a + 1) * a == m / a * a + a;
    }
  }

  /** fq_is_aligned: for a power of two the mask test is divisibility. */
  method IsAligned(address: nat, alignment: nat) returns (r: bool)
    requires address < WORD64 && alignment < WORD64
    ensures alignment == 0 ==> r
    ensures IsPow2(alignment) ==> (r <==> address % alignment == 0)
  {
    if alignment == 0 { return true; }
    r := And(address, alignment - 1) == 0;
    if IsPow2(alignment) {
      var k: nat :| alignment == Pow2(k);
      AndMask(address, k);
    }
  }
}
