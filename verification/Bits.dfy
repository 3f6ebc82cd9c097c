/** The bit arithmetic of src/queue/queue.c and src/memory/memory.c, on naturals
    written in binary, with the 64-bit and 32-bit widths made explicit. */
module Bits {

  const WORD64: nat := 0x1_0000_0000_0000_0000
  const WORD32: nat := 0x1_0000_0000
  /** 2^63, the largest power of two in 64 bits. */
  const TOP64: nat := 0x8000_0000_0000_0000

  function Pow2(k: nat): (p: nat)
    ensures p >= 1
  {
    if k == 0 then 1 else 2 * Pow2(k - 1)
  }

  ghost predicate IsPow2(p: int) {
    exists k: nat :: p == Pow2(k)
  }

  lemma PowIsPow(k: nat)
    ensures IsPow2(Pow2(k))
  {
  }

  /** Bitwise `|`. */
  function Or(x: nat, y: nat): nat {
    if x == 0 && y == 0 then 0
    else (if x % 2 == 1 || y % 2 == 1 then 1 else 0) + 2 * Or(x / 2, y / 2)
  }

  /** Bitwise `&`. */
  function And(x: nat, y: nat): nat {
    if x == 0 || y == 0 then 0
    else (if x % 2 == 1 && y % 2 == 1 then 1 else 0) + 2 * And(x / 2, y / 2)
  }

  /** `x >> k`: the low bit dropped `k` times. */
  function Shr(x: nat, k: nat): nat {
    if k == 0 then x else Shr(x / 2, k - 1)
  }

  /** The bits that `x >> k` drops. */
  function Low(x: nat, k: nat): (r: nat)
    ensures r < Pow2(k)
  {
    if k == 0 then 0 else x % 2 + 2 * Low(x / 2, k - 1)
  }

  // ---- powers of two ----

  lemma {:induction false} Pow2Add(a: nat, b: nat)
    ensures Pow2(a + b) == Pow2(a) * Pow2(b)
  {
    if a > 0 {
      Pow2Add(a - 1, b);
      assert Pow2(a + b) == 2 * Pow2(a - 1 + b);
    }
  }

  lemma {:induction false} Pow2Mono(a: nat, b: nat)
    requires a <= b
    ensures Pow2(a) <= Pow2(b)
    ensures a < b ==> Pow2(a) < Pow2(b)
  {
    if a < b {
      Pow2Mono(a, b - 1);
    }
  }

  lemma Pow2Constants()
    ensures Pow2(6) == 64 && Pow2(24) == 0x100_0000 && Pow2(32) == WORD32
    ensures Pow2(63) == TOP64 && Pow2(64) == WORD64
  {
    assert Pow2(8) == 256 by {
      assert Pow2(4) == 16;
      Pow2Add(4, 4);
    }
    Pow2Add(8, 8);
    Pow2Add(16, 8);
    Pow2Add(16, 16);
    Pow2Add(32, 32);
    assert Pow2(6) == 4 * Pow2(4);
  }

  /** Between two consecutive powers there is no third. */
  lemma Pow2Least(k: nat, v: int)
    requires k == 0 || Pow2(k - 1) < v
    ensures forall j: nat :: v <= Pow2(j) ==> Pow2(k) <= Pow2(j) || (k == 0 && v <= 1)
  {
    forall j: nat | v <= Pow2(j)
      ensures Pow2(k) <= Pow2(j) || (k == 0 && v <= 1)
    {
      if j < k {
        Pow2Mono(j, k - 1);
      } else {
        Pow2Mono(k, j);
      }
    }
  }

  // ---- shifts and `|` ----

  lemma {:induction false} OrShift(x: nat, y: nat, k: nat)
    ensures Shr(Or(x, y), k) == Or(Shr(x, k), Shr(y, k))
  {
    if k > 0 {
      OrShift(x / 2, y / 2, k - 1);
      assert Or(x, y) / 2 == Or(x / 2, y / 2);
    }
  }

  lemma {:induction false} ShrShr(v: nat, a: nat, b: nat)
    ensures Shr(Shr(v, a), b) == Shr(v, a + b)
  {
    if a > 0 {
      ShrShr(v / 2, a - 1, b);
    }
  }

  lemma {:induction false} ShrOnes(n: nat, k: nat)
    requires k <= n
    ensures Shr(Pow2(n) - 1, k) == Pow2(n - k) - 1
  {
    if k > 0 {
      assert (Pow2(n) - 1) / 2 == Pow2(n - 1) - 1;
      ShrOnes(n - 1, k - 1);
    }
  }

  lemma {:induction false} ShrZero(v: nat, n: nat)
    ensures Shr(v, n) == 0 <==> v < Pow2(n)
  {
    if n > 0 {
      ShrZero(v / 2, n - 1);
    }
  }

  lemma {:induction false} OrZero(a: nat)
    ensures Or(a, 0) == a
  {
    if a > 0 {
      OrZero(a / 2);
    }
  }

  /** Filling the low `s` bits under a run of `j` ones gives `j + s` ones. */
  lemma {:induction false} OrOnes(x: nat, j: nat, s: nat)
    requires Shr(x, s) == Pow2(j) - 1
    ensures Or(x, Pow2(s) - 1) == Pow2(j + s) - 1
  {
    if s == 0 {
      OrZero(x);
    } else {
      var m := Pow2(s) - 1;
      assert m / 2 == Pow2(s - 1) - 1 && m % 2 == 1;
      OrOnes(x / 2, j, s - 1);
      assert Or(x, m) == 1 + 2 * Or(x / 2, m / 2);
      assert Pow2(j + s) == 2 * Pow2(j + (s - 1));
    }
  }

  // ---- the smear ----

  /** `v | v >> s`. */
  function Smear(v: nat, s: nat): nat {
    Or(v, Shr(v, s))
  }

  /** `v` has no bits above the first `n`, and the top min(s, n) of those are ones. */
  ghost predicate TopOnes(v: nat, n: nat, s: nat) {
    Shr(v, n) == 0 && if s <= n then Shr(v, n - s) == Pow2(s) - 1 else v == Pow2(n) - 1
  }

  /** One `v |= v >> s` doubles the run of leading ones. */
  lemma SmearDoubles(v: nat, n: nat, s: nat)
    requires TopOnes(v, n, s)
    ensures TopOnes(Smear(v, s), n, 2 * s)
  {
    SmearFits(v, n, s);
    if 2 * s <= n {
      SmearShort(v, n, s);
    } else if s <= n {
      SmearFills(v, n - s, s);
    } else {
      ShrZero(v, s);
      Pow2Mono(n, s);
      OrZero(v);
    }
  }

  lemma SmearFits(v: nat, n: nat, s: nat)
    requires Shr(v, n) == 0
    ensures Shr(Or(v, Shr(v, s)), n) == 0
  {
    OrShift(v, Shr(v, s), n);
    ShrShr(v, s, n);
    ShrShr(v, n, s);
    ShrZero(0, s);
  }

  lemma SmearShort(v: nat, n: nat, s: nat)
    requires 2 * s <= n && TopOnes(v, n, s)
    ensures Shr(Or(v, Shr(v, s)), n - 2 * s) == Pow2(2 * s) - 1
  {
    var m := n - 2 * s;
    ShrShr(v, m, s);
    ShrShr(v, s, m);
    OrOnes(Shr(v, m), s, s);
    OrShift(v, Shr(v, s), m);
  }

  /** The shifted copy fills everything below the leading run. */
  lemma SmearFills(v: nat, m: nat, s: nat)
    requires m < s && Shr(v, m) == Pow2(s) - 1
    ensures Or(v, Shr(v, s)) == Pow2(s + m) - 1
  {
    ShrShr(v, m, s - m);
    ShrOnes(s, s - m);
    OrOnes(v, s, m);
  }

  /** Every positive number has a leading one. */
  lemma {:induction false} Length(v: nat) returns (n: nat)
    requires v > 0
    ensures n >= 1 && Pow2(n - 1) <= v && TopOnes(v, n, 1)
  {
    if v == 1 {
      n := 1;
    } else {
      var h := Length(v / 2);
      n := h + 1;
    }
  }

  /** What the six smearing shifts make of a number of `n` bits. */
  lemma SmearedLength(v: nat) returns (n: nat)
    requires 0 < v < WORD64
    ensures 1 <= n <= 64 && Pow2(n - 1) <= v < Pow2(n) && TopOnes(v, n, 1)
  {
    n := Length(v);
    ShrZero(v, n);
    Pow2Constants();
    if n > 64 { Pow2Mono(64, n - 1); }
  }

  /** Three rounds, starting from a run of `s` ones. */
  lemma SmearThree(v: nat, n: nat, s: nat)
    requires TopOnes(v, n, s)
    ensures TopOnes(Smear(Smear(Smear(v, s), 2 * s), 4 * s), n, 8 * s)
  {
    var v1 := Smear(v, s);
    SmearDoubles(v, n, s);
    var v2 := Smear(v1, 2 * s);
    SmearDoubles(v1, n, 2 * s);
    SmearDoubles(v2, n, 4 * s);
  }

  function Six(v: nat, s: nat): nat {
    Smear(Smear(Smear(Smear(Smear(Smear(v, s), 2 * s), 4 * s), 8 * s), 16 * s), 32 * s)
  }

  /** Six rounds from the leading one leave nothing but ones, up to 64 bits. */
  lemma SmearSix(v: nat, n: nat, s: nat)
    requires TopOnes(v, n, s) && n <= 64 * s
    ensures Six(v, s) == Pow2(n) - 1
  {
    SmearThree(v, n, s);
    var w := Smear(Smear(Smear(v, s), 2 * s), 4 * s);
    SmearThree(w, n, 8 * s);
    var z := Smear(Smear(Smear(w, 8 * s), 16 * s), 32 * s);
    assert TopOnes(z, n, 64 * s);
    assert n == 64 * s ==> Shr(z, 0) == z;
  }

  /** The value after the smear, plus one, against the request it started from. */
  lemma SmearResult(requested: nat, n: nat)
    requires n <= 64 && 1 <= requested <= Pow2(n)
    requires n == 0 || Pow2(n - 1) < requested
    ensures requested <= TOP64 <==> n <= 63
    ensures n <= 63 ==> Pow2(n) < WORD64
    ensures n == 64 ==> Pow2(n) == WORD64
    ensures forall k: nat :: requested <= Pow2(k) ==> Pow2(n) <= Pow2(k)
  {
    Pow2Constants();
    if n <= 63 {
      Pow2Mono(n, 63);
    }
    Pow2Least(n, requested);
  }

  lemma SmearWord(v: nat) returns (n: nat)
    requires v + 1 < WORD64
    ensures n <= 64 && Smear(Smear(Smear(Smear(Smear(Smear(v, 1), 2), 4), 8), 16), 32) == Pow2(n) - 1
    ensures v + 1 <= TOP64 <==> n <= 63
    ensures n <= 63 ==> v < Pow2(n) < WORD64
    ensures n == 64 ==> Pow2(n) == WORD64
    ensures forall k: nat :: v + 1 <= Pow2(k) ==> Pow2(n) <= Pow2(k)
  {
    n := 0;
    if v > 0 {
      n := SmearedLength(v);
    }
    SmearSix(v, n, 1);
    SmearResult(v + 1, n);
  }

  /** Unsigned addition on 64 bits. */
  lemma Wraps(x: nat)
    ensures x < WORD64 ==> x % WORD64 == x
    ensures x == WORD64 ==> x % WORD64 == 0
  {
  }

  /** `next_pow2` with the 64-bit shifts: exactly when it is right, and what it
      returns where it is not. */
  method NextPow2(requested: nat) returns (r: nat)
    requires requested < WORD64
    ensures requested <= TOP64 ==> IsPow2(r) && requested <= r
    ensures requested <= TOP64 ==> forall k: nat :: requested <= Pow2(k) ==> r <= Pow2(k)
    ensures requested > TOP64 ==> r == 0
  {
    if requested == 0 {
      PowIsPow(0);
      return 1;
    }
    var v := requested - 1;
    ghost var n := SmearWord(v);
    v := Smear(v, 1);
    v := Smear(v, 2);
    v := Smear(v, 4);
    v := Smear(v, 8);
    v := Smear(v, 16);
    v := Smear(v, 32);
    Wraps(v + 1);
    r := (v + 1) % WORD64;
    PowIsPow(n);
  }

  // ---- `&` with a mask is a modulus ----

  /** `x % p` for unsigned operands, by repeated subtraction: the form of the
      modulus in which the proofs about indices stay linear. */
  function Rem(x: nat, p: nat): (r: nat)
    ensures p > 0 ==> r < p
  {
    if p == 0 || x < p then x else Rem(x - p, p)
  }

  lemma {:induction false} RemIsMod(x: nat, p: nat)
    requires p > 0
    ensures Rem(x, p) == x % p
  {
    if x < p {
      DivUnique(x, p, 0, x);
    } else {
      RemIsMod(x - p, p);
      ModPlusMultiple(x - p, 1, p);
    }
  }

  /** A multiple of `d` strictly between -d and d is zero. */
  lemma SmallMultiple(e: int, d: int)
    requires d > 0 && -d < e * d < d
    ensures e == 0
  {
    if e >= 1 {
      MulMono(1, e, d);
    } else if e <= -1 {
      MulMono(e, -1, d);
    }
  }

  lemma MulMono(a: int, b: int, d: int)
    requires a <= b && d >= 0
    ensures a * d <= b * d
  {
    assert 0 <= (b - a) * d;
  }

  lemma DivUnique(x: int, d: int, q: int, r: int)
    requires d > 0 && x == q * d + r && 0 <= r < d
    ensures x / d == q && x % d == r
  {
    assert x == x / d * d + x % d;
    assert (q - x / d) * d == q * d - x / d * d;
    SmallMultiple(q - x / d, d);
  }

  /** Adding whole multiples of `p` does not change the remainder. */
  lemma ModPlusMultiple(d: int, e: int, p: int)
    requires p > 0
    ensures (e * p + d) % p == d % p
  {
    var q := d / p;
    assert d == q * p + d % p;
    assert (e + q) * p == e * p + q * p;
    DivUnique(e * p + d, p, e + q, d % p);
  }

  lemma Doubled(q: int, p: int)
    ensures q * (2 * p) == 2 * (q * p)
  {
  }

  lemma {:induction false} ShrLow(x: nat, k: nat)
    ensures x == Shr(x, k) * Pow2(k) + Low(x, k)
  {
    if k > 0 {
      ShrLow(x / 2, k - 1);
      Doubled(Shr(x, k), Pow2(k - 1));
    }
  }

  lemma LowIsMod(x: nat, k: nat)
    ensures Low(x, k) == x % Pow2(k)
  {
    ShrLow(x, k);
    DivUnique(x, Pow2(k), Shr(x, k), Low(x, k));
  }

  lemma {:induction false} AndMaskLow(x: nat, k: nat)
    ensures And(x, Pow2(k) - 1) == Low(x, k)
  {
    if k > 0 {
      var m := Pow2(k) - 1;
      assert m / 2 == Pow2(k - 1) - 1 && m % 2 == 1;
      AndMaskLow(x / 2, k - 1);
      if x == 0 {
        LowIsMod(0, k);
      }
    }
  }

  lemma AndMask(x: nat, k: nat)
    ensures And(x, Pow2(k) - 1) == x % Pow2(k)
  {
    AndMaskLow(x, k);
    LowIsMod(x, k);
  }

  /** `x & mask` on C ints: the operands are 32-bit two's complement words. */
  function MaskInt(x: int, mask: nat): nat {
    And(x % WORD32, mask)
  }

  /** Also for the negative differences `tail - head`, masking is the Euclidean
      remainder. */
  lemma MaskIsMod(x: int, k: nat)
    requires k <= 31
    ensures MaskInt(x, Pow2(k) - 1) == x % Pow2(k)
  {
    AndMask(x % WORD32, k);
    WordIsMultiple(k);
    ModOfMod(x, WORD32, Pow2(32 - k), Pow2(k));
  }

  lemma WordIsMultiple(k: nat)
    requires k <= 32
    ensures Pow2(32 - k) * Pow2(k) == WORD32
  {
    Pow2Constants();
    Pow2Add(32 - k, k);
  }

  lemma ModOfMod(x: int, w: int, q: int, p: int)
    requires p > 0 && w > 0 && w == q * p
    ensures (x % w) % p == x % p
  {
    var d := x / w;
    assert x == d * w + x % w;
    assert d * w == (d * q) * p;
    ModPlusMultiple(x % w, d * q, p);
  }

  /** Advancing a ring index. */
  lemma MaskNext(i: int, k: nat)
    requires 0 <= i < Pow2(k) && k <= 31
    ensures MaskInt(i + 1, Pow2(k) - 1) == if i + 1 == Pow2(k) then 0 else i + 1
  {
    var p := Pow2(k);
    MaskIsMod(i + 1, k);
    if i + 1 == p {
      DivUnique(p, p, 1, 0);
    } else {
      DivUnique(i + 1, p, 0, i + 1);
    }
  }

  /** The masked, possibly negative, difference of two ring indices. */
  lemma MaskDifference(tail: int, head: int, k: nat)
    requires 0 <= head < Pow2(k) && 0 <= tail < Pow2(k) && k <= 31
    ensures MaskInt(tail - head, Pow2(k) - 1) == if head <= tail then tail - head else tail - head + Pow2(k)
  {
    var p := Pow2(k);
    MaskIsMod(tail - head, k);
    if head <= tail {
      DivUnique(tail - head, p, 0, tail - head);
    } else {
      DivUnique(tail - head, p, -1, tail - head + p);
    }
  }
}
