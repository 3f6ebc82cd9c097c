/** Vocabulary shared by every module: status codes, task handles, and the
    totals over sequences of threads and queues on which the conservation laws
    are built. */
module Common {

  datatype Option<+T> = None | Some(value: T)

  /** The members of fq_status_t that the modelled functions return. */
  datatype Status = OK | NoMem | Inval | Busy | Timeout | Canceled | Overflow | Closed

  /** A submitted task: its identity and its fq_priority_t. */
  datatype Task = Task(id: nat, priority: int)

  /** FQ_PRIORITY_NORMAL and FQ_PRIORITY_HIGH. */
  const PRIORITY_NORMAL: int := 1
  const PRIORITY_HIGH: int := 2

  function Bit(b: bool): int { if b then 1 else 0 }

  /** The sum of `f` over `s`. */
  ghost function Total<T>(f: T -> int, s: seq<T>): int {
    TotalTo(f, s, |s|)
  }

  /** The sum of `f` over the first `n` elements. */
  ghost function TotalTo<T>(f: T -> int, s: seq<T>, n: nat): int
    requires n <= |s|
  {
    if n == 0 then 0 else TotalTo(f, s, n - 1) + f(s[n - 1])
  }

  lemma TotalUpdate<T>(f: T -> int, s: seq<T>, i: nat, x: T)
    requires i < |s|
    ensures Total(f, s[i := x]) == Total(f, s) - f(s[i]) + f(x)
  {
    TotalToUpdate(f, s, |s|, i, x);
  }

  lemma {:induction false} TotalToUpdate<T>(f: T -> int, s: seq<T>, n: nat, i: nat, x: T)
    requires i < |s| && n <= |s|
    ensures TotalTo(f, s[i := x], n) == TotalTo(f, s, n) + (if i < n then f(x) - f(s[i]) else 0)
  {
    if n > 0 {
      TotalToUpdate(f, s, n - 1, i, x);
    }
  }

  /** A total of non-negative terms bounds each of its terms. */
  lemma TotalBounds<T>(f: T -> int, s: seq<T>, i: nat)
    requires i < |s|
    requires forall j :: 0 <= j < |s| ==> f(s[j]) >= 0
    ensures 0 <= f(s[i]) <= Total(f, s)
  {
    TotalToBounds(f, s, |s|, i);
  }

  lemma {:induction false} TotalToBounds<T>(f: T -> int, s: seq<T>, n: nat, i: nat)
    requires i < |s| && n <= |s|
    requires forall j :: 0 <= j < |s| ==> f(s[j]) >= 0
    ensures 0 <= TotalTo(f, s, n)
    ensures i < n ==> f(s[i]) <= TotalTo(f, s, n)
  {
    if n > 0 {
      TotalToBounds(f, s, n - 1, i);
    }
  }

  lemma TotalNonNegative<T>(f: T -> int, s: seq<T>)
    requires forall j :: 0 <= j < |s| ==> f(s[j]) >= 0
    ensures Total(f, s) >= 0
  {
    if s != [] {
      TotalBounds(f, s, 0);
    }
  }

  /** ... and the sum of any two of them. */
  lemma TotalTwo<T>(f: T -> int, s: seq<T>, i: nat, k: nat)
    requires i < |s| && k < |s| && i != k
    requires forall j :: 0 <= j < |s| ==> f(s[j]) >= 0
    ensures f(s[i]) + f(s[k]) <= Total(f, s)
  {
    TotalToTwo(f, s, |s|, i, k);
  }

  lemma {:induction false} TotalToTwo<T>(f: T -> int, s: seq<T>, n: nat, i: nat, k: nat)
    requires i < |s| && k < |s| && i != k && n <= |s|
    requires forall j :: 0 <= j < |s| ==> f(s[j]) >= 0
    ensures TotalTo(f, s, n) >= (if i < n then f(s[i]) else 0) + (if k < n then f(s[k]) else 0)
  {
    if n > 0 {
      TotalToTwo(f, s, n - 1, i, k);
    }
  }

  /** A total whose terms all lie between 0 and `b`. */
  lemma TotalRange<T>(f: T -> int, s: seq<T>, b: nat)
    requires forall j :: 0 <= j < |s| ==> 0 <= f(s[j]) <= b
    ensures 0 <= Total(f, s) <= b * |s|
  {
    TotalToRange(f, s, |s|, b);
  }

  lemma {:induction false} TotalToRange<T>(f: T -> int, s: seq<T>, n: nat, b: nat)
    requires n <= |s|
    requires forall j :: 0 <= j < |s| ==> 0 <= f(s[j]) <= b
    ensures 0 <= TotalTo(f, s, n) <= b * n
  {
    if n > 0 {
      TotalToRange(f, s, n - 1, b);
      assert b * n == b * (n - 1) + b;
    }
  }

  lemma {:induction false} TotalToMono<T>(f: T -> int, g: T -> int, s: seq<T>, n: nat)
    requires n <= |s| && forall j :: 0 <= j < |s| ==> f(s[j]) <= g(s[j])
    ensures TotalTo(f, s, n) <= TotalTo(g, s, n)
  {
    if n > 0 {
      TotalToMono(f, g, s, n - 1);
    }
  }

  /** Totals agree where the terms do. */
  lemma {:induction false} TotalSame<T>(f: T -> int, s: seq<T>, s': seq<T>, n: nat)
    requires |s| == |s'| && n <= |s|
    requires forall i :: 0 <= i < |s| ==> f(s[i]) == f(s'[i])
    ensures TotalTo(f, s, n) == TotalTo(f, s', n)
  {
    if n > 0 {
      TotalSame(f, s, s', n - 1);
    }
  }

  lemma TotalAppend<T>(f: T -> int, s: seq<T>, x: T)
    ensures Total(f, s + [x]) == Total(f, s) + f(x)
  {
    TotalPrefix(f, s, [x], |s|);
  }

  lemma {:induction false} TotalPrefix<T>(f: T -> int, s: seq<T>, t: seq<T>, n: nat)
    requires n <= |s|
    ensures TotalTo(f, s + t, n) == TotalTo(f, s, n)
  {
    if n > 0 {
      TotalPrefix(f, s, t, n - 1);
    }
  }

  lemma TotalZero<T>(f: T -> int, s: seq<T>)
    requires forall i :: 0 <= i < |s| ==> f(s[i]) == 0
    ensures Total(f, s) == 0
  {
    TotalRange(f, s, 0);
  }

  lemma TotalRemove<T>(f: T -> int, s: seq<T>, i: nat)
    requires i < |s|
    ensures Total(f, s) == Total(f, s[..i] + s[i + 1..]) + f(s[i])
    decreases |s|
  {
    var rest := s[..|s| - 1];
    assert s == rest + [s[|s| - 1]];
    TotalAppend(f, rest, s[|s| - 1]);
    if i < |s| - 1 {
      TotalRemove(f, rest, i);
      TotalAppend(f, rest[..i] + rest[i + 1..], s[|s| - 1]);
      assert s[..i] + s[i + 1..] == rest[..i] + rest[i + 1..] + [s[|s| - 1]];
    } else {
      assert s[..i] + s[i + 1..] == rest;
    }
  }

  /** A total of non-negative terms grows with the number of occurrences. */
  lemma {:induction false} TotalByCounts<T>(f: T -> int, s: seq<T>, s': seq<T>)
    requires forall x :: f(x) >= 0
    requires forall x :: f(x) > 0 ==> multiset(s)[x] <= multiset(s')[x]
    ensures Total(f, s) <= Total(f, s')
    decreases |s|
  {
    if s == [] {
      TotalNonNegative(f, s');
    } else {
      var rest, x := s[..|s| - 1], s[|s| - 1];
      assert s == rest + [x];
      TotalAppend(f, rest, x);
      if f(x) == 0 {
        TotalByCounts(f, rest, s');
      } else {
        assert multiset(s)[x] >= 1;
        assert x in multiset(s');
        var i :| 0 <= i < |s'| && s'[i] == x;
        var rest' := s'[..i] + s'[i + 1..];
        assert s' == s'[..i] + [x] + s'[i + 1..];
        assert multiset(s') == multiset(rest') + multiset{x};
        TotalRemove(f, s', i);
        TotalByCounts(f, rest, rest');
      }
    }
  }

  /** A positive total has a positive term. */
  lemma TotalSource<T>(f: T -> int, s: seq<T>) returns (i: nat)
    requires Total(f, s) > 0
    ensures i < |s| && f(s[i]) > 0
  {
    i := TotalToSource(f, s, |s|);
  }

  lemma {:induction false} TotalToSource<T>(f: T -> int, s: seq<T>, n: nat) returns (i: nat)
    requires n <= |s| && TotalTo(f, s, n) > 0
    ensures i < n && f(s[i]) > 0
  {
    if f(s[n - 1]) > 0 {
      i := n - 1;
    } else {
      i := TotalToSource(f, s, n - 1);
    }
  }
}
