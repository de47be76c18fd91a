/** Deterministic BuildRun names and the counters behind them. */
module Names {
  import opened ImageBuilds

  function Digit(d: nat): char
    requires d < 10
  {
    "0123456789"[d]
  }

  /** Decimal digits, as the format verb %d prints a non-negative number. */
  function Decimal(n: nat): string {
    if n < 10 then [Digit(n)] else Decimal(n / 10) + [Digit(n % 10)]
  }

  function FormatInt(n: int): string {
    if n < 0 then "-" + Decimal(-n) else Decimal(n)
  }

  /** The two families of BuildRuns an ImageBuild creates. */
  datatype Family = SpecChange | OnCommit

  function Infix(f: Family): string {
    match f
    case SpecChange => "-buildrun-"
    case OnCommit => "-buildrun-oncommit-"
  }

  function RunName(ib: string, f: Family, counter: int): string {
    ib + Infix(f) + FormatInt(counter)
  }

  function BuildName(ib: string): string {
    ib + "-build"
  }

  /** One more than the counter, in 64-bit two's complement; a negative counter restarts at 1. */
  function NextCounter(current: int): int {
    if current < 0 then 1
    else if current == MAX_INT64 then MIN_INT64
    else current + 1
  }

  /** The successor is a usable (positive) index exactly when the counter is not the largest int64. */
  lemma NextCounterPositive(current: int)
    requires MIN_INT64 <= current <= MAX_INT64
    ensures NextCounter(current) > 0 <==> current != MAX_INT64
    ensures MIN_INT64 <= NextCounter(current) <= MAX_INT64
    ensures 0 <= current < MAX_INT64 ==> NextCounter(current) == current + 1
  {
  }

  lemma {:induction false} DecimalIsDigits(n: nat, i: nat)
    requires i < |Decimal(n)|
    ensures '0' <= Decimal(n)[i] <= '9'
  {
    if n >= 10 && i < |Decimal(n)| - 1 {
      DecimalIsDigits(n / 10, i);
    }
  }

  lemma {:induction false} DecimalInjective(m: nat, n: nat)
    requires Decimal(m) == Decimal(n)
    ensures m == n
  {
    var a, b := Decimal(m), Decimal(n);
    assert a[|a| - 1] == b[|b| - 1];
    if m < 10 || n < 10 {
      assert |a| == 1 && |b| == 1;
    } else {
      assert a[..|a| - 1] == Decimal(m / 10);
      assert b[..|b| - 1] == Decimal(n / 10);
      DecimalInjective(m / 10, n / 10);
    }
  }

  lemma LastDash(p: string, n: nat)
    ensures var s := p + "-" + Decimal(n); s[|p|] == '-' && forall i :: |p| < i < |s| ==> s[i] != '-'
  {
    var s := p + "-" + Decimal(n);
    forall i | |p| < i < |s|
      ensures s[i] != '-'
    {
      DecimalIsDigits(n, i - |p| - 1);
    }
  }

  /** A name ending in a dash and digits has only one such split. */
  lemma SplitAtLastDash(p: string, q: string, m: nat, n: nat)
    requires p + "-" + Decimal(m) == q + "-" + Decimal(n)
    ensures p == q && m == n
  {
    var s := p + "-" + Decimal(m);
    LastDash(p, m);
    LastDash(q, n);
    assert |p| == |q|;
    assert p == s[..|p|] && q == s[..|q|];
    assert Decimal(m) == s[|p| + 1..] && Decimal(n) == s[|q| + 1..];
    DecimalInjective(m, n);
  }

  function Stem(ib: string, f: Family): string {
    match f
    case SpecChange => ib + "-buildrun"
    case OnCommit => ib + "-buildrun-oncommit"
  }

  /** The part of a name before its last dash; a negative counter leaves its own dash there. */
  function Prefix(ib: string, f: Family, n: int): string {
    if n < 0 then Stem(ib, f) + "-" else Stem(ib, f)
  }

  function Abs(n: int): nat {
    if n < 0 then -n else n
  }

  lemma RunNameSplit(ib: string, f: Family, n: int)
    ensures RunName(ib, f, n) == Prefix(ib, f, n) + "-" + Decimal(Abs(n))
  {
    assert ib + Infix(f) == Stem(ib, f) + "-";
  }

  lemma StemInjective(ib: string, f: Family, ib': string, f': Family)
    requires Stem(ib, f) == Stem(ib', f')
    ensures ib == ib' && f == f'
  {
    var s := Stem(ib, f);
    assert s[|s| - 1] == if f == SpecChange then 'n' else 't';
    assert s[|s| - 1] == if f' == SpecChange then 'n' else 't';
    assert ib == s[..|ib|] && ib' == s[..|ib'|];
  }

  /** Equal BuildRun names of one namespace come from the same ImageBuild, family and counter,
      so the controllers of two ImageBuilds never compete for a name. */
  lemma RunNameInjective(ib: string, f: Family, m: int, ib': string, f': Family, n: int)
    requires RunName(ib, f, m) == RunName(ib', f', n)
    ensures ib == ib' && f == f' && m == n
  {
    RunNameSplit(ib, f, m);
    RunNameSplit(ib', f', n);
    var p, q := Prefix(ib, f, m), Prefix(ib', f', n);
    SplitAtLastDash(p, q, Abs(m), Abs(n));
    assert p[|p| - 1] == '-' <==> m < 0;
    assert q[|q| - 1] == '-' <==> n < 0;
    assert Stem(ib, f) == if m < 0 then p[..|p| - 1] else p;
    assert Stem(ib', f') == if n < 0 then q[..|q| - 1] else q;
    StemInjective(ib, f, ib', f');
  }
}
