/** Which sequences of collectives keep the 32-bit barrier words from going stale. */
module HostWrap {
  import opened IntMath
  import opened HostMachine
  import opened HostControl
  import opened HostKernels
  import opened HostStale
  import opened HostCollectives

  /** Fewer rounds, in all, than the words have values. */
  lemma FewRounds(f: Config, calls: seq<Call>)
    requires ConfigOk(f) && CallsOk(f, calls) && StartOf(f, calls, |calls|) < f.m
    ensures NoStale(ProgramOf(f, calls))
  {
    var p := ProgramOf(f, calls);
    forall e, g, ph | Previous(p, g, e, ph) ensures !Same(p, g, e) { SmallDiffer(g, e, f.m); }
  }

  lemma SmallDiffer(x: int, y: int, m: int)
    requires 0 <= x < y < m
    ensures x % m != y % m
  {}

  lemma NearDiffer(x: int, y: int, m: int)
    requires m >= 1 && x < y < x + m
    ensures x % m != y % m
  {
    if x % m == y % m {
      Division(x, m);
      Division(y, m);
      Distribute(y / m, x / m, m);
      if y / m - x / m <= 0 { MulLeq(y / m - x / m, 0, m); } else { MulLeq(1, y / m - x / m, m); }
    }
  }

  predicate TwoBarriers(k: Call) { k.kind == TwoShot || k.kind == Quant }

  /** The kind of every round of a uniform sequence. */
  lemma {:induction false} KindOf(f: Config, calls: seq<Call>, e: int, c: int, two: bool)
    requires f.cap > 0 && 0 <= c < |calls| && forall d :: 0 <= d < |calls| ==> TwoBarriers(calls[d]) == two
    ensures var d := CallOf(f, calls, e, c); 0 <= d < |calls| && TwoBarriers(calls[d]) == two
    decreases |calls| - c
  {
    if c + 1 < |calls| && e > StartOf(f, calls, c + 1) { KindOf(f, calls, e, c + 1, two); }
  }

  lemma RoundKind(f: Config, calls: seq<Call>, e: int, two: bool)
    requires ConfigOk(f) && CallsOk(f, calls) && forall d :: 0 <= d < |calls| ==> TwoBarriers(calls[d]) == two
    ensures ProgramOf(f, calls).round(e).two == two
  {
    KindOf(f, calls, e, 0, two);
  }

  /** Without a limit on their number: collectives that all use the same barriers. */
  lemma UniformRounds(f: Config, calls: seq<Call>, two: bool)
    requires ConfigOk(f) && CallsOk(f, calls) && f.m >= 4
    requires forall d :: 0 <= d < |calls| ==> TwoBarriers(calls[d]) == two
    ensures NoStale(ProgramOf(f, calls))
  {
    var p := ProgramOf(f, calls);
    forall e, g, ph | Previous(p, g, e, ph) ensures !Same(p, g, e) {
      RoundKind(f, calls, e, two);
      RoundKind(f, calls, e - 2, two);
      assert e > 2 ==> Used(p, e - 2, ph) && Par(e - 2) == Par(e);
      NearDiffer(g, e, f.m);
    }
  }

  // ---- when a sequence does go stale ---------------------------------------

  lemma {:induction false} StartOfPrefix(f: Config, a: seq<Call>, b: seq<Call>, c: int)
    requires f.cap > 0 && 0 <= c <= |a|
    ensures StartOf(f, a + b, c) == StartOf(f, a, c)
  {
    if c > 0 { StartOfPrefix(f, a, b, c - 1); }
  }

  /** An epoch up to the end of launch n - 1 belongs to one of the first n launches. */
  lemma {:induction false} CallBefore(f: Config, calls: seq<Call>, e: int, n: int, c: int)
    requires f.cap > 0 && 0 <= c < n <= |calls| && e <= StartOf(f, calls, n)
    ensures c <= CallOf(f, calls, e, c) < n
    decreases n - c
  {
    if c + 1 < n { CallBefore(f, calls, e, n, c + 1); }
  }

  /** Collectives of one barrier a round that use up all epochs but one of the words' range, then one of
      two barriers: its first epoch is the first ever to use the second barrier, whose flags still hold the
      0 they were created with, and 0 equals that epoch. So on two ranks or more there is a run in which a
      rank takes another's flag for the announcement of reduced data that the other has not made. */
  lemma WrapMisleads(f: Config, ones: seq<Call>, last: Call)
    requires ConfigOk(f) && f.w >= 2 && f.m >= 4 && CallsOk(f, ones) && CallOk(f, last)
    requires (forall d :: 0 <= d < |ones| ==> !TwoBarriers(ones[d])) && TwoBarriers(last)
    requires StartOf(f, ones, |ones|) == f.m - 1
    ensures CallsOk(f, ones + [last]) && !Safe(ProgramOf(f, ones + [last]))
  {
    var calls := ones + [last];
    var p := ProgramOf(f, calls);
    FirstOfPhase(f, ones, last, calls);
    ProgramWellFormed(f, calls);
    NothingBefore(p);
    assert f.m % f.m == 0 by { QuotientIs(f.m, f.m, 1); }
    StaleMisleads(p, 0, f.m, 1);
  }

  /** Epoch m is the first to use the second barrier. */
  lemma FirstOfPhase(f: Config, ones: seq<Call>, last: Call, calls: seq<Call>)
    requires ConfigOk(f) && CallsOk(f, ones) && CallOk(f, last) && calls == ones + [last]
    requires (forall d :: 0 <= d < |ones| ==> !TwoBarriers(ones[d])) && TwoBarriers(last)
    requires StartOf(f, ones, |ones|) == f.m - 1
    ensures var p := ProgramOf(f, calls);
      Used(p, p.m, 1) && (forall e :: 0 < e < p.m ==> !Used(p, e, 1)) && StartOf(f, calls, |calls|) >= p.m
    ensures CallsOk(f, calls)
  {
    var n := |ones|;
    StartOfPrefix(f, ones, [last], n);
    forall e | 0 < e < f.m ensures !Used(ProgramOf(f, calls), e, 1) { CallBefore(f, calls, e, n, 0); }
    RoundsPositive(f, last);
    CallIs(f, calls, f.m, n, 0);
  }

  lemma NothingBefore(p: Prog)
    requires p.m >= 2 && Used(p, p.m, 1) && (forall e :: 0 < e < p.m ==> !Used(p, e, 1)) && p.start(p.calls) >= p.m
    ensures Previous(p, 0, p.m, 1)
  {}

  /** A collective of a single full round. */
  function Small(f: Config, kind: Kind, x: (int, int) -> Val): Call { Call(kind, f.cap, x, r => 1) }

  function OneShots(f: Config, x: (int, int) -> Val, n: nat): (calls: seq<Call>)
    ensures |calls| == n
  {
    seq(n, i => Small(f, OneShot, x))
  }

  lemma {:induction false} OneShotStarts(f: Config, x: (int, int) -> Val, n: nat, c: nat)
    requires f.cap > 0 && c <= n
    ensures StartOf(f, OneShots(f, x, n), c) == c
  {
    if c > 0 {
      OneShotStarts(f, x, n, c - 1);
      CeilDivLeast(f.cap, f.cap, 1);
      CeilDivLeast(f.cap, f.cap, 0);
    }
  }

  /** For instance m - 1 one-shots of a single round each, then a two-shot of one. */
  lemma SmallCallsMislead(f: Config, x: (int, int) -> Val, ones: seq<Call>)
    requires ConfigOk(f) && f.w >= 2 && f.m >= 4 && ones == OneShots(f, x, f.m - 1)
    ensures CallsOk(f, ones + [Small(f, TwoShot, x)]) && !Safe(ProgramOf(f, ones + [Small(f, TwoShot, x)]))
  {
    OneShotStarts(f, x, f.m - 1, f.m - 1);
    WrapMisleads(f, ones, Small(f, TwoShot, x));
  }
}
