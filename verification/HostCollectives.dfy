/**
Sequences of collectives: launches of the four kernels, round by round, as one program of the
machine; and what every rank is left with.
*/
module HostCollectives {
  import opened IntMath
  import opened HostMachine
  import opened HostData
  import opened HostTheorems
  import opened HostKernels
  import opened HostLegal
  import opened HostStored

  /** `m` is the modulus of the barrier words, `cap` ROUND, `blk` BLOCK, `g` the q8 group. */
  datatype Config = Config(ar: Arith, w: int, m: int, cap: int, blk: int, g: int)

  /** One collective as all ranks issue it; each rank has its own input and grid. */
  datatype Call = Call(kind: Kind, n: int, x: (int, int) -> Val, grid: int -> int)

  /** What HostAllReduce.__init__ checks, with the module's BLOCK and a group that divides it. */
  ghost predicate ConfigOk(f: Config) {
    && f.w >= 1 && f.m >= 2 && f.m % 2 == 0 && f.blk >= 1 && f.g >= 4 && f.cap >= 1
    && f.blk % 8 == 0 && f.blk % f.g == 0 && f.cap % (f.w * f.blk) == 0
  }

  /** all_reduce returns before launching when n == 0, and routes to the int8 kernel only if g
      divides n; `grid` is at least 1. */
  ghost predicate CallOk(f: Config, k: Call)
    requires f.g > 0
  {
    && k.n >= 1 && (k.kind == Quant ==> k.n % f.g == 0)
    && (forall r :: 0 <= r < f.w ==> k.grid(r) >= 1)
  }

  ghost predicate CallsOk(f: Config, calls: seq<Call>)
    requires f.g > 0
  {
    |calls| >= 1 && forall c :: 0 <= c < |calls| ==> CallOk(f, calls[c])
  }

  function JobOf(f: Config, k: Call, rnd: int): Job {
    Job(f.ar, f.w, f.cap, f.blk, f.g, k.kind, k.n, rnd * f.cap, k.x, k.grid)
  }

  /** The epoch counter after the first c launches. */
  function StartOf(f: Config, calls: seq<Call>, c: int): int
    requires f.cap > 0
    decreases c
  {
    if c <= 0 || c > |calls| then 0 else StartOf(f, calls, c - 1) + CeilDiv(calls[c - 1].n, f.cap)
  }

  /** The launch of epoch e. */
  function CallOf(f: Config, calls: seq<Call>, e: int, c: int): int
    requires f.cap > 0
    decreases |calls| - c
  {
    if c + 1 >= |calls| || e <= StartOf(f, calls, c + 1) then c else CallOf(f, calls, e, c + 1)
  }

  function JobAt(f: Config, calls: seq<Call>, e: int): (k: Job)
    requires f.cap > 0
    ensures k.w == f.w && k.blk == f.blk && k.g == f.g
  {
    var c := CallOf(f, calls, e, 0);
    if 0 <= c < |calls| then JobOf(f, calls[c], e - StartOf(f, calls, c) - 1)
    else Job(f.ar, f.w, f.cap, f.blk, f.g, OneShot, 1, 0, (j, i) => 0, r => 1)
  }

  /** A job as a round of the machine (empty where the source never goes: a grid below 1). */
  function RoundOf(k: Job): Round
    requires k.w > 0 && k.g > 0 && k.blk > 0
  {
    Round(Chunked(k), (r, b, st) => if k.grid(r) > 0 then Items(k, r, b, st) else {}, (r, st, it) => TaskFor(k, r, st, it))
  }

  ghost function ProgramOf(f: Config, calls: seq<Call>): Prog
    requires f.cap > 0 && f.w > 0 && f.g > 0 && f.blk > 0
  {
    Prog(f.w, f.m, |calls|, c => StartOf(f, calls, c), e => RoundOf(JobAt(f, calls, e)),
         (c, r) => if 0 <= c < |calls| then calls[c].grid(r) else 1)
  }

  /** The output of a launch: n words, or w * n for an all-gather. */
  function OutputOf(f: Config, k: Call, i: int): Val
    requires f.cap > 0 && f.w > 0 && f.g > 0 && k.n > 0
  {
    match k.kind
    case Gather => k.x(i / k.n, i % k.n)
    case Quant => QuantResult(JobOf(f, k, i / f.cap), i % f.cap)
    case _ => RankSum(f.ar, f.w, k.x, i)
  }

  function LengthOf(f: Config, k: Call): int { if k.kind == Gather then f.w * k.n else k.n }

  ghost function SpecOf(f: Config, calls: seq<Call>): Spec
    requires f.cap > 0 && f.w > 0 && f.g > 0 && f.blk > 0
  {
    Spec((e, loc) => HostSpec(JobAt(f, calls, e), loc),
         (c, r, i) => if 0 <= c < |calls| && calls[c].n > 0 then OutputOf(f, calls[c], i) else 0,
         c => if 0 <= c < |calls| then LengthOf(f, calls[c]) else 0)
  }

  // ---- epochs -------------------------------------------------------------

  /** A multiple of a multiple of d is a multiple of d. */
  lemma Multiple(a: int, b: int, d: int)
    requires d > 0 && b % d == 0
    ensures (a * b) % d == 0
  {
    Division(b, d);
    assert a * b == (a * (b / d)) * d;
    MultipleTimes(a * (b / d), d);
  }

  lemma JobSane(f: Config, k: Call, rnd: int)
    requires ConfigOk(f) && CallOk(f, k) && 0 <= rnd < CeilDiv(k.n, f.cap)
    ensures Sane(JobOf(f, k, rnd))
  {
    var q := f.cap / (f.w * f.blk);
    Division(f.cap, f.w * f.blk);
    assert f.cap == (q * f.blk) * f.w;
    MultipleTimes(q * f.blk, f.w);
    Multiple(q, f.blk, 8);
    Multiple(q, f.blk, f.g);
    Multiple(f.w, q * f.blk, f.g);
    assert f.cap == f.w * (q * f.blk);
    Multiple(rnd, f.cap, f.g);
    CeilDivBounds(k.n, f.cap);
    MulLeq(rnd, CeilDiv(k.n, f.cap) - 1, f.cap);
    MulLeq(0, rnd, f.cap);
  }

  lemma RoundsPositive(f: Config, k: Call)
    requires ConfigOk(f) && CallOk(f, k)
    ensures CeilDiv(k.n, f.cap) >= 1
  {
    CeilDivLeast(k.n, f.cap, 0);
  }

  lemma {:induction false} StartMonotone(f: Config, calls: seq<Call>, c: int, d: int)
    requires ConfigOk(f) && CallsOk(f, calls) && 0 <= c <= d <= |calls|
    ensures StartOf(f, calls, c) <= StartOf(f, calls, d)
    decreases d - c
  {
    if c < d {
      StartMonotone(f, calls, c, d - 1);
      RoundsPositive(f, calls[d - 1]);
    }
  }

  lemma {:induction false} CallIs(f: Config, calls: seq<Call>, e: int, c: int, d: int)
    requires ConfigOk(f) && CallsOk(f, calls) && 0 <= d <= c < |calls|
    requires StartOf(f, calls, c) < e <= StartOf(f, calls, c + 1)
    ensures CallOf(f, calls, e, d) == c
    decreases c - d
  {
    if d < c {
      StartMonotone(f, calls, d + 1, c);
      CallIs(f, calls, e, c, d + 1);
    }
  }

  lemma JobHere(f: Config, calls: seq<Call>, c: int, e: int)
    requires ConfigOk(f) && CallsOk(f, calls) && 0 <= c < |calls|
    requires StartOf(f, calls, c) < e <= StartOf(f, calls, c) + CeilDiv(calls[c].n, f.cap)
    ensures JobAt(f, calls, e) == JobOf(f, calls[c], e - StartOf(f, calls, c) - 1)
  {
    assert StartOf(f, calls, c + 1) == StartOf(f, calls, c) + CeilDiv(calls[c].n, f.cap);
    CallIs(f, calls, e, c, 0);
  }

  lemma CallEnd(f: Config, calls: seq<Call>, c: int)
    requires f.cap > 0 && 0 <= c < |calls|
    ensures StartOf(f, calls, c + 1) == StartOf(f, calls, c) + CeilDiv(calls[c].n, f.cap)
  {}

  /** The round of epoch e: its job is sane and is that launch's. */
  lemma JobIs(f: Config, calls: seq<Call>, c: int, e: int)
    requires ConfigOk(f) && CallsOk(f, calls) && InCall(ProgramOf(f, calls), c, e)
    ensures var rnd := e - StartOf(f, calls, c) - 1;
      0 <= rnd < CeilDiv(calls[c].n, f.cap) && JobAt(f, calls, e) == JobOf(f, calls[c], rnd) && Sane(JobAt(f, calls, e))
  {
    CallEnd(f, calls, c);
    JobHere(f, calls, c, e);
    JobSane(f, calls[c], e - StartOf(f, calls, c) - 1);
  }

  lemma ProgramWellFormed(f: Config, calls: seq<Call>)
    requires ConfigOk(f) && CallsOk(f, calls)
    ensures WellFormed(ProgramOf(f, calls))
  {
    forall c | 0 <= c < |calls| ensures StartOf(f, calls, c) < StartOf(f, calls, c + 1) { RoundsPositive(f, calls[c]); }
  }

  // ---- the program is legal -----------------------------------------------

  lemma StoredHere(f: Config, calls: seq<Call>, c: int, e: int, st: int, loc: Loc)
    requires ConfigOk(f) && CallsOk(f, calls) && InCall(ProgramOf(f, calls), c, e)
    requires Sane(JobAt(f, calls, e)) && IsStored(JobAt(f, calls, e), st, loc)
    ensures Stored(ProgramOf(f, calls), c, e, st, loc)
  {
    JobIs(f, calls, c, e);
    var p, k := ProgramOf(f, calls), JobAt(f, calls, e);
    var b, it, i :| StoredBy(k, st, loc, b, it, i);
    assert it in p.round(e).items(loc.rank, b, st) && StoresAt(p.round(e).task(loc.rank, st, it), i, loc);
  }

  lemma StoredCell(f: Config, calls: seq<Call>, c: int, e: int, st: int, loc: Loc)
    requires ConfigOk(f) && CallsOk(f, calls) && InCall(ProgramOf(f, calls), c, e)
    requires Stored(ProgramOf(f, calls), c, e, st, loc)
    ensures CellForm(JobAt(f, calls, e), loc)
  {
    var b, it, i :| 0 <= b < ProgramOf(f, calls).grid(c, loc.rank) && it in RoundOf(JobAt(f, calls, e)).items(loc.rank, b, st)
      && StoresAt(RoundOf(JobAt(f, calls, e)).task(loc.rank, st, it), i, loc);
    JobIs(f, calls, c, e);
    CellOf(JobAt(f, calls, e), st, loc, b, it, i);
  }

  lemma CellOf(k: Job, st: int, loc: Loc, b: int, it: Item, i: int)
    requires Sane(k) && 0 <= b < k.grid(loc.rank) && it in RoundOf(k).items(loc.rank, b, st)
    requires StoresAt(RoundOf(k).task(loc.rank, st, it), i, loc)
    ensures CellForm(k, loc)
  {
    StoredForm(k, st, loc, b, it, i);
  }

  /** Output stores of the int8 kernel stay in their round. */
  lemma QuantIndex(k: Job, r: int, st: int, it: Item, i: int)
    requires Sane(k) && k.kind == Quant && 0 <= it.o < Len(k) && it.o % k.g == 0
    requires 0 <= i < |TaskFor(k, r, st, it).stores| && TaskFor(k, r, st, it).stores[i].Out?
    ensures k.base <= TaskFor(k, r, st, it).stores[i].idx < k.base + k.cap
  {
    GroupEnds(it.o, k.cap, k.g);
  }

  lemma OutIs(f: Config, calls: seq<Call>, c: int, e: int, r: int, idx: int)
    requires ConfigOk(f) && CallsOk(f, calls) && InCall(ProgramOf(f, calls), c, e)
    requires calls[c].kind == Quant ==> JobAt(f, calls, e).base <= idx < JobAt(f, calls, e).base + f.cap
    ensures JobAt(f, calls, e).n > 0 && OutSpec(JobAt(f, calls, e), idx) == SpecOf(f, calls).out(c, r, idx)
  {
    JobIs(f, calls, c, e);
    var rnd := e - StartOf(f, calls, c) - 1;
    if calls[c].kind == Quant { QuotientIs(idx, f.cap, rnd); }
  }

  lemma StoreLegal(f: Config, calls: seq<Call>, c: int, e: int, r: int, b: int, st: int, it: Item, i: int, vs: seq<Val>)
    requires ConfigOk(f) && CallsOk(f, calls) && InCall(ProgramOf(f, calls), c, e) && 0 <= st <= 2 && 0 <= r < f.w
    requires Sane(JobAt(f, calls, e)) && it in Items(JobAt(f, calls, e), r, b, st)
    requires 0 <= i < |TaskFor(JobAt(f, calls, e), r, st, it).stores|
    requires GoodStore(JobAt(f, calls, e), r, st, TaskFor(JobAt(f, calls, e), r, st, it).stores[i], vs)
    ensures LegalStore(SpecOf(f, calls), c, e, r, st, TaskFor(JobAt(f, calls, e), r, st, it).stores[i], vs)
  {
    JobIs(f, calls, c, e);
    var k := JobAt(f, calls, e);
    var x := TaskFor(k, r, st, it).stores[i];
    if x.Out? {
      if k.kind == Quant { QuantIndex(k, r, st, it, i); }
      OutIs(f, calls, c, e, r, x.idx);
    }
  }

  lemma TaskLegal(f: Config, calls: seq<Call>, c: int, e: int, r: int, b: int, st: int, it: Item)
    requires ConfigOk(f) && CallsOk(f, calls) && InCall(ProgramOf(f, calls), c, e) && 0 <= st <= 2 && 0 <= r < f.w
    requires Sane(JobAt(f, calls, e)) && it in Items(JobAt(f, calls, e), r, b, st)
    ensures LegalTask(ProgramOf(f, calls), SpecOf(f, calls), c, e, r, st, TaskFor(JobAt(f, calls, e), r, st, it))
  {
    var k, p, q := JobAt(f, calls, e), ProgramOf(f, calls), SpecOf(f, calls);
    var t := TaskFor(k, r, st, it);
    var vs := Wanted(q, e, t.loads);
    TaskGood(k, r, b, st, it, vs);
    assert Loaded(k, t, vs);
    forall i | 0 <= i < |t.loads| ensures 0 <= t.loads[i].rank < p.w && Stored(p, c, e, st - 1, t.loads[i]) {
      LoadStored(k, r, b, st, it, i);
      StoredHere(f, calls, c, e, st - 1, t.loads[i]);
    }
    forall i | 0 <= i < |t.stores| ensures LegalStore(q, c, e, r, st, t.stores[i], vs) {
      StoreLegal(f, calls, c, e, r, b, st, it, i, vs);
    }
  }

  lemma RoundLegal(f: Config, calls: seq<Call>, c: int, e: int)
    requires ConfigOk(f) && CallsOk(f, calls) && InCall(ProgramOf(f, calls), c, e)
    ensures LegalRound(ProgramOf(f, calls), SpecOf(f, calls), c, e)
  {
    var p, q, k := ProgramOf(f, calls), SpecOf(f, calls), JobAt(f, calls, e);
    JobIs(f, calls, c, e);
    forall r, b, st, it | Has(p, c, r, b) && 0 <= st <= 2 && it in p.round(e).items(r, b, st)
      ensures LegalTask(p, q, c, e, r, st, p.round(e).task(r, st, it))
    {
      TaskLegal(f, calls, c, e, r, b, st, it);
    }
    forall x, y, st | Stored(p, c, e, st, x) && Stored(p, c, e, st, y) ensures Disjoint(x, y) {
      StoredCell(f, calls, c, e, st, x);
      StoredCell(f, calls, c, e, st, y);
      FormsDisjoint(k, x, y);
    }
  }

  lemma WrittenHere(f: Config, calls: seq<Call>, c: int, e: int, r: int, idx: int)
    requires ConfigOk(f) && CallsOk(f, calls) && InCall(ProgramOf(f, calls), c, e) && 0 <= r < f.w
    requires Sane(JobAt(f, calls, e)) && IsWritten(JobAt(f, calls, e), r, idx)
    ensures Covered(ProgramOf(f, calls), c, r, idx)
  {
    JobIs(f, calls, c, e);
    var p, k := ProgramOf(f, calls), JobAt(f, calls, e);
    var b, st, it, n :| WrittenBy(k, r, idx, b, st, it, n);
    assert it in p.round(e).items(r, b, st) && WritesAt(p.round(e).task(r, st, it), n, idx);
  }

  lemma RoundOfElement(i: int, n: int, cap: int)
    requires 0 <= i < n && cap > 0
    ensures 0 <= i / cap < CeilDiv(n, cap) && i / cap * cap + i % cap == i && 0 <= i % cap < Min(n - i / cap * cap, cap)
  {
    Division(i, cap);
    CeilDivBounds(n, cap);
    if i / cap < 0 { MulLeq(i / cap, -1, cap); }
    if i / cap >= CeilDiv(n, cap) { MulLeq(CeilDiv(n, cap), i / cap, cap); }
  }

  /** Round rnd of launch c runs in epoch StartOf + rnd + 1. */
  lemma EpochOfRound(f: Config, calls: seq<Call>, c: int, rnd: int, e: int)
    requires ConfigOk(f) && CallsOk(f, calls) && 0 <= c < |calls| && 0 <= rnd < CeilDiv(calls[c].n, f.cap)
    requires e == StartOf(f, calls, c) + rnd + 1
    ensures InCall(ProgramOf(f, calls), c, e) && JobAt(f, calls, e) == JobOf(f, calls[c], rnd) && Sane(JobAt(f, calls, e))
  {
    CallEnd(f, calls, c);
    JobHere(f, calls, c, e);
    JobSane(f, calls[c], rnd);
  }

  lemma GatherCovered(f: Config, calls: seq<Call>, c: int, r: int, j: int, i: int)
    requires ConfigOk(f) && CallsOk(f, calls) && 0 <= c < |calls| && 0 <= r < f.w && calls[c].kind == Gather
    requires 0 <= j < f.w && 0 <= i < calls[c].n
    ensures Covered(ProgramOf(f, calls), c, r, j * calls[c].n + i)
  {
    RoundOfElement(i, calls[c].n, f.cap);
    var e := StartOf(f, calls, c) + i / f.cap + 1;
    EpochOfRound(f, calls, c, i / f.cap, e);
    GatherWritten(JobAt(f, calls, e), r, j, i % f.cap);
    WrittenHere(f, calls, c, e, r, j * calls[c].n + i);
  }

  lemma ReduceCovered(f: Config, calls: seq<Call>, c: int, r: int, i: int)
    requires ConfigOk(f) && CallsOk(f, calls) && 0 <= c < |calls| && 0 <= r < f.w && calls[c].kind != Gather
    requires 0 <= i < calls[c].n
    ensures Covered(ProgramOf(f, calls), c, r, i)
  {
    RoundOfElement(i, calls[c].n, f.cap);
    var e := StartOf(f, calls, c) + i / f.cap + 1;
    EpochOfRound(f, calls, c, i / f.cap, e);
    RoundWritten(JobAt(f, calls, e), r, i % f.cap);
    WrittenHere(f, calls, c, e, r, i);
  }

  lemma RowOf(i: int, w: int, n: int)
    requires n >= 1 && w >= 0 && 0 <= i < w * n
    ensures 0 <= i / n < w && 0 <= i % n < n && i / n * n + i % n == i
  {
    TableIndex(i, w, n);
  }

  lemma OutputCovered(f: Config, calls: seq<Call>, c: int, r: int, i: int)
    requires ConfigOk(f) && CallsOk(f, calls) && 0 <= c < |calls| && 0 <= r < f.w && 0 <= i < LengthOf(f, calls[c])
    ensures Covered(ProgramOf(f, calls), c, r, i)
  {
    if calls[c].kind == Gather {
      var n := calls[c].n;
      RowOf(i, f.w, n);
      GatherCovered(f, calls, c, r, i / n, i % n);
    } else {
      ReduceCovered(f, calls, c, r, i);
    }
  }

  /** Every sequence of collectives is a legal program of the machine. */
  lemma ProgramLegal(f: Config, calls: seq<Call>)
    requires ConfigOk(f) && CallsOk(f, calls)
    ensures WellFormed(ProgramOf(f, calls)) && Legal(ProgramOf(f, calls), SpecOf(f, calls))
  {
    ProgramWellFormed(f, calls);
    var p, q := ProgramOf(f, calls), SpecOf(f, calls);
    forall c, e | InCall(p, c, e) ensures LegalRound(p, q, c, e) { RoundLegal(f, calls, c, e); }
    forall c, r, i | 0 <= c < p.calls && 0 <= r < p.w && 0 <= i < q.len(c) ensures Covered(p, c, r, i) {
      OutputCovered(f, calls, c, r, i);
    }
  }

  // ---- results ------------------------------------------------------------

  /** The ranks issued `calls`, took the steps `acts` in some interleaving, and reached s. */
  ghost predicate Ran(f: Config, calls: seq<Call>, acts: seq<Action>, s: State) {
    ConfigOk(f) && CallsOk(f, calls) && Reaches(ProgramOf(f, calls), acts, s)
  }

  lemma Result(f: Config, calls: seq<Call>, acts: seq<Action>, s: State, c: int, r: int, i: int)
    requires Ran(f, calls, acts, s) && 0 <= c < |calls| && 0 <= r < f.w && Finished(ProgramOf(f, calls), s, r, c)
    requires 0 <= i < LengthOf(f, calls[c])
    ensures s.out(c, r, i) == Full(OutputOf(f, calls[c], i))
  {
    ProgramLegal(f, calls);
    OutputsCorrect(ProgramOf(f, calls), SpecOf(f, calls), acts, s, r, c, i);
  }

  /** One-shot and two-shot leave every rank the same words: the inputs folded in rank order in fp32
      and rounded once, whatever kernels ran before, and however many rounds the message takes. */
  lemma AllReduce(f: Config, calls: seq<Call>, acts: seq<Action>, s: State, c: int, r: int, i: int)
    requires Ran(f, calls, acts, s) && 0 <= c < |calls| && 0 <= r < f.w && Finished(ProgramOf(f, calls), s, r, c)
    requires (calls[c].kind == OneShot || calls[c].kind == TwoShot) && 0 <= i < calls[c].n
    ensures s.out(c, r, i) == Full(RankSum(f.ar, f.w, calls[c].x, i))
  {
    Result(f, calls, acts, s, c, r, i);
  }

  /** The int8 kernel leaves every rank the value of `QuantResult` in each round. */
  lemma QuantAllReduce(f: Config, calls: seq<Call>, acts: seq<Action>, s: State, c: int, r: int, i: int)
    requires Ran(f, calls, acts, s) && 0 <= c < |calls| && 0 <= r < f.w && Finished(ProgramOf(f, calls), s, r, c)
    requires calls[c].kind == Quant && 0 <= i < calls[c].n
    ensures s.out(c, r, i) == Full(QuantResult(JobOf(f, calls[c], i / f.cap), i % f.cap))
  {
    Result(f, calls, acts, s, c, r, i);
  }

  /** The all-gather leaves every rank the concatenation of all inputs in rank order. */
  lemma AllGather(f: Config, calls: seq<Call>, acts: seq<Action>, s: State, c: int, r: int, j: int, i: int)
    requires Ran(f, calls, acts, s) && 0 <= c < |calls| && 0 <= r < f.w && Finished(ProgramOf(f, calls), s, r, c)
    requires calls[c].kind == Gather && 0 <= j < f.w && 0 <= i < calls[c].n
    ensures s.out(c, r, j * calls[c].n + i) == Full(calls[c].x(j, i))
  {
    var n := calls[c].n;
    RowMajor(j, f.w, n, i);
    assert n * j == j * n && n * f.w == f.w * n;
    Result(f, calls, acts, s, c, r, j * n + i);
  }

  // ---- the sums, step by step ---------------------------------------------

  /** What the accumulator of a sum goes through, from zero on. */
  lemma {:induction false} SumSteps(ar: Arith, v: int -> Val, m: nat) returns (p: seq<Val>)
    ensures |p| == m + 1 && p[0] == ar.zero && p[m] == Sum(ar, v, m)
    ensures forall j :: 0 <= j < m ==> p[j + 1] == ar.add(p[j], v(j))
  {
    p := [ar.zero];
    if m > 0 {
      p := SumSteps(ar, v, m - 1);
      p := p + [ar.add(p[m - 1], v(m - 1))];
    }
  }

  /** What a finished one-shot or two-shot leaves is an accumulator that starts at zero, to which the
      inputs of ranks 0, 1, .. have been added one after the other, rounded once. */
  lemma AllReduceSteps(f: Config, calls: seq<Call>, acts: seq<Action>, s: State, c: int, r: int, i: int) returns (p: seq<Val>)
    requires Ran(f, calls, acts, s) && 0 <= c < |calls| && 0 <= r < f.w && Finished(ProgramOf(f, calls), s, r, c)
    requires (calls[c].kind == OneShot || calls[c].kind == TwoShot) && 0 <= i < calls[c].n
    ensures |p| == f.w + 1 && p[0] == f.ar.zero && s.out(c, r, i) == Full(f.ar.down(p[f.w]))
    ensures forall j :: 0 <= j < f.w ==> p[j + 1] == f.ar.add(p[j], f.ar.up(calls[c].x(j, i)))
  {
    AllReduce(f, calls, acts, s, c, r, i);
    p := SumSteps(f.ar, j => f.ar.up(calls[c].x(j, i)), f.w);
  }

  /** Element t of the group at o as rank j's input, and as its peers get it: coded and decoded. */
  function Transported(ar: Arith, x: (int, int) -> Val, g: nat, j: int, o: int, t: int): Val {
    var group := seq(g, u => ar.up(x(j, o + u)));
    ar.deq(ar.code(group, t), ar.scale(group))
  }

  /** The accumulator of one element of a group, all ranks but the owner's having been transported. */
  predicate QuantSteps(ar: Arith, x: (int, int) -> Val, w: nat, g: nat, owner: int, o: int, t: int, p: seq<Val>) {
    && |p| == w + 1 && p[0] == ar.zero
    && forall j :: 0 <= j < w ==>
      p[j + 1] == ar.add(p[j], if j == owner then ar.up(x(j, o + t)) else Transported(ar, x, g, j, o, t))
  }

  lemma TermSteps(k: Job, c: int, o: int, t: nat) returns (p: seq<Val>)
    requires k.g > 0 && k.w >= 0
    ensures QuantSteps(k.ar, k.x, k.w, k.g, c, k.base + o, t, p) && p[k.w] == Sum(k.ar, j => Term(k, c, o, t, j), k.w)
  {
    p := SumSteps(k.ar, j => Term(k, c, o, t, j), k.w);
    assert forall j :: Group(k, j, o) == seq(k.g, u => k.ar.up(k.x(j, k.base + o + u)));
  }

  /** The accumulators of a whole group. */
  lemma {:induction false} GroupSteps(k: Job, c: int, o: int, n: nat) returns (ps: seq<seq<Val>>)
    requires k.g > 0 && k.w >= 0 && n <= k.g
    ensures |ps| == n && forall t :: 0 <= t < n ==>
      QuantSteps(k.ar, k.x, k.w, k.g, c, k.base + o, t, ps[t]) && ps[t][k.w] == ReducedGroup(k, c, o)[t]
  {
    ps := [];
    if n > 0 {
      ps := GroupSteps(k, c, o, n - 1);
      var p := TermSteps(k, c, o, n - 1);
      ps := ps + [p];
    }
  }

  /** The chunk length of a round of len elements. */
  function ChunkLength(len: int, w: int, g: int): int
    requires w > 0 && g > 0
  {
    CeilDiv(CeilDiv(len, w), g) * g
  }

  /** v is element i of a round of len elements from base on, whose group begins at o in the owner's chunk:
      every accumulator of the group starts at zero and adds, in rank order, the owner's input as it is and
      the others' transported; the group of them is transported, and the element rounded once. */
  predicate QuantFold(ar: Arith, x: (int, int) -> Val, w: int, g: int, len: int, base: int, o: int, i: int, v: Val, ps: seq<seq<Val>>, owner: int)
    requires w > 0 && g > 0
  {
    && |ps| == g && 0 <= owner < w && o <= i < o + g
    && owner * ChunkLength(len, w, g) <= o - base < owner * ChunkLength(len, w, g) + ChunkLength(len, w, g)
    && (forall t :: 0 <= t < g ==> QuantSteps(ar, x, w, g, owner, o, t, ps[t]))
    && var acc := seq(g, t requires 0 <= t < |ps| => if |ps[t]| > w then ps[t][w] else ar.zero);
    v == ar.down(ar.deq(ar.code(acc, i - o), ar.scale(acc)))
  }

  lemma OwnerOf(k: Job, e: int, g0: int)
    requires Sane(k) && k.kind == Quant && 0 <= e < Len(k) && g0 == e - e % k.g
    ensures 0 <= g0 <= e < g0 + k.g && 0 <= ChunkOf(k, g0) < k.w
    ensures ChunkOf(k, g0) * Chunk(k) <= g0 < ChunkOf(k, g0) * Chunk(k) + Chunk(k)
  {
    GroupBegins(e, k.g, g0);
    ChunkIs(k, g0);
    assert InChunk(k, ChunkOf(k, g0), g0);
  }

  lemma GroupBegins(e: int, g: int, g0: int)
    requires e >= 0 && g > 0 && g0 == e - e % g
    ensures 0 <= g0 <= e < g0 + g
  {
    Division(e, g);
    if e / g < 0 { MulLeq(e / g + 1, 0, g); }
  }

  lemma QuantRoundSteps(k: Job, e: int, g0: int) returns (ps: seq<seq<Val>>, owner: int)
    requires Sane(k) && k.kind == Quant && 0 <= e < Len(k) && g0 == e - e % k.g
    ensures QuantFold(k.ar, k.x, k.w, k.g, Len(k), k.base, k.base + g0, k.base + e, QuantResult(k, e), ps, owner)
  {
    OwnerOf(k, e, g0);
    owner := ChunkOf(k, g0);
    ps := GroupSteps(k, owner, g0, k.g);
    FoldIs(k, owner, g0, ps);
  }

  lemma FoldIs(k: Job, owner: int, g0: int, ps: seq<seq<Val>>)
    requires k.g > 0 && k.w >= 0 && |ps| == k.g && forall t :: 0 <= t < k.g ==> |ps[t]| == k.w + 1 && ps[t][k.w] == ReducedGroup(k, owner, g0)[t]
    ensures seq(k.g, t requires 0 <= t < |ps| => if |ps[t]| > k.w then ps[t][k.w] else k.ar.zero) == ReducedGroup(k, owner, g0)
  {}

  lemma ElementPlace(i: int, cap: int, g: int, base: int, o: int)
    requires i >= 0 && cap > 0 && g > 0 && base == i / cap * cap && o == i - i % cap % g
    ensures i % cap == i - base && o - base == i % cap - i % cap % g
  {
    Division(i, cap);
  }

  lemma QuantJob(f: Config, call: Call, i: int)
    requires ConfigOk(f) && CallOk(f, call) && call.kind == Quant && 0 <= i < call.n
    ensures var k := JobOf(f, call, i / f.cap); Sane(k) && 0 <= i % f.cap < Len(k)
  {
    RoundOfElement(i, call.n, f.cap);
    JobSane(f, call, i / f.cap);
    Division(i, f.cap);
  }

  lemma QuantCallSteps(f: Config, call: Call, i: int, base: int, o: int) returns (ps: seq<seq<Val>>, owner: int)
    requires ConfigOk(f) && CallOk(f, call) && call.kind == Quant && 0 <= i < call.n
    requires base == i / f.cap * f.cap && o == i - i % f.cap % f.g
    ensures QuantFold(f.ar, call.x, f.w, f.g, Min(call.n - base, f.cap), base, o, i, QuantResult(JobOf(f, call, i / f.cap), i % f.cap), ps, owner)
  {
    ElementPlace(i, f.cap, f.g, base, o);
    QuantJob(f, call, i);
    ps, owner := QuantRoundSteps(JobOf(f, call, i / f.cap), i % f.cap, o - base);
  }

  /** What a finished int8 all-reduce leaves at element i, of whatever round. */
  lemma QuantAllReduceSteps(f: Config, calls: seq<Call>, acts: seq<Action>, s: State, c: int, r: int, i: int, base: int, o: int)
    returns (v: Val, ps: seq<seq<Val>>, owner: int)
    requires Ran(f, calls, acts, s) && 0 <= c < |calls| && 0 <= r < f.w && Finished(ProgramOf(f, calls), s, r, c)
    requires calls[c].kind == Quant && 0 <= i < calls[c].n && base == i / f.cap * f.cap && o == i - i % f.cap % f.g
    ensures s.out(c, r, i) == Full(v)
    ensures QuantFold(f.ar, calls[c].x, f.w, f.g, Min(calls[c].n - base, f.cap), base, o, i, v, ps, owner)
  {
    QuantAllReduce(f, calls, acts, s, c, r, i);
    v := QuantResult(JobOf(f, calls[c], i / f.cap), i % f.cap);
    ps, owner := QuantCallSteps(f, calls[c], i, base, o);
  }
}
