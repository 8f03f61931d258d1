/**
The collective autotuner of suffix_hybrid/nccl_split.py. Every rank runs the same program on its own
clock, its own measurements and its own failures; before each decision the ranks exchange the maximum
of what they saw. The program is given as a machine that issues one collective call at a time.
*/
module Autotune {
  import opened Wrappers

  type Spec = string

  const DEFAULT: Spec := "default"

  /** A time in microseconds; Inf when unmeasured, pruned or failed. */
  datatype Time = Fin(t: real) | Inf

  predicate Less(a: Time, b: Time) { a.Fin? && (b.Inf? || a.t < b.t) }

  function MaxTime(a: Time, b: Time): Time { if Less(a, b) then b else a }

  function Scaled(x: real, a: Time): Time { if a.Inf? then Inf else Fin(x * a.t) }

  function Flag(b: bool): Time { Fin(if b then 1.0 else 0.0) }

  /** `candidates` as the caller builds them; the sizes matter only by their number. */
  datatype Job = Job(candidates: seq<Spec>, sizes: nat, budget: real, prune: real)

  predicate JobOk(j: Job) {
    && j.candidates != [] && j.candidates[0] == DEFAULT
    && forall a, b :: 0 <= a < b < |j.candidates| ==> j.candidates[a] != j.candidates[b]
  }

  datatype Pc =
    | Budget(c: nat)                                         // about to agree on the elapsed time
    | Make(c: nat)                                           // about to create communicator c
    | Made(c: nat, ok: bool)                                 // about to agree on whether that worked
    | Measure(i: nat, queue: seq<Spec>)                      // about to measure queue[0] at size i
    | Measured(i: nat, queue: seq<Spec>, t: Time, bad: bool) // about to agree on the measurement
    | Finished
    | Raised                                                 // min() of no live candidate

  datatype Local = Local(pc: Pc, table: map<Spec, seq<Time>>, comms: set<Spec>, live: seq<Spec>, errors: set<Spec>)

  /** What a rank sees by itself during one call. */
  datatype Outcome = Outcome(elapsed: real, made: bool, time: Option<real>)

  /** A collective call; all ranks must issue the same one. */
  datatype Call = Agree(n: nat) | MakeComm(spec: Spec) | TimeComm(spec: Spec, i: nat)

  function Infinite(n: nat): (s: seq<Time>)
    ensures |s| == n && forall i :: 0 <= i < n ==> s[i] == Inf
  {
    seq(n, i => Inf)
  }

  function Kept(candidates: seq<Spec>, comms: set<Spec>): seq<Spec> {
    if candidates == [] then []
    else (if candidates[0] in comms then [candidates[0]] else []) + Kept(candidates[1..], comms)
  }

  function Without(s: seq<Spec>, x: Spec): seq<Spec> {
    if s == [] then [] else if s[0] == x then s[1..] else [s[0]] + Without(s[1..], x)
  }

  /** Go on with candidate c, or with the measurements when there is none left. */
  function Seek(j: Job, l: Local, c: nat): Local
    decreases |j.candidates| - c
  {
    if c < |j.candidates| then if j.candidates[c] == DEFAULT then Seek(j, l, c + 1) else l.(pc := Budget(c))
    else StartSize(j, l.(live := Kept(j.candidates, l.comms)), 0)
  }

  function StartSize(j: Job, l: Local, i: nat): Local {
    if i >= j.sizes then l.(pc := Finished) else if l.live == [] then l.(pc := Raised) else l.(pc := Measure(i, l.live))
  }

  function Start(j: Job): Local {
    Seek(j, Local(Finished, map c | c in j.candidates :: Infinite(j.sizes), {DEFAULT}, [], {}), 0)
  }

  function Cell(l: Local, s: Spec, i: nat): Time {
    if s in l.table && i < |l.table[s]| then l.table[s][i] else Inf
  }

  function BestOf(l: Local, live: seq<Spec>, i: nat): Time {
    if live == [] then Inf
    else if Less(Cell(l, live[0], i), BestOf(l, live[1..], i)) then Cell(l, live[0], i) else BestOf(l, live[1..], i)
  }

  /** Drop the candidates that are more than `prune` times slower than the best at this size. */
  function Pruned(j: Job, l: Local, live: seq<Spec>, i: nat, best: Time): seq<Spec> {
    if live == [] then []
    else
      (if live[0] == DEFAULT || !Less(Scaled(j.prune, best), Cell(l, live[0], i)) then [live[0]] else [])
      + Pruned(j, l, live[1..], i, best)
  }

  function EndSize(j: Job, l: Local, i: nat): Local {
    if l.live == [] then l.(pc := Raised)
    else StartSize(j, l.(live := Pruned(j, l, l.live, i, BestOf(l, l.live, i))), i + 1)
  }

  function Issue(j: Job, l: Local): Option<Call> {
    match l.pc
    case Budget(c) => Some(Agree(1))
    case Make(c) => if c < |j.candidates| then Some(MakeComm(j.candidates[c])) else None
    case Made(c, ok) => Some(Agree(1))
    case Measure(i, q) => if q != [] then Some(TimeComm(q[0], i)) else None
    case Measured(i, q, t, bad) => Some(Agree(3))
    case _ => None
  }

  /** What the rank contributes to an exchange. */
  function Contribution(l: Local, o: Outcome): seq<Time> {
    match l.pc
    case Budget(c) => [Fin(o.elapsed)]
    case Made(c, ok) => [Flag(!ok)]
    case Measured(i, q, t, bad) => [t, Flag(bad), Fin(o.elapsed)]
    case _ => []
  }

  function Over(budget: real, e: Time): bool { Less(Fin(budget), e) }

  function Zero(a: Time): bool { a == Fin(0.0) }

  /** The rank after its call, given what it saw and, for an exchange, the agreed maxima. */
  function Resume(j: Job, l: Local, o: Outcome, agreed: seq<Time>): Local {
    match l.pc
    case Budget(c) =>
      if |agreed| != 1 || c >= |j.candidates| then l
      else if Over(j.budget, agreed[0]) then Seek(j, l, c + 1) else l.(pc := Make(c))
    case Make(c) =>
      if c >= |j.candidates| then l
      else l.(pc := Made(c, o.made), errors := if o.made then l.errors else l.errors + {j.candidates[c]})
    case Made(c, ok) =>
      if |agreed| != 1 || c >= |j.candidates| then l
      else if Zero(agreed[0]) then Seek(j, l.(comms := l.comms + {j.candidates[c]}), c + 1)
      else Seek(j, l.(errors := l.errors + {j.candidates[c]}), c + 1)
    case Measure(i, q) =>
      if q == [] then l
      else match o.time {
        case Some(t) => l.(pc := Measured(i, q, Fin(t), false))
        case None => l.(pc := Measured(i, q, Inf, true), errors := l.errors + {q[0]})
      }
    case Measured(i, q, _, _) =>
      if |agreed| != 3 || q == [] then l
      else
        var s := q[0];
        var m :=
          if !Zero(agreed[1]) && s != DEFAULT then
            l.(errors := l.errors + {s}, table := l.table[s := Infinite(j.sizes)], live := Without(l.live, s))
          else if Zero(agreed[1]) && s in l.table && i < |l.table[s]| then l.(table := l.table[s := l.table[s][i := agreed[0]]])
          else l;
        if Over(j.budget, agreed[2]) then m.(pc := Finished)
        else if |q| > 1 then m.(pc := Measure(i, q[1..])) else EndSize(j, m, i)
    case _ => l
  }

  // ---- all ranks ----------------------------------------------------------

  function MaxOf(a: seq<Time>, b: seq<Time>): seq<Time> {
    if |a| == |b| then seq(|a|, i requires 0 <= i < |a| && |a| == |b| => MaxTime(a[i], b[i])) else a
  }

  /** The exchange: the maximum over all ranks, entry by entry. */
  function Agreed(ls: seq<Local>, os: seq<Outcome>): seq<Time>
    requires |ls| == |os| >= 1
  {
    if |ls| == 1 then Contribution(ls[0], os[0])
    else MaxOf(Agreed(ls[..|ls| - 1], os[..|os| - 1]), Contribution(ls[|ls| - 1], os[|os| - 1]))
  }

  function Step(j: Job, ls: seq<Local>, os: seq<Outcome>): (ms: seq<Local>)
    requires |ls| == |os| >= 1
    ensures |ms| == |ls|
  {
    seq(|ls|, r requires 0 <= r < |ls| == |os| => Resume(j, ls[r], os[r], Agreed(ls, os)))
  }

  /** The ranks after some calls; `seen[n][r]` is what rank r saw during call n. */
  function Ranks(j: Job, w: nat, seen: seq<seq<Outcome>>): (ls: seq<Local>)
    requires w >= 1 && forall n :: 0 <= n < |seen| ==> |seen[n]| == w
    ensures |ls| == w
  {
    if seen == [] then seq(w, r => Start(j)) else Step(j, Ranks(j, w, seen[..|seen| - 1]), seen[|seen| - 1])
  }

  /** Program counters are equal but for what a rank has just seen by itself. */
  predicate SamePc(a: Pc, b: Pc) {
    match a
    case Made(c, _) => b.Made? && b.c == c
    case Measured(i, q, _, _) => b.Measured? && b.i == i && b.queue == q
    case _ => a == b
  }

  predicate Same(a: Local, b: Local) {
    SamePc(a.pc, b.pc) && a.table == b.table && a.comms == b.comms && a.live == b.live
  }

  predicate AllSame(ls: seq<Local>) { forall r, s :: 0 <= r < |ls| && 0 <= s < |ls| ==> Same(ls[r], ls[s]) }

  lemma {:induction false} SeekSame(j: Job, a: Local, b: Local, c: nat)
    requires a.table == b.table && a.comms == b.comms
    requires c < |j.candidates| ==> a.live == b.live
    ensures Same(Seek(j, a, c), Seek(j, b, c))
    decreases |j.candidates| - c
  {
    if c < |j.candidates| && j.candidates[c] == DEFAULT && c + 1 < |j.candidates| { SeekSame(j, a, b, c + 1); }
  }

  lemma {:induction false} BestSame(a: Local, b: Local, live: seq<Spec>, i: nat)
    requires a.table == b.table
    ensures BestOf(a, live, i) == BestOf(b, live, i)
  {
    if live != [] { BestSame(a, b, live[1..], i); }
  }

  lemma {:induction false} PrunedSame(j: Job, a: Local, b: Local, live: seq<Spec>, i: nat, best: Time)
    requires a.table == b.table
    ensures Pruned(j, a, live, i, best) == Pruned(j, b, live, i, best)
  {
    if live != [] { PrunedSame(j, a, b, live[1..], i, best); }
  }

  lemma EndSame(j: Job, a: Local, b: Local, i: nat)
    requires a.table == b.table && a.comms == b.comms && a.live == b.live
    ensures Same(EndSize(j, a, i), EndSize(j, b, i))
  {
    BestSame(a, b, a.live, i);
    PrunedSame(j, a, b, a.live, i, BestOf(a, a.live, i));
  }

  /** Whatever two ranks see by themselves, an agreed answer takes them to the same place. */
  lemma ResumeSame(j: Job, a: Local, b: Local, o: Outcome, p: Outcome, agreed: seq<Time>)
    requires Same(a, b)
    ensures Same(Resume(j, a, o, agreed), Resume(j, b, p, agreed))
  {
    match a.pc
    case Budget(c) => SeekSame(j, a, b, c + 1);
    case Made(c, _) =>
      if c < |j.candidates| {
        SeekSame(j, a.(comms := a.comms + {j.candidates[c]}), b.(comms := b.comms + {j.candidates[c]}), c + 1);
        SeekSame(j, a.(errors := a.errors + {j.candidates[c]}), b.(errors := b.errors + {j.candidates[c]}), c + 1);
      }
    case Measured(i, q, _, _) => MeasuredSame(j, a, b, o, p, agreed);
    case _ =>
  }

  lemma MeasuredSame(j: Job, a: Local, b: Local, o: Outcome, p: Outcome, agreed: seq<Time>)
    requires Same(a, b) && a.pc.Measured?
    ensures Same(Resume(j, a, o, agreed), Resume(j, b, p, agreed))
  {
    var i, q := a.pc.i, a.pc.queue;
    if |agreed| == 3 && q != [] {
      var s := q[0];
      EndSame(j, a.(errors := a.errors + {s}, table := a.table[s := Infinite(j.sizes)], live := Without(a.live, s)),
              b.(errors := b.errors + {s}, table := b.table[s := Infinite(j.sizes)], live := Without(b.live, s)), i);
      if s in a.table && i < |a.table[s]| {
        EndSame(j, a.(table := a.table[s := a.table[s][i := agreed[0]]]), b.(table := b.table[s := b.table[s][i := agreed[0]]]), i);
      }
      EndSame(j, a, b, i);
    }
  }

  /** At every moment of every run, whatever each rank measures, fails at or reads from its clock, all
      ranks are about to issue the same collective call, and hold the same table and live candidates. */
  lemma {:induction false} LockStep(j: Job, w: nat, seen: seq<seq<Outcome>>)
    requires w >= 1 && forall n :: 0 <= n < |seen| ==> |seen[n]| == w
    ensures AllSame(Ranks(j, w, seen))
    ensures forall r, s :: 0 <= r < w && 0 <= s < w ==> Issue(j, Ranks(j, w, seen)[r]) == Issue(j, Ranks(j, w, seen)[s])
  {
    if seen != [] {
      var ls, os := Ranks(j, w, seen[..|seen| - 1]), seen[|seen| - 1];
      LockStep(j, w, seen[..|seen| - 1]);
      forall r, s | 0 <= r < w && 0 <= s < w ensures Same(Step(j, ls, os)[r], Step(j, ls, os)[s]) {
        ResumeSame(j, ls[r], ls[s], os[r], os[s], Agreed(ls, os));
      }
    }
  }
}
