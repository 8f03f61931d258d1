/**
The corpus of src/lib.rs as a value: the live sequences, oldest first, and everything a brute-force
scan of them defines. The class in SuffixCache.dfy keeps an index; these definitions do not know it.
*/
module SuffixCorpus {
  import opened IntMath

  datatype Entry = Entry(id: nat, toks: seq<int>)

  /** A position in a live sequence: of a window when indexed, of the next token when drafting. */
  datatype Place = Place(id: nat, pos: nat)

  datatype Config = Config(n: nat, depth: nat, sequences: nat, tokens: nat, positions: nat, candidates: nat,
                           support: nat, factor: real, offset: real)

  /** The bounds that Config::default clamps to. */
  predicate ConfigOk(cfg: Config) {
    cfg.n >= 1 && cfg.depth >= 1 && cfg.positions >= 1 && cfg.candidates >= 1 && cfg.support >= 1 && cfg.factor >= 0.0
  }

  function Last<T>(s: seq<T>, k: nat): seq<T> {
    if |s| <= k then s else s[|s| - k..]
  }

  // ---- occurrences --------------------------------------------------------

  predicate At(toks: seq<int>, pos: nat, key: seq<int>) {
    pos + |key| <= |toks| && toks[pos..pos + |key|] == key
  }

  /** Occurrences of key at positions below m of an entry, in order. */
  function Within(e: Entry, key: seq<int>, m: nat): seq<Place> {
    if m == 0 then [] else Within(e, key, m - 1) + (if At(e.toks, m - 1, key) then [Place(e.id, m - 1)] else [])
  }

  /** Every occurrence of key in the corpus, oldest first. */
  function Occurrences(c: seq<Entry>, key: seq<int>): seq<Place> {
    if c == [] then [] else Occurrences(c[..|c| - 1], key) + Within(c[|c| - 1], key, |c[|c| - 1].toks|)
  }

  function Tokens(c: seq<Entry>): nat {
    if c == [] then 0 else Tokens(c[..|c| - 1]) + |c[|c| - 1].toks|
  }

  /** Ids increase along the corpus and stay below next. */
  predicate Ordered(c: seq<Entry>, next: nat) {
    (forall i :: 0 <= i < |c| ==> c[i].id < next) && forall i, j :: 0 <= i < j < |c| ==> c[i].id < c[j].id
  }

  lemma {:induction false} WithinSound(e: Entry, key: seq<int>, m: nat)
    ensures forall x :: x in Within(e, key, m) <==> x.id == e.id && x.pos < m && At(e.toks, x.pos, key)
  {
    if m > 0 { WithinSound(e, key, m - 1); }
  }

  /** Entry i has x's id and key at x's position. */
  predicate Occurs(c: seq<Entry>, i: int, key: seq<int>, x: Place) {
    0 <= i < |c| && c[i].id == x.id && At(c[i].toks, x.pos, key)
  }

  /** The scan finds exactly the occurrences. */
  lemma {:induction false} OccurrencesSound(c: seq<Entry>, key: seq<int>, x: Place)
    requires key != []
    ensures x in Occurrences(c, key) <==> exists i :: Occurs(c, i, key, x)
  {
    if c != [] {
      var d, e := c[..|c| - 1], c[|c| - 1];
      OccurrencesSound(d, key, x);
      WithinSound(e, key, |e.toks|);
      if x in Occurrences(c, key) {
        if x in Occurrences(d, key) {
          var i :| Occurs(d, i, key, x);
          assert Occurs(c, i, key, x);
        } else {
          assert Occurs(c, |d|, key, x);
        }
      }
      if i :| Occurs(c, i, key, x) {
        if i < |d| { assert Occurs(d, i, key, x); }
      }
    }
  }

  lemma {:induction false} OccurrencesFirst(c: seq<Entry>, key: seq<int>)
    requires c != []
    ensures Occurrences(c, key) == Within(c[0], key, |c[0].toks|) + Occurrences(c[1..], key)
  {
    var e := c[|c| - 1];
    if |c| == 1 {
      assert c[..0] == [] && c[1..] == [];
      assert Occurrences(c, key) == [] + Within(c[0], key, |c[0].toks|) + [];
    } else {
      var d := c[..|c| - 1];
      OccurrencesFirst(d, key);
      RestSplits(c);
      var last := Within(e, key, |e.toks|);
      assert Occurrences(c, key) == (Within(c[0], key, |c[0].toks|) + Occurrences(d[1..], key)) + last;
      assert Occurrences(c[1..], key) == Occurrences(d[1..], key) + last;
    }
  }

  lemma RestSplits(c: seq<Entry>)
    requires |c| >= 2
    ensures c[1..][..|c| - 2] == c[..|c| - 1][1..] && c[1..][|c| - 2] == c[|c| - 1]
  {}

  lemma {:induction false} TokensFirst(c: seq<Entry>)
    requires c != []
    ensures Tokens(c) == |c[0].toks| + Tokens(c[1..])
  {
    if |c| == 1 {
      assert c[..0] == [] && c[1..] == [];
    } else {
      TokensFirst(c[..|c| - 1]);
      assert c[1..][..|c| - 2] == c[..|c| - 1][1..];
    }
  }

  // ---- the capped bucket --------------------------------------------------

  /** Appending one occurrence to the newest cap of them. */
  lemma LastPush<T>(s: seq<T>, x: T, cap: nat)
    requires cap >= 1
    ensures var t := Last(s, cap) + [x]; Last(s + [x], cap) == if |t| > cap then t[1..] else t
  {}

  function Keep(s: seq<Place>, id: nat): seq<Place> {
    if s == [] then [] else Keep(s[..|s| - 1], id) + (if s[|s| - 1].id != id then [s[|s| - 1]] else [])
  }

  lemma {:induction false} KeepAll(s: seq<Place>, id: nat)
    requires forall i :: 0 <= i < |s| ==> s[i].id != id
    ensures Keep(s, id) == s
  {
    if s != [] {
      KeepAll(s[..|s| - 1], id);
      assert s == s[..|s| - 1] + [s[|s| - 1]];
    }
  }

  lemma {:induction false} KeepNone(s: seq<Place>, id: nat)
    requires forall i :: 0 <= i < |s| ==> s[i].id == id
    ensures Keep(s, id) == []
  {
    if s != [] { KeepNone(s[..|s| - 1], id); }
  }

  lemma {:induction false} KeepJoin(s: seq<Place>, t: seq<Place>, id: nat)
    ensures Keep(s + t, id) == Keep(s, id) + Keep(t, id)
  {
    if t == [] {
      assert s + t == s;
    } else {
      var u := t[..|t| - 1];
      KeepJoin(s, u, id);
      assert (s + t)[..|s + t| - 1] == s + u;
    }
  }

  /** Dropping the oldest sequence from a capped bucket leaves the capped bucket of the rest: were
      one of its occurrences in the bucket, all of the rest would be too. */
  lemma KeepLast(gone: seq<Place>, rest: seq<Place>, id: nat, cap: nat)
    requires (forall i :: 0 <= i < |gone| ==> gone[i].id == id) && forall i :: 0 <= i < |rest| ==> rest[i].id != id
    ensures Keep(Last(gone + rest, cap), id) == Last(rest, cap)
  {
    if |rest| >= cap {
      LastOfRest(gone, rest, cap);
      KeepAll(Last(rest, cap), id);
    } else {
      var part := Last(gone, cap - |rest|);
      LastOfBoth(gone, rest, cap);
      KeepJoin(part, rest, id);
      KeepNone(part, id);
      KeepAll(rest, id);
    }
  }

  lemma LastOfRest(gone: seq<Place>, rest: seq<Place>, cap: nat)
    requires |rest| >= cap
    ensures Last(gone + rest, cap) == Last(rest, cap)
  {}

  lemma LastOfBoth(gone: seq<Place>, rest: seq<Place>, cap: nat)
    requires |rest| < cap
    ensures Last(gone + rest, cap) == Last(gone, cap - |rest|) + rest
  {}

  // ---- adding -------------------------------------------------------------

  predicate Fits(c: seq<Entry>, cfg: Config, len: nat) {
    |c| < cfg.sequences && Tokens(c) + len <= cfg.tokens
  }

  /** How many of the oldest sequences must go before len more tokens fit. */
  function Excess(c: seq<Entry>, cfg: Config, len: nat): (k: nat)
    ensures k <= |c|
  {
    if c == [] || Fits(c, cfg, len) then 0 else 1 + Excess(c[1..], cfg, len)
  }

  /** Whether a sequence, cut to the token budget, is long enough to be kept. */
  predicate Admits(cfg: Config, toks: seq<int>) {
    cfg.sequences > 0 && cfg.tokens > cfg.n && |Last(toks, cfg.tokens)| > cfg.n
  }

  /** The corpus after adding toks under the id next. */
  function Added(c: seq<Entry>, cfg: Config, next: nat, toks: seq<int>): seq<Entry> {
    var t := Last(toks, cfg.tokens);
    if Admits(cfg, toks) then c[Excess(c, cfg, |t|)..] + [Entry(next, t)] else c
  }

  function NextId(cfg: Config, next: nat, toks: seq<int>): nat { if Admits(cfg, toks) then next + 1 else next }

  /** No sequence is evicted that could have stayed. */
  lemma {:induction false} ExcessLeast(c: seq<Entry>, cfg: Config, len: nat, k: nat)
    requires cfg.sequences >= 1 && len <= cfg.tokens
    ensures Fits(c[Excess(c, cfg, len)..], cfg, len)
    ensures k < Excess(c, cfg, len) ==> !Fits(c[k..], cfg, len)
  {
    if c == [] || Fits(c, cfg, len) {
      assert c[0..] == c;
    } else {
      var d := c[1..];
      assert c[Excess(c, cfg, len)..] == d[Excess(d, cfg, len)..];
      if k == 0 {
        ExcessLeast(d, cfg, len, 0);
        assert c[0..] == c;
      } else {
        ExcessLeast(d, cfg, len, k - 1);
        if k < Excess(c, cfg, len) { assert c[k..] == d[k - 1..]; }
      }
    }
  }

  /** The additions of a run that are long enough to be kept, trimmed, with the ids they get. */
  function Admitted(cfg: Config, adds: seq<seq<int>>): seq<Entry> {
    if adds == [] then []
    else
      var a, t := Admitted(cfg, adds[..|adds| - 1]), Last(adds[|adds| - 1], cfg.tokens);
      if Admits(cfg, adds[|adds| - 1]) then a + [Entry(|a|, t)] else a
  }

  /** The corpus after a run of additions to an empty one. */
  function CorpusAfter(cfg: Config, adds: seq<seq<int>>): seq<Entry> {
    if adds == [] then []
    else Added(CorpusAfter(cfg, adds[..|adds| - 1]), cfg, |Admitted(cfg, adds[..|adds| - 1])|, adds[|adds| - 1])
  }

  /** c is the newest part of the queue a and within both budgets. */
  predicate Queue(cfg: Config, c: seq<Entry>, a: seq<Entry>) {
    && c == Last(a, |c|) && |c| <= cfg.sequences && Tokens(c) <= cfg.tokens && (a != [] ==> c != [])
    && forall i :: 0 <= i < |a| ==> a[i].id == i && cfg.n < |a[i].toks| <= cfg.tokens
  }

  lemma QueueStep(cfg: Config, c: seq<Entry>, a: seq<Entry>, t: seq<int>, k: nat)
    requires Queue(cfg, c, a) && cfg.n < |t| <= cfg.tokens && k <= |c| && Fits(c[k..], cfg, |t|)
    ensures Queue(cfg, c[k..] + [Entry(|a|, t)], a + [Entry(|a|, t)])
  {
    var d := c[k..] + [Entry(|a|, t)];
    assert d[..|d| - 1] == c[k..];
    assert d == Last(a + [Entry(|a|, t)], |d|);
  }

  /** First in, first out: after any run the corpus is the newest of the admitted sequences, within
      both budgets, and the newest of all is among them. */
  lemma {:induction false} RunIsQueue(cfg: Config, adds: seq<seq<int>>)
    requires ConfigOk(cfg)
    ensures Queue(cfg, CorpusAfter(cfg, adds), Admitted(cfg, adds))
  {
    if adds != [] {
      var init := adds[..|adds| - 1];
      RunIsQueue(cfg, init);
      var c, t := CorpusAfter(cfg, init), Last(adds[|adds| - 1], cfg.tokens);
      if Admits(cfg, adds[|adds| - 1]) {
        var k := Excess(c, cfg, |t|);
        ExcessLeast(c, cfg, |t|, k);
        QueueStep(cfg, c, Admitted(cfg, init), t, k);
      }
    }
  }

  // ---- matching -----------------------------------------------------------

  /** Length of the longest common suffix. */
  function CommonSuffix(a: seq<int>, b: seq<int>): (m: nat)
    ensures m <= |a| && m <= |b|
  {
    if a == [] || b == [] || a[|a| - 1] != b[|b| - 1] then 0 else 1 + CommonSuffix(a[..|a| - 1], b[..|b| - 1])
  }

  lemma TailSplit(a: seq<int>, m: nat)
    requires 1 <= m <= |a|
    ensures var a' := a[..|a| - 1]; a[|a| - m..] == a'[|a'| - (m - 1)..] + [a[|a| - 1]]
  {}

  /** A common suffix is as long as m if and only if the last m elements agree. */
  lemma {:induction false} CommonSuffixIs(a: seq<int>, b: seq<int>, m: nat)
    requires m <= |a| && m <= |b|
    ensures m <= CommonSuffix(a, b) <==> a[|a| - m..] == b[|b| - m..]
  {
    if m == 0 {
      assert a[|a|..] == b[|b|..] == [];
    } else {
      var a', b' := a[..|a| - 1], b[..|b| - 1];
      CommonSuffixIs(a', b', m - 1);
      TailSplit(a, m);
      TailSplit(b, m);
      if a[|a| - m..] == b[|b| - m..] {
        assert a[|a| - m..][m - 1] == a[|a| - 1] && b[|b| - m..][m - 1] == b[|b| - 1];
        assert a'[|a'| - (m - 1)..] == a[|a| - m..][..m - 1] == b'[|b'| - (m - 1)..];
      }
    }
  }

  /** The tokens of the sequence with this id ([] if none is live). */
  function Toks(c: seq<Entry>, id: nat): seq<int> {
    if c == [] then [] else if c[|c| - 1].id == id then c[|c| - 1].toks else Toks(c[..|c| - 1], id)
  }

  lemma {:induction false} ToksAt(c: seq<Entry>, next: nat, i: nat)
    requires Ordered(c, next) && i < |c|
    ensures Toks(c, c[i].id) == c[i].toks
  {
    if i < |c| - 1 { ToksAt(c[..|c| - 1], next, i); }
  }

  /** How far the text before the end of a window occurrence agrees with the end of the context. */
  function Matched(c: seq<Entry>, n: nat, window: seq<int>, x: Place): nat {
    var t := Toks(c, x.id);
    if x.pos + n <= |t| then CommonSuffix(t[..x.pos + n], window) else 0
  }

  /** The newest k of the occurrences, newest first. */
  function NewestFirst(s: seq<Place>, k: nat): seq<Place> {
    seq(Min(k, |s|), i requires 0 <= i < Min(k, |s|) => s[|s| - 1 - i])
  }

  function Longest(c: seq<Entry>, n: nat, window: seq<int>, xs: seq<Place>): nat {
    if xs == [] then 0
    else
      var m, b := Matched(c, n, window, xs[|xs| - 1]), Longest(c, n, window, xs[..|xs| - 1]);
      if m > b then m else b
  }

  /** Where the occurrences that match `best` tokens continue. */
  function Ends(c: seq<Entry>, n: nat, window: seq<int>, xs: seq<Place>, best: nat): seq<Place> {
    if xs == [] then []
    else
      Ends(c, n, window, xs[..|xs| - 1], best)
      + (if Matched(c, n, window, xs[|xs| - 1]) == best then [Place(xs[|xs| - 1].id, xs[|xs| - 1].pos + n)] else [])
  }

  lemma {:induction false} EndsAbove(c: seq<Entry>, n: nat, window: seq<int>, xs: seq<Place>, best: nat)
    requires best > Longest(c, n, window, xs)
    ensures Ends(c, n, window, xs, best) == []
  {
    if xs != [] { EndsAbove(c, n, window, xs[..|xs| - 1], best); }
  }

  /** Occurrence i matches `best` tokens and continues at y. */
  predicate EndOf(c: seq<Entry>, n: nat, window: seq<int>, xs: seq<Place>, best: nat, i: int, y: Place) {
    0 <= i < |xs| && Matched(c, n, window, xs[i]) == best && y == Place(xs[i].id, xs[i].pos + n)
  }

  /** The ends are those of the examined occurrences that match `best` tokens. */
  lemma {:induction false} EndsSound(c: seq<Entry>, n: nat, window: seq<int>, xs: seq<Place>, best: nat, y: Place)
    ensures y in Ends(c, n, window, xs, best) <==> exists i :: EndOf(c, n, window, xs, best, i, y)
  {
    if xs != [] {
      var zs := xs[..|xs| - 1];
      EndsSound(c, n, window, zs, best, y);
      if y in Ends(c, n, window, xs, best) {
        if y in Ends(c, n, window, zs, best) {
          var i :| EndOf(c, n, window, zs, best, i, y);
          assert EndOf(c, n, window, xs, best, i, y);
        } else {
          assert EndOf(c, n, window, xs, best, |zs|, y);
        }
      }
      if i :| EndOf(c, n, window, xs, best, i, y) {
        if i < |zs| { assert EndOf(c, n, window, zs, best, i, y); }
      }
    }
  }

  lemma {:induction false} LongestBounds(c: seq<Entry>, n: nat, window: seq<int>, xs: seq<Place>)
    ensures forall i :: 0 <= i < |xs| ==> Matched(c, n, window, xs[i]) <= Longest(c, n, window, xs)
    ensures xs != [] ==> exists i :: 0 <= i < |xs| && Matched(c, n, window, xs[i]) == Longest(c, n, window, xs)
  {
    if xs != [] {
      var zs := xs[..|xs| - 1];
      LongestBounds(c, n, window, zs);
      assert forall i :: 0 <= i < |zs| ==> xs[i] == zs[i];
      if Matched(c, n, window, xs[|xs| - 1]) > Longest(c, n, window, zs) {
        assert Matched(c, n, window, xs[|xs| - 1]) == Longest(c, n, window, xs);
      } else if zs == [] {
        assert Matched(c, n, window, xs[0]) == Longest(c, n, window, xs);
      } else {
        var i :| 0 <= i < |zs| && Matched(c, n, window, zs[i]) == Longest(c, n, window, zs);
        assert Matched(c, n, window, xs[i]) == Longest(c, n, window, xs);
      }
    }
  }

  // ---- what the additions come to -----------------------------------------

  /** A sequence is kept exactly when the budgets allow for more than n tokens and it has more than n; what
      is kept are its last tokens, as many as the budget has. Otherwise nothing changes. */
  lemma AddedIs(c: seq<Entry>, cfg: Config, next: nat, toks: seq<int>)
    ensures var d := Added(c, cfg, next, toks);
      if cfg.sequences >= 1 && cfg.tokens > cfg.n && |toks| > cfg.n then
        && d != [] && d[|d| - 1].id == next && NextId(cfg, next, toks) == next + 1
        && var t := d[|d| - 1].toks;
        && |t| == (if |toks| < cfg.tokens then |toks| else cfg.tokens)
        && (forall i :: 0 <= i < |t| ==> t[i] == toks[|toks| - |t| + i])
        && exists k :: 0 <= k <= |c| && d[..|d| - 1] == c[k..]
      else d == c && NextId(cfg, next, toks) == next
  {
    if Admits(cfg, toks) {
      var k := Excess(c, cfg, |Last(toks, cfg.tokens)|);
      assert Added(c, cfg, next, toks)[..|c| - k] == c[k..];
    }
  }

  /** The token total is the sum of the lengths. */
  lemma {:induction false} TokensAre(c: seq<Entry>, d: seq<Entry>, e: Entry)
    ensures Tokens([]) == 0 && Tokens([e]) == |e.toks| && Tokens(c + d) == Tokens(c) + Tokens(d)
  {
    assert [e][..0] == [];
    if d == [] {
      assert c + d == c;
    } else {
      TokensAre(c, d[..|d| - 1], e);
      assert (c + d)[..|c + d| - 1] == c + d[..|d| - 1];
    }
  }
}
