/** What Cache::speculate drafts, as a property of the corpus alone. */
module SuffixDraft {
  import opened SuffixCorpus
  import opened IntMath

  /** Support of a token, and the newest place that it follows. */
  datatype Rank = Rank(count: nat, at: Place)

  predicate PlaceLess(a: Place, b: Place) { a.id < b.id || (a.id == b.id && a.pos < b.pos) }

  predicate RankLess(a: Rank, b: Rank) { a.count < b.count || (a.count == b.count && PlaceLess(a.at, b.at)) }

  predicate Follows(c: seq<Entry>, x: Place, d: seq<int>) {
    var t := Toks(c, x.id);
    x.pos + |d| <= |t| && t[x.pos..x.pos + |d|] == d
  }

  predicate NextIs(c: seq<Entry>, x: Place, step: nat, tok: int) {
    var t := Toks(c, x.id);
    x.pos + step < |t| && t[x.pos + step] == tok
  }

  /** Of the matches es, those whose token number step is tok. */
  function With(c: seq<Entry>, es: seq<Place>, step: nat, tok: int): seq<Place> {
    if es == [] then []
    else With(c, es[..|es| - 1], step, tok) + (if NextIs(c, es[|es| - 1], step, tok) then [es[|es| - 1]] else [])
  }

  /** Of the matches es, those that d continues. */
  function Survivors(c: seq<Entry>, es: seq<Place>, d: seq<int>): seq<Place> {
    if d == [] then es else With(c, Survivors(c, es, d[..|d| - 1]), |d| - 1, d[|d| - 1])
  }

  function Newest(es: seq<Place>): (x: Place)
    requires es != []
    ensures x in es && forall y :: y in es ==> y == x || PlaceLess(y, x)
  {
    if |es| == 1 then es[0]
    else
      var y := Newest(es[..|es| - 1]);
      assert forall z :: z in es ==> z in es[..|es| - 1] || z == es[|es| - 1];
      if PlaceLess(y, es[|es| - 1]) then es[|es| - 1] else y
  }

  function RankOf(c: seq<Entry>, es: seq<Place>, step: nat, tok: int): Rank
    requires With(c, es, step, tok) != []
  {
    Rank(|With(c, es, step, tok)|, Newest(With(c, es, step, tok)))
  }

  /** tok follows some match, and every other token that does has less support, or as much but an
      older newest match. */
  ghost predicate Wins(c: seq<Entry>, es: seq<Place>, step: nat, tok: int) {
    && With(c, es, step, tok) != []
    && forall t :: t != tok && With(c, es, step, t) != [] ==> RankLess(RankOf(c, es, step, t), RankOf(c, es, step, tok))
  }

  /** d is drafted from the matches es: each token wins among the survivors of those before it and
      has the required support, and d ends at the cap or where no token has it. */
  ghost predicate Drafts(c: seq<Entry>, support: nat, es: seq<Place>, cap: nat, d: seq<int>) {
    && |d| <= cap
    && (forall i :: 0 <= i < |d| ==> Step(c, support, es, d, i))
    && (|d| < cap ==> forall t :: |With(c, Survivors(c, es, d), |d|, t)| < support)
  }

  ghost predicate Step(c: seq<Entry>, support: nat, es: seq<Place>, d: seq<int>, i: nat)
    requires i < |d|
  {
    Wins(c, Survivors(c, es, d[..i]), i, d[i]) && |With(c, Survivors(c, es, d[..i]), i, d[i])| >= support
  }

  /** The share of the longest matches that the whole draft continues. */
  function Share(c: seq<Entry>, es: seq<Place>, d: seq<int>): real {
    if d == [] || es == [] then 0.0 else |Survivors(c, es, d)| as real / |es| as real
  }

  function Cap(cfg: Config, maxTokens: nat, best: nat): nat {
    var x := cfg.factor * best as real + cfg.offset;
    Min(maxTokens, if x > 0.0 then x.Floor else 0)
  }

  /** The occurrences a lookup examines: of the window's last n tokens, the newest ones. */
  function Examined(cfg: Config, c: seq<Entry>, window: seq<int>): seq<Place>
    requires |window| >= cfg.n
  {
    NewestFirst(Occurrences(c, window[|window| - cfg.n..]), Min(cfg.candidates, cfg.positions))
  }

  /** What the examined occurrences of the window's end give. */
  ghost predicate LookedUp(cfg: Config, c: seq<Entry>, window: seq<int>, maxTokens: nat, d: seq<int>, score: real, best: nat)
    requires |window| >= cfg.n
  {
    var xs := Examined(cfg, c, window);
    var es := Ends(c, cfg.n, window, xs, best);
    && best == Longest(c, cfg.n, window, xs)
    && Drafts(c, cfg.support, es, Cap(cfg, maxTokens, best), d)
    && score == Share(c, es, d)
  }

  /** The result of a lookup, said of the live corpus by a brute-force scan. */
  ghost predicate Speculated(cfg: Config, c: seq<Entry>, context: seq<int>, maxTokens: nat, d: seq<int>, score: real, best: nat) {
    var window := Last(context, cfg.depth);
    if maxTokens == 0 || |window| < cfg.n || Examined(cfg, c, window) == [] then d == [] && score == 0.0 && best == 0
    else LookedUp(cfg, c, window, maxTokens, d, score, best)
  }

  // ---- consequences -------------------------------------------------------

  lemma {:induction false} WithSound(c: seq<Entry>, es: seq<Place>, step: nat, tok: int)
    ensures forall x :: x in With(c, es, step, tok) <==> x in es && NextIs(c, x, step, tok)
    ensures |With(c, es, step, tok)| <= |es|
  {
    if es != [] { WithSound(c, es[..|es| - 1], step, tok); }
  }

  lemma FollowsOn(c: seq<Entry>, x: Place, d: seq<int>, tok: int)
    ensures Follows(c, x, d + [tok]) <==> Follows(c, x, d) && NextIs(c, x, |d|, tok)
  {
    var t := Toks(c, x.id);
    if x.pos + |d| < |t| {
      assert t[x.pos..x.pos + |d| + 1] == t[x.pos..x.pos + |d|] + [t[x.pos + |d|]];
      assert (d + [tok])[..|d|] == d;
    }
  }

  /** The survivors of a draft are the matches that it continues, verbatim. */
  lemma {:induction false} SurvivorsSound(c: seq<Entry>, es: seq<Place>, d: seq<int>, x: Place)
    requires x in es ==> x.pos <= |Toks(c, x.id)|
    ensures x in Survivors(c, es, d) <==> x in es && Follows(c, x, d)
    ensures |Survivors(c, es, d)| <= |es|
  {
    if d != [] {
      var f := d[..|d| - 1];
      SurvivorsSound(c, es, f, x);
      WithSound(c, Survivors(c, es, f), |f|, d[|f|]);
      FollowsOn(c, x, f, d[|f|]);
      assert d == f + [d[|f|]];
    }
  }

  lemma WinnerUnique(c: seq<Entry>, es: seq<Place>, step: nat, a: int, b: int)
    requires Wins(c, es, step, a) && Wins(c, es, step, b)
    ensures a == b
  {}

  lemma WinnerLeads(c: seq<Entry>, es: seq<Place>, step: nat, a: int, t: int)
    requires Wins(c, es, step, a)
    ensures |With(c, es, step, t)| <= |With(c, es, step, a)|
  {}

  ghost predicate Steps(c: seq<Entry>, support: nat, es: seq<Place>, d: seq<int>) {
    forall i :: 0 <= i < |d| ==> Step(c, support, es, d, i)
  }

  /** Two drafts from the same matches agree as far as both go. */
  lemma {:induction false} DraftsAgree(c: seq<Entry>, support: nat, es: seq<Place>, d: seq<int>, f: seq<int>, i: nat)
    requires Steps(c, support, es, d) && Steps(c, support, es, f) && i <= |d| && i <= |f|
    ensures d[..i] == f[..i]
  {
    if i > 0 {
      DraftsAgree(c, support, es, d, f, i - 1);
      assert Step(c, support, es, d, i - 1) && Step(c, support, es, f, i - 1);
      WinnerUnique(c, Survivors(c, es, d[..i - 1]), i - 1, d[i - 1], f[i - 1]);
      assert d[..i] == d[..i - 1] + [d[i - 1]] && f[..i] == f[..i - 1] + [f[i - 1]];
    }
  }

  /** Where one draft goes on, some token has the required support. */
  lemma Continues(c: seq<Entry>, support: nat, es: seq<Place>, d: seq<int>, f: seq<int>)
    requires Steps(c, support, es, d) && Steps(c, support, es, f) && |d| < |f|
    ensures |With(c, Survivors(c, es, d), |d|, f[|d|])| >= support
  {
    DraftsAgree(c, support, es, d, f, |d|);
    assert Step(c, support, es, f, |d|) && f[..|d|] == d[..|d|] == d;
  }

  lemma NotLonger(c: seq<Entry>, support: nat, es: seq<Place>, cap: nat, d: seq<int>, f: seq<int>)
    requires Drafts(c, support, es, cap, d) && Drafts(c, support, es, cap, f)
    ensures |d| >= |f|
  {
    if |d| < |f| { Continues(c, support, es, d, f); }
  }

  /** The corpus and the context decide the result: no hashing order shows. */
  lemma SpeculatedUnique(cfg: Config, c: seq<Entry>, context: seq<int>, maxTokens: nat, d: seq<int>, u: real, b: nat, f: seq<int>, v: real, a: nat)
    requires Speculated(cfg, c, context, maxTokens, d, u, b) && Speculated(cfg, c, context, maxTokens, f, v, a)
    ensures d == f && u == v && b == a
  {
    var window := Last(context, cfg.depth);
    if !(maxTokens == 0 || |window| < cfg.n || Examined(cfg, c, window) == []) {
      var es := Ends(c, cfg.n, window, Examined(cfg, c, window), b);
      NotLonger(c, cfg.support, es, Cap(cfg, maxTokens, b), d, f);
      NotLonger(c, cfg.support, es, Cap(cfg, maxTokens, b), f, d);
      DraftsAgree(c, cfg.support, es, d, f, |d|);
      assert d[..|d|] == d && f[..|f|] == f;
    }
  }

  /** The place after a window occurrence in some live sequence. */
  lemma EndInside(cfg: Config, c: seq<Entry>, next: nat, window: seq<int>, best: nat, y: Place)
    requires cfg.n >= 1 && |window| >= cfg.n && Ordered(c, next) && y in Ends(c, cfg.n, window, Examined(cfg, c, window), best)
    ensures y.pos >= cfg.n && best == Matched(c, cfg.n, window, Place(y.id, y.pos - cfg.n))
    ensures exists i :: 0 <= i < |c| && c[i].id == y.id && Toks(c, y.id) == c[i].toks && y.pos <= |c[i].toks|
  {
    var key := window[|window| - cfg.n..];
    var occ := Occurrences(c, key);
    EndsSound(c, cfg.n, window, Examined(cfg, c, window), best, y);
    var k :| EndOf(c, cfg.n, window, Examined(cfg, c, window), best, k, y);
    var x := Examined(cfg, c, window)[k];
    assert x == occ[|occ| - 1 - k] && x in occ;
    OccurrencesSound(c, key, x);
    var i :| Occurs(c, i, key, x);
    ToksAt(c, next, i);
  }

  lemma {:induction false} SomeSurvive(c: seq<Entry>, support: nat, es: seq<Place>, cap: nat, d: seq<int>)
    requires Drafts(c, support, es, cap, d) && (es != [] || d != [])
    ensures Survivors(c, es, d) != []
  {
    if d != [] {
      var i := |d| - 1;
      assert Step(c, support, es, d, i);
    }
  }

  /** A non-empty draft continues, verbatim, some live sequence after a match that no examined
      occurrence exceeds; it is at most maxTokens long, and its score is the share of the longest
      matches that it continues to its end. */
  lemma DraftIsContinuation(cfg: Config, c: seq<Entry>, next: nat, context: seq<int>, maxTokens: nat, d: seq<int>, score: real, best: nat)
    requires ConfigOk(cfg) && Ordered(c, next) && Speculated(cfg, c, context, maxTokens, d, score, best) && d != []
    ensures |d| <= maxTokens && 0.0 < score <= 1.0
    ensures exists i, pos: nat ::
      && 0 <= i < |c| && cfg.n <= pos && pos + |d| <= |c[i].toks| && c[i].toks[pos..pos + |d|] == d
      && best == CommonSuffix(c[i].toks[..pos], Last(context, cfg.depth))
  {
    var window := Last(context, cfg.depth);
    var xs := Examined(cfg, c, window);
    var es := Ends(c, cfg.n, window, xs, best);
    SomeSurvive(c, cfg.support, es, Cap(cfg, maxTokens, best), d);
    var y := Survivors(c, es, d)[0];
    InSurvivors(c, es, d, y);
    EndInside(cfg, c, next, window, best, y);
    SurvivorsSound(c, es, d, y);
    ShareBounds(|Survivors(c, es, d)|, |es|);
    var i :| 0 <= i < |c| && c[i].id == y.id && Toks(c, y.id) == c[i].toks && y.pos <= |c[i].toks|;
    assert c[i].toks[y.pos..y.pos + |d|] == d;
  }

  lemma {:induction false} InSurvivors(c: seq<Entry>, es: seq<Place>, d: seq<int>, x: Place)
    requires x in Survivors(c, es, d)
    ensures x in es
  {
    if d != [] {
      WithSound(c, Survivors(c, es, d[..|d| - 1]), |d| - 1, d[|d| - 1]);
      InSurvivors(c, es, d[..|d| - 1], x);
    }
  }

  lemma ShareBounds(a: nat, b: nat)
    requires 0 < a <= b
    ensures 0.0 < a as real / b as real <= 1.0
  {}

  /** The drafted token has the most support, and among tokens of as much support the newest match: a match
      in a newer sequence, or later in the same one, than any that another such token follows. */
  lemma WinnerIsNewest(c: seq<Entry>, es: seq<Place>, step: nat, a: int, t: int) returns (x: Place)
    requires Wins(c, es, step, a) && t != a
    ensures |With(c, es, step, t)| <= |With(c, es, step, a)| && x in With(c, es, step, a)
    ensures |With(c, es, step, t)| == |With(c, es, step, a)| ==>
      forall y :: y in With(c, es, step, t) ==> y.id < x.id || (y.id == x.id && y.pos < x.pos)
  {
    x := Newest(With(c, es, step, a));
    if With(c, es, step, t) != [] {
      assert RankLess(RankOf(c, es, step, t), RankOf(c, es, step, a));
      var n := Newest(With(c, es, step, t));
      assert forall y :: y in With(c, es, step, t) ==> y == n || PlaceLess(y, n);
    }
  }

  /** A draft may be as long as asked for and as factor * match length + offset allows, no longer. */
  lemma CapIs(cfg: Config, maxTokens: nat, best: nat, n: nat)
    ensures n <= Cap(cfg, maxTokens, best) <==> n <= maxTokens && (n == 0 || n as real <= cfg.factor * best as real + cfg.offset)
  {
    var x := cfg.factor * best as real + cfg.offset;
    assert x > 0.0 ==> (n <= x.Floor <==> n as real <= x);
  }

  /** Examined are the newest occurrences of the window's last n tokens, newest first, as many as both limits
      allow. */
  lemma ExaminedAre(cfg: Config, c: seq<Entry>, window: seq<int>, k: nat)
    requires |window| >= cfg.n
    ensures var occ, xs := Occurrences(c, window[|window| - cfg.n..]), Examined(cfg, c, window);
      && (k < |xs| <==> k < |occ| && k < cfg.candidates && k < cfg.positions)
      && (k < |xs| ==> xs[k] == occ[|occ| - 1 - k])
  {}

  // ---- the draft, in counts of matches ------------------------------------

  /** Of the matches es, those that d continues, verbatim. */
  function Following(c: seq<Entry>, es: seq<Place>, d: seq<int>): seq<Place> {
    if es == [] then [] else Following(c, es[..|es| - 1], d) + (if Follows(c, es[|es| - 1], d) then [es[|es| - 1]] else [])
  }

  predicate Inside(c: seq<Entry>, es: seq<Place>) { forall x :: x in es ==> x.pos <= |Toks(c, x.id)| }

  lemma WithMore(c: seq<Entry>, es: seq<Place>, x: Place, step: nat, tok: int)
    ensures With(c, es + [x], step, tok) == With(c, es, step, tok) + (if NextIs(c, x, step, tok) then [x] else [])
  {
    assert (es + [x])[..|es|] == es;
  }

  lemma FollowingMore(c: seq<Entry>, es: seq<Place>, x: Place, d: seq<int>)
    ensures Following(c, es + [x], d) == Following(c, es, d) + (if Follows(c, x, d) then [x] else [])
  {
    assert (es + [x])[..|es|] == es;
  }

  lemma {:induction false} WithFollowing(c: seq<Entry>, es: seq<Place>, d: seq<int>, tok: int)
    ensures With(c, Following(c, es, d), |d|, tok) == Following(c, es, d + [tok])
  {
    if es != [] {
      var init, x := es[..|es| - 1], es[|es| - 1];
      WithFollowing(c, init, d, tok);
      FollowsOn(c, x, d, tok);
      assert es == init + [x];
      FollowingMore(c, init, x, d);
      FollowingMore(c, init, x, d + [tok]);
      if Follows(c, x, d) {
        WithMore(c, Following(c, init, d), x, |d|, tok);
      } else {
        assert Following(c, es, d) == Following(c, init, d);
        assert Following(c, es, d + [tok]) == Following(c, init, d + [tok]);
      }
    }
  }

  lemma {:induction false} FollowingNothing(c: seq<Entry>, es: seq<Place>)
    requires Inside(c, es)
    ensures Following(c, es, []) == es
  {
    if es != [] {
      FollowingNothing(c, es[..|es| - 1]);
      assert es == es[..|es| - 1] + [es[|es| - 1]];
    }
  }

  lemma {:induction false} SurvivorsAre(c: seq<Entry>, es: seq<Place>, d: seq<int>)
    requires Inside(c, es)
    ensures Survivors(c, es, d) == Following(c, es, d)
  {
    if d == [] {
      FollowingNothing(c, es);
    } else {
      var f := d[..|d| - 1];
      SurvivorsAre(c, es, f);
      WithFollowing(c, es, f, d[|d| - 1]);
      assert d == f + [d[|f|]];
    }
  }

  lemma WithIs(c: seq<Entry>, es: seq<Place>, d: seq<int>, tok: int)
    requires Inside(c, es)
    ensures With(c, Survivors(c, es, d), |d|, tok) == Following(c, es, d + [tok])
  {
    SurvivorsAre(c, es, d);
    WithFollowing(c, es, d, tok);
  }

  /** Every token of a draft has the required support: with those before it, it continues that many matches, and
      no token in its place continues more. */
  lemma Supported(c: seq<Entry>, support: nat, es: seq<Place>, cap: nat, d: seq<int>, i: nat, t: int)
    requires Inside(c, es) && Drafts(c, support, es, cap, d) && i < |d|
    ensures support <= |Following(c, es, d[..i + 1])| && |Following(c, es, d[..i] + [t])| <= |Following(c, es, d[..i + 1])|
  {
    assert Step(c, support, es, d, i);
    WithIs(c, es, d[..i], d[i]);
    WithIs(c, es, d[..i], t);
    assert d[..i + 1] == d[..i] + [d[i]];
    WinnerLeads(c, Survivors(c, es, d[..i]), i, d[i], t);
  }

  /** A draft that is shorter than it may be ends where no token has the support to go on. */
  lemma Exhausted(c: seq<Entry>, support: nat, es: seq<Place>, cap: nat, d: seq<int>, t: int)
    requires Inside(c, es) && Drafts(c, support, es, cap, d)
    ensures |d| <= cap && (|d| < cap ==> |Following(c, es, d + [t])| < support)
  {
    WithIs(c, es, d, t);
  }

  predicate IsShare(s: real, a: nat, b: nat) { s * b as real == a as real }

  /** The score times the number of the longest matches is the number of those that the whole draft continues;
      without a draft it is 0. */
  lemma ScoreIs(c: seq<Entry>, es: seq<Place>, d: seq<int>)
    requires Inside(c, es)
    ensures d == [] ==> Share(c, es, d) == 0.0
    ensures d != [] ==> IsShare(Share(c, es, d), |Following(c, es, d)|, |es|)
  {
    SurvivorsAre(c, es, d);
    if es == [] { NoShare(0.0); } else if d != [] { ShareTimes(|Survivors(c, es, d)|, |es|, Share(c, es, d)); }
  }

  lemma NoShare(s: real)
    requires s == 0.0
    ensures IsShare(s, 0, 0)
  {}

  lemma ShareTimes(a: nat, b: nat, s: real)
    requires b > 0 && s == a as real / b as real
    ensures IsShare(s, a, b)
  {}

  /** The same of a whole lookup, from the live corpus: es are the longest of the examined matches. */
  lemma LookupCounts(cfg: Config, c: seq<Entry>, next: nat, window: seq<int>, maxTokens: nat, d: seq<int>, score: real, best: nat, i: nat, t: int)
    requires ConfigOk(cfg) && |window| >= cfg.n && Ordered(c, next) && LookedUp(cfg, c, window, maxTokens, d, score, best) && i < |d|
    ensures var es := Ends(c, cfg.n, window, Examined(cfg, c, window), best);
      && cfg.support <= |Following(c, es, d[..i + 1])| && |Following(c, es, d[..i] + [t])| <= |Following(c, es, d[..i + 1])|
      && (|d| < Cap(cfg, maxTokens, best) ==> |Following(c, es, d + [t])| < cfg.support)
      && IsShare(score, |Following(c, es, d)|, |es|)
  {
    var es := Ends(c, cfg.n, window, Examined(cfg, c, window), best);
    forall x | x in es ensures x.pos <= |Toks(c, x.id)| { EndInside(cfg, c, next, window, best, x); }
    Supported(c, cfg.support, es, Cap(cfg, maxTokens, best), d, i, t);
    Exhausted(c, cfg.support, es, Cap(cfg, maxTokens, best), d, t);
    ScoreIs(c, es, d);
  }
}
