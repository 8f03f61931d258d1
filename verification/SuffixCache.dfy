/** The suffix cache of src/lib.rs: a bounded FIFO corpus with a capped inverted index of its n-grams. */
module SuffixCache {
  import opened SuffixCorpus
  import opened SuffixDraft
  import opened IntMath

  type Index = map<seq<int>, seq<Place>>

  function CorpusOf(fifo: seq<nat>, live: map<nat, seq<int>>): (c: seq<Entry>)
    ensures |c| == |fifo|
  {
    seq(|fifo|, i requires 0 <= i < |fifo| => Entry(fifo[i], if fifo[i] in live then live[fifo[i]] else []))
  }

  /** A bucket holds the newest `cap` occurrences of its key, and there is none for a key without. */
  predicate KeyOk(index: Index, cap: nat, key: seq<int>, places: seq<Place>) {
    if places == [] then key !in index else key in index && index[key] == Last(places, cap)
  }

  predicate KeyAdding(index: Index, n: nat, cap: nat, c: seq<Entry>, e: Entry, m: nat, key: seq<int>) {
    |key| == n ==> KeyOk(index, cap, key, Occurrences(c, key) + Within(e, key, m))
  }

  predicate KeyIndexed(index: Index, n: nat, cap: nat, c: seq<Entry>, key: seq<int>) {
    |key| == n ==> KeyOk(index, cap, key, Occurrences(c, key))
  }

  /** The index of the corpus c. */
  ghost predicate IndexOk(index: Index, n: nat, cap: nat, c: seq<Entry>) {
    (forall key :: key in index ==> |key| == n) && forall key :: KeyIndexed(index, n, cap, c, key)
  }

  /** The index while the first m windows of a new entry have been added to that of c. */
  ghost predicate Adding(index: Index, n: nat, cap: nat, c: seq<Entry>, e: Entry, m: nat) {
    (forall key :: key in index ==> |key| == n) && forall key :: KeyAdding(index, n, cap, c, e, m, key)
  }

  /** The bucket of key without the occurrences of one sequence. */
  predicate Cleaned(index: Index, was: Index, key: seq<int>, id: nat) {
    var b := if key in was then Keep(was[key], id) else [];
    if b == [] then key !in index else key in index && index[key] == b
  }

  predicate Same(index: Index, was: Index, key: seq<int>) {
    (key in index <==> key in was) && (key in was ==> index[key] == was[key])
  }

  predicate KeyEvicting(index: Index, was: Index, n: nat, e: Entry, m: nat, key: seq<int>) {
    |key| == n ==> if Within(e, key, m) != [] then Cleaned(index, was, key, e.id) else Same(index, was, key)
  }

  /** The index while the first m windows of the evicted entry have been cleaned. */
  ghost predicate Evicting(index: Index, was: Index, n: nat, e: Entry, m: nat) {
    (forall key :: key in index ==> |key| == n) && forall key :: KeyEvicting(index, was, n, e, m, key)
  }

  // ---- the index ----------------------------------------------------------

  /** A window of n tokens starts at |toks| - n at the latest. */
  lemma {:induction false} WithinStops(e: Entry, key: seq<int>, m: nat)
    requires 1 <= |key| <= |e.toks| && |e.toks| - |key| + 1 <= m
    ensures Within(e, key, m) == Within(e, key, |e.toks| - |key| + 1)
  {
    if m > |e.toks| - |key| + 1 { WithinStops(e, key, m - 1); }
  }

  lemma AddOccurrence(index: Index, cap: nat, places: seq<Place>, key: seq<int>, x: Place, bucket: seq<Place>)
    requires cap >= 1 && KeyOk(index, cap, key, places)
    requires var pushed := (if key in index then index[key] else []) + [x];
      bucket == if |pushed| > cap then pushed[1..] else pushed
    ensures KeyOk(index[key := bucket], cap, key, places + [x])
  {
    LastPush(places, x, cap);
  }

  lemma AddWindow(index: Index, n: nat, cap: nat, c: seq<Entry>, e: Entry, m: nat, bucket: seq<Place>)
    requires 1 <= n && cap >= 1 && m + n <= |e.toks| && Adding(index, n, cap, c, e, m)
    requires var key := e.toks[m..m + n];
      var pushed := (if key in index then index[key] else []) + [Place(e.id, m)];
      bucket == if |pushed| > cap then pushed[1..] else pushed
    ensures Adding(index[e.toks[m..m + n] := bucket], n, cap, c, e, m + 1)
  {
    var key := e.toks[m..m + n];
    var m', next := m + 1, index[key := bucket];
    forall k ensures KeyAdding(next, n, cap, c, e, m', k) {
      if |k| == n {
        var places := Occurrences(c, k) + Within(e, k, m);
        assert KeyAdding(index, n, cap, c, e, m, k);
        if k == key {
          AddOccurrence(index, cap, places, key, Place(e.id, m), bucket);
          assert Occurrences(c, k) + Within(e, k, m + 1) == places + [Place(e.id, m)];
        } else {
          assert Within(e, k, m + 1) == Within(e, k, m);
        }
      }
    }
  }

  lemma StartAdding(index: Index, n: nat, cap: nat, c: seq<Entry>, e: Entry)
    requires IndexOk(index, n, cap, c)
    ensures Adding(index, n, cap, c, e, 0)
  {
    forall key ensures KeyAdding(index, n, cap, c, e, 0, key) {
      assert KeyIndexed(index, n, cap, c, key) && Occurrences(c, key) + Within(e, key, 0) == Occurrences(c, key);
    }
  }

  lemma AddedIndex(index: Index, n: nat, cap: nat, c: seq<Entry>, e: Entry)
    requires 1 <= n <= |e.toks| && Adding(index, n, cap, c, e, |e.toks| - n + 1)
    ensures IndexOk(index, n, cap, c + [e])
  {
    assert (c + [e])[..|c|] == c;
    forall key ensures KeyIndexed(index, n, cap, c + [e], key) {
      if |key| == n {
        assert KeyAdding(index, n, cap, c, e, |e.toks| - n + 1, key);
        WithinStops(e, key, |e.toks|);
      }
    }
  }

  lemma {:induction false} KeepTwice(s: seq<Place>, id: nat)
    ensures Keep(Keep(s, id), id) == Keep(s, id)
  {
    KeptOnly(s, id);
    KeepAll(Keep(s, id), id);
  }

  lemma {:induction false} KeptOnly(s: seq<Place>, id: nat)
    ensures forall x :: x in Keep(s, id) ==> x.id != id
  {
    if s != [] { KeptOnly(s[..|s| - 1], id); }
  }

  lemma EvictWindow(index: Index, was: Index, n: nat, e: Entry, m: nat, next: Index)
    requires 1 <= n && m + n <= |e.toks| && Evicting(index, was, n, e, m)
    requires var key := e.toks[m..m + n];
      next == if key !in index then index
              else if Keep(index[key], e.id) == [] then index - {key} else index[key := Keep(index[key], e.id)]
    ensures Evicting(next, was, n, e, m + 1)
  {
    var key := e.toks[m..m + n];
    var m' := m + 1;
    forall k ensures KeyEvicting(next, was, n, e, m', k) {
      if |k| == n {
        assert KeyEvicting(index, was, n, e, m, k);
        if k == key {
          assert Within(e, k, m + 1) != [];
          if k in was { KeepTwice(was[k], e.id); }
        } else {
          assert Within(e, k, m + 1) == Within(e, k, m);
        }
      }
    }
  }

  /** No occurrence outside the first entry has its id. */
  lemma RestApart(c: seq<Entry>, next: nat, key: seq<int>)
    requires c != [] && Ordered(c, next) && key != []
    ensures forall x :: x in Occurrences(c[1..], key) ==> x.id != c[0].id
  {
    forall x | x in Occurrences(c[1..], key) ensures x.id != c[0].id {
      OccurrencesSound(c[1..], key, x);
      var i :| Occurs(c[1..], i, key, x);
      assert c[1..][i] == c[i + 1];
    }
  }

  /** The occurrences of a key are those in the first entry, then those in the rest. */
  lemma FirstAndRest(c: seq<Entry>, next: nat, key: seq<int>)
    requires c != [] && Ordered(c, next) && 1 <= |key| < |c[0].toks|
    ensures var gone := Within(c[0], key, |c[0].toks| - |key| + 1);
      Occurrences(c, key) == gone + Occurrences(c[1..], key) && forall x :: x in gone ==> x.id == c[0].id
  {
    OccurrencesFirst(c, key);
    WithinStops(c[0], key, |c[0].toks|);
    WithinSound(c[0], key, |c[0].toks| - |key| + 1);
  }

  lemma CleanedOk(index: Index, was: Index, cap: nat, key: seq<int>, gone: seq<Place>, rest: seq<Place>, id: nat)
    requires cap >= 1 && KeyOk(was, cap, key, gone + rest)
    requires (forall i :: 0 <= i < |gone| ==> gone[i].id == id) && forall i :: 0 <= i < |rest| ==> rest[i].id != id
    requires if gone != [] then Cleaned(index, was, key, id) else Same(index, was, key)
    ensures KeyOk(index, cap, key, rest)
  {
    KeepLast(gone, rest, id, cap);
    if gone == [] { assert gone + rest == rest; }
  }

  lemma EvictedKey(index: Index, was: Index, n: nat, cap: nat, c: seq<Entry>, next: nat, key: seq<int>)
    requires c != [] && Ordered(c, next) && 1 <= n < |c[0].toks| && |key| == n && cap >= 1
    requires KeyOk(was, cap, key, Occurrences(c, key))
    requires if Within(c[0], key, |c[0].toks| - n + 1) != [] then Cleaned(index, was, key, c[0].id) else Same(index, was, key)
    ensures KeyOk(index, cap, key, Occurrences(c[1..], key))
  {
    FirstAndRest(c, next, key);
    RestApart(c, next, key);
    CleanedOk(index, was, cap, key, Within(c[0], key, |c[0].toks| - n + 1), Occurrences(c[1..], key), c[0].id);
  }

  lemma EvictedIndex(index: Index, was: Index, n: nat, cap: nat, c: seq<Entry>, next: nat)
    requires c != [] && Ordered(c, next) && 1 <= n < |c[0].toks| && IndexOk(was, n, cap, c) && cap >= 1
    requires Evicting(index, was, n, c[0], |c[0].toks| - n + 1)
    ensures IndexOk(index, n, cap, c[1..])
  {
    var rest := c[1..];
    forall key ensures KeyIndexed(index, n, cap, rest, key) {
      assert KeyIndexed(was, n, cap, c, key) && KeyEvicting(index, was, n, c[0], |c[0].toks| - n + 1, key);
      if |key| == n { EvictedKey(index, was, n, cap, c, next, key); }
    }
  }

  // ---- drafting -----------------------------------------------------------

  ghost predicate Counted(counts: map<int, Rank>, c: seq<Entry>, es: seq<Place>, step: nat, t: int) {
    if With(c, es, step, t) == [] then t !in counts else t in counts && counts[t] == RankOf(c, es, step, t)
  }

  lemma CountedOne(was: map<int, Rank>, counts: map<int, Rank>, c: seq<Entry>, es: seq<Place>, y: Place, step: nat, t: int)
    requires Counted(was, c, es, step, t)
    requires var s := Toks(c, y.id);
      counts == if y.pos + step < |s| then
          var tok := s[y.pos + step];
          var item := if tok in was then was[tok] else Rank(0, y);
          was[tok := Rank(item.count + 1, if PlaceLess(item.at, y) then y else item.at)]
        else was
    ensures Counted(counts, c, es + [y], step, t)
  {
    var w := With(c, es, step, t);
    assert With(c, es + [y], step, t) == w + (if NextIs(c, y, step, t) then [y] else []) by {
      assert (es + [y])[..|es|] == es;
    }
    if NextIs(c, y, step, t) {
      if w == [] {
        assert counts[t] == Rank(1, y) && Newest([y]) == y;
      } else {
        assert (w + [y])[..|w|] == w && counts[t] == Rank(|w| + 1, Newest(w + [y]));
      }
    } else {
      assert w + [] == w;
    }
  }

  lemma Empty(s: set<int>)
    requires forall x :: x !in s
    ensures s == {}
  {
    assert forall x :: x in s <==> x in {};
  }

  lemma HasMember(s: set<int>)
    requires s != {}
    ensures exists x :: x in s
  {
    if forall x :: x !in s { Empty(s); }
  }

  /** Tokens have different newest places, so the largest rank is one token's. */
  lemma WinnerWins(counts: map<int, Rank>, c: seq<Entry>, es: seq<Place>, step: nat, tok: int)
    requires forall t :: Counted(counts, c, es, step, t)
    requires tok in counts && forall t :: t in counts && t != tok ==> RankLess(counts[t], counts[tok]) || counts[t] == counts[tok]
    ensures Wins(c, es, step, tok) && counts[tok].count == |With(c, es, step, tok)|
  {
    assert Counted(counts, c, es, step, tok);
    forall t | t != tok && With(c, es, step, t) != [] ensures RankLess(RankOf(c, es, step, t), RankOf(c, es, step, tok)) {
      assert Counted(counts, c, es, step, t);
      WithSound(c, es, step, t);
      WithSound(c, es, step, tok);
    }
  }

  lemma WholeShare(m: nat)
    requires m > 0
    ensures m as real / m as real == 1.0
  {}

  lemma Telescope(a: nat, b: nat, m: nat)
    requires b > 0 && m > 0
    ensures b as real / m as real * (a as real / b as real) == a as real / m as real
  {}

  lemma DraftOne(c: seq<Entry>, support: nat, es: seq<Place>, d: seq<int>, tok: int)
    requires forall i :: 0 <= i < |d| ==> Step(c, support, es, d, i)
    requires Wins(c, Survivors(c, es, d), |d|, tok) && |With(c, Survivors(c, es, d), |d|, tok)| >= support
    ensures Survivors(c, es, d + [tok]) == With(c, Survivors(c, es, d), |d|, tok)
    ensures forall i :: 0 <= i <= |d| ==> Step(c, support, es, d + [tok], i)
  {
    var f := d + [tok];
    assert f[..|d|] == d;
    forall i | 0 <= i <= |d| ensures Step(c, support, es, f, i) {
      if i < |d| { assert Step(c, support, es, d, i) && f[..i] == d[..i]; }
    }
  }

  lemma EndsExist(c: seq<Entry>, n: nat, window: seq<int>, xs: seq<Place>, best: nat)
    requires exists i :: 0 <= i < |xs| && Matched(c, n, window, xs[i]) == best
    ensures Ends(c, n, window, xs, best) != []
  {
    var i :| 0 <= i < |xs| && Matched(c, n, window, xs[i]) == best;
    assert EndOf(c, n, window, xs, best, i, Place(xs[i].id, xs[i].pos + n));
    EndsSound(c, n, window, xs, best, Place(xs[i].id, xs[i].pos + n));
  }

  // ---- the cache ----------------------------------------------------------

  /** Live sequences are those queued, oldest first; both budgets hold; the index is the corpus's. */
  ghost predicate Consistent(cfg: Config, fifo: seq<nat>, live: map<nat, seq<int>>, index: Index, next: nat, tokens: nat) {
    var c := CorpusOf(fifo, live);
    && ConfigOk(cfg) && Ordered(c, next)
    && (forall id :: id in live <==> id in fifo)
    && (forall i :: 0 <= i < |c| ==> cfg.n < |c[i].toks|)
    && tokens == Tokens(c) && |c| <= cfg.sequences && tokens <= cfg.tokens
    && IndexOk(index, cfg.n, cfg.positions, c)
  }

  /** A live sequence is in the corpus under its id. */
  lemma {:induction false} LiveToks(fifo: seq<nat>, live: map<nat, seq<int>>, id: nat)
    requires id in live && id in fifo
    ensures Toks(CorpusOf(fifo, live), id) == live[id]
  {
    var init := fifo[..|fifo| - 1];
    assert CorpusOf(fifo, live)[..|fifo| - 1] == CorpusOf(init, live);
    if fifo[|fifo| - 1] != id { LiveToks(init, live, id); }
  }

  /** The matches a lookup starts from are in live sequences. */
  lemma EndLive(cfg: Config, fifo: seq<nat>, live: map<nat, seq<int>>, index: Index, next: nat, tokens: nat, window: seq<int>, best: nat, y: Place)
    requires Consistent(cfg, fifo, live, index, next, tokens) && |window| >= cfg.n
    requires y in Ends(CorpusOf(fifo, live), cfg.n, window, Examined(cfg, CorpusOf(fifo, live), window), best)
    ensures y.id in live && y.id in fifo
  {
    EndInside(cfg, CorpusOf(fifo, live), next, window, best, y);
  }

  /** The k-th newest entry of the bucket is the k-th examined occurrence, in a live sequence. */
  predicate EntryOk(cfg: Config, fifo: seq<nat>, live: map<nat, seq<int>>, bucket: seq<Place>, xs: seq<Place>, key: seq<int>, k: nat)
    requires k < |bucket| && k < |xs|
  {
    xs[k] == bucket[|bucket| - 1 - k] && xs[k].id in live && xs[k].id in fifo && At(live[xs[k].id], xs[k].pos, key)
  }

  /** The bucket of the window's last n tokens is what a lookup is to examine. */
  predicate Examinable(cfg: Config, fifo: seq<nat>, live: map<nat, seq<int>>, index: Index, window: seq<int>) {
    && 1 <= cfg.n <= |window| && window[|window| - cfg.n..] in index
    && var key := window[|window| - cfg.n..];
    var bucket, xs := index[key], Examined(cfg, CorpusOf(fifo, live), window);
    && |xs| == Min(cfg.candidates, |bucket|)
    && forall k :: 0 <= k < |xs| ==> EntryOk(cfg, fifo, live, bucket, xs, key, k)
  }

  lemma BucketEntry(cfg: Config, fifo: seq<nat>, live: map<nat, seq<int>>, c: seq<Entry>, next: nat, bucket: seq<Place>, xs: seq<Place>, key: seq<int>, k: nat)
    requires c == CorpusOf(fifo, live) && Ordered(c, next) && key != [] && forall id :: id in live <==> id in fifo
    requires bucket == Last(Occurrences(c, key), cfg.positions)
    requires xs == NewestFirst(Occurrences(c, key), Min(cfg.candidates, cfg.positions)) && k < |xs|
    ensures k < |bucket| && EntryOk(cfg, fifo, live, bucket, xs, key, k)
  {
    var x := xs[k];
    assert x in Occurrences(c, key);
    OccurrencesSound(c, key, x);
    var i :| Occurs(c, i, key, x);
    assert c[i].id == fifo[i];
  }

  /** The bucket holds as many entries as a lookup examines, or all that there are. */
  lemma BucketLength(index: Index, cap: nat, key: seq<int>, places: seq<Place>, k: nat)
    requires KeyOk(index, cap, key, places) && cap >= 1 && k >= 1
    ensures if key in index then |NewestFirst(places, Min(k, cap))| == Min(k, |index[key]|) && index[key] != [] else places == []
  {}

  lemma BucketExamined(cfg: Config, fifo: seq<nat>, live: map<nat, seq<int>>, index: Index, next: nat, tokens: nat, window: seq<int>)
    requires Consistent(cfg, fifo, live, index, next, tokens) && |window| >= cfg.n
    ensures var key, xs := window[|window| - cfg.n..], Examined(cfg, CorpusOf(fifo, live), window);
      if key in index then Examinable(cfg, fifo, live, index, window) && xs != [] else xs == []
  {
    var c, key := CorpusOf(fifo, live), window[|window| - cfg.n..];
    var xs := Examined(cfg, c, window);
    assert KeyIndexed(index, cfg.n, cfg.positions, c, key);
    BucketLength(index, cfg.positions, key, Occurrences(c, key), cfg.candidates);
    if key in index {
      forall k | 0 <= k < |xs| ensures k < |index[key]| && EntryOk(cfg, fifo, live, index[key], xs, key, k) {
        BucketEntry(cfg, fifo, live, c, next, index[key], xs, key, k);
      }
    }
  }

  /** What a lookup drafts from: some matches, all in live sequences. */
  lemma MatchesLive(cfg: Config, fifo: seq<nat>, live: map<nat, seq<int>>, index: Index, next: nat, tokens: nat, window: seq<int>, best: nat, ends: seq<Place>)
    requires Consistent(cfg, fifo, live, index, next, tokens) && |window| >= cfg.n && Examined(cfg, CorpusOf(fifo, live), window) != []
    requires var c := CorpusOf(fifo, live);
      && best == Longest(c, cfg.n, window, Examined(cfg, c, window))
      && ends == Ends(c, cfg.n, window, Examined(cfg, c, window), best)
    ensures ends != [] && forall y :: y in ends ==> y.id in live && y.id in fifo
  {
    var c := CorpusOf(fifo, live);
    LongestBounds(c, cfg.n, window, Examined(cfg, c, window));
    EndsExist(c, cfg.n, window, Examined(cfg, c, window), best);
    forall y | y in ends ensures y.id in live && y.id in fifo {
      EndLive(cfg, fifo, live, index, next, tokens, window, best, y);
    }
  }

  lemma MatchedIs(n: nat, fifo: seq<nat>, live: map<nat, seq<int>>, window: seq<int>, x: Place)
    requires x.id in live && x.id in fifo && x.pos + n <= |live[x.id]|
    ensures Matched(CorpusOf(fifo, live), n, window, x) == CommonSuffix(live[x.id][..x.pos + n], window)
  {
    LiveToks(fifo, live, x.id);
  }

  /** best and ends are those of the first k candidates. */
  predicate BestOf(c: seq<Entry>, n: nat, window: seq<int>, xs: seq<Place>, k: nat, best: nat, ends: seq<Place>) {
    k <= |xs| && best == Longest(c, n, window, xs[..k]) && ends == Ends(c, n, window, xs[..k], best)
  }

  /** One more candidate: a longer match starts the list of ends afresh. */
  lemma ExamineOne(c: seq<Entry>, n: nat, window: seq<int>, xs: seq<Place>, k: nat, best: nat, ends: seq<Place>, most: nat, kept: seq<Place>)
    requires k < |xs| && BestOf(c, n, window, xs, k, best, ends)
    requires var m, end := Matched(c, n, window, xs[k]), Place(xs[k].id, xs[k].pos + n);
      && most == (if m > best then m else best)
      && kept == (if m > best then [end] else if m == best then ends + [end] else ends)
    ensures BestOf(c, n, window, xs, k + 1, most, kept)
  {
    assert xs[..k + 1][..k] == xs[..k] && xs[..k + 1][k] == xs[k];
    assert ends + [] == ends;
    var m := Matched(c, n, window, xs[k]);
    if m > best { EndsAbove(c, n, window, xs[..k], m); }
  }

  /** d is c without its oldest sequences, all of which have to go. */
  predicate Evicted(c: seq<Entry>, cfg: Config, len: nat, gone: nat, d: seq<Entry>) {
    gone <= |c| && d == c[gone..] && gone + Excess(d, cfg, len) == Excess(c, cfg, len)
  }

  lemma EvictOne(c: seq<Entry>, cfg: Config, len: nat, gone: nat, d: seq<Entry>)
    requires Evicted(c, cfg, len, gone, d) && !Fits(d, cfg, len) && cfg.sequences >= 1 && len <= cfg.tokens
    ensures d != [] && Evicted(c, cfg, len, gone + 1, d[1..])
  {}

  lemma FirstLive(cfg: Config, fifo: seq<nat>, live: map<nat, seq<int>>, index: Index, next: nat, tokens: nat)
    requires fifo != [] && Consistent(cfg, fifo, live, index, next, tokens)
    ensures fifo[0] in live && CorpusOf(fifo, live)[0] == Entry(fifo[0], live[fifo[0]])
    ensures 1 <= cfg.n < |live[fifo[0]]| && forall key :: key in index ==> |key| == cfg.n
  {
    assert CorpusOf(fifo, live)[0].id == fifo[0];
  }

  lemma EvictedConsistent(cfg: Config, fifo: seq<nat>, live: map<nat, seq<int>>, was: Index, index: Index, next: nat, tokens: nat)
    requires fifo != [] && Consistent(cfg, fifo, live, was, next, tokens) && fifo[0] in live && |live[fifo[0]]| >= cfg.n
    requires Evicting(index, was, cfg.n, Entry(fifo[0], live[fifo[0]]), |live[fifo[0]]| - cfg.n + 1)
    ensures CorpusOf(fifo[1..], live - {fifo[0]}) == CorpusOf(fifo, live)[1..]
    ensures |live[fifo[0]]| <= tokens && Consistent(cfg, fifo[1..], live - {fifo[0]}, index, next, tokens - |live[fifo[0]]|)
  {
    FirstLive(cfg, fifo, live, was, next, tokens);
    EvictedIndex(index, was, cfg.n, cfg.positions, CorpusOf(fifo, live), next);
    DropFirst(fifo, live, next);
    TokensFirst(CorpusOf(fifo, live));
  }

  lemma AppendedConsistent(cfg: Config, fifo: seq<nat>, live: map<nat, seq<int>>, was: Index, index: Index, id: nat, tokens: nat, t: seq<int>)
    requires Consistent(cfg, fifo, live, was, id, tokens) && |t| > cfg.n && Fits(CorpusOf(fifo, live), cfg, |t|)
    requires IndexOk(index, cfg.n, cfg.positions, CorpusOf(fifo, live) + [Entry(id, t)])
    ensures CorpusOf(fifo + [id], live[id := t]) == CorpusOf(fifo, live) + [Entry(id, t)]
    ensures Consistent(cfg, fifo + [id], live[id := t], index, id + 1, tokens + |t|)
  {
    var c := CorpusOf(fifo, live);
    AppendLast(fifo, live, id, t);
    assert (c + [Entry(id, t)])[..|c|] == c;
  }

  lemma DropFirst(fifo: seq<nat>, live: map<nat, seq<int>>, next: nat)
    requires fifo != [] && Ordered(CorpusOf(fifo, live), next) && forall id :: id in live <==> id in fifo
    ensures CorpusOf(fifo[1..], live - {fifo[0]}) == CorpusOf(fifo, live)[1..]
    ensures forall id :: id in live - {fifo[0]} <==> id in fifo[1..]
  {
    var c := CorpusOf(fifo, live);
    forall i | 1 <= i < |fifo| ensures fifo[i] != fifo[0] { assert c[i].id > c[0].id; }
    forall id | id in fifo ensures id == fifo[0] || id in fifo[1..] {
      var i :| 0 <= i < |fifo| && fifo[i] == id;
      if i > 0 { assert fifo[1..][i - 1] == id; }
    }
  }

  lemma AppendLast(fifo: seq<nat>, live: map<nat, seq<int>>, id: nat, t: seq<int>)
    requires Ordered(CorpusOf(fifo, live), id) && forall i :: i in live <==> i in fifo
    ensures CorpusOf(fifo + [id], live[id := t]) == CorpusOf(fifo, live) + [Entry(id, t)]
    ensures forall i :: i in live[id := t] <==> i in fifo + [id]
  {
    var c := CorpusOf(fifo, live);
    forall i | 0 <= i < |fifo| ensures fifo[i] != id { assert c[i].id < id; }
  }

  class Cache {
    const cfg: Config
    var sequences: map<nat, seq<int>>
    var fifo: seq<nat>
    var index: Index
    var next: nat
    var tokens: nat

    ghost function Corpus(): seq<Entry>
      reads this
    {
      CorpusOf(fifo, sequences)
    }

    ghost predicate Valid()
      reads this
    {
      Consistent(cfg, fifo, sequences, index, next, tokens)
    }

    constructor (cfg: Config)
      requires ConfigOk(cfg)
      ensures Valid() && Corpus() == [] && this.cfg == cfg
    {
      this.cfg := cfg;
      sequences, fifo, index, next, tokens := map[], [], map[], 0, 0;
    }

    /** Take the windows of a sequence out of the index. */
    method Unindex(id: nat, s: seq<int>)
      requires cfg.n >= 1 && |s| >= cfg.n && forall key :: key in index ==> |key| == cfg.n
      modifies `index
      ensures Evicting(index, old(index), cfg.n, Entry(id, s), |s| - cfg.n + 1)
    {
      for m := 0 to |s| - cfg.n + 1
        invariant Evicting(index, old(index), cfg.n, Entry(id, s), m)
      {
        var key := s[m..m + cfg.n];
        ghost var before := index;
        if key in index {
          var bucket := Keep(index[key], id);
          index := if bucket == [] then index - {key} else index[key := bucket];
        }
        EvictWindow(before, old(index), cfg.n, Entry(id, s), m, index);
      }
    }

    /** Put the windows of a sequence into the index. */
    method Reindex(id: nat, s: seq<int>, ghost c: seq<Entry>)
      requires ConfigOk(cfg) && |s| >= cfg.n && IndexOk(index, cfg.n, cfg.positions, c)
      modifies `index
      ensures IndexOk(index, cfg.n, cfg.positions, c + [Entry(id, s)])
    {
      ghost var e := Entry(id, s);
      StartAdding(index, cfg.n, cfg.positions, c, e);
      for pos := 0 to |s| - cfg.n + 1
        invariant Adding(index, cfg.n, cfg.positions, c, e, pos)
      {
        var key := s[pos..pos + cfg.n];
        var bucket := (if key in index then index[key] else []) + [Place(id, pos)];
        if |bucket| > cfg.positions { bucket := bucket[1..]; }
        AddWindow(index, cfg.n, cfg.positions, c, e, pos, bucket);
        index := index[key := bucket];
      }
      AddedIndex(index, cfg.n, cfg.positions, c, e);
    }

    /** Drop the oldest sequence and every trace of it in the index. */
    method Evict()
      requires Valid()
      modifies this
      ensures Valid() && next == old(next)
      ensures Corpus() == if old(Corpus()) == [] then [] else old(Corpus())[1..]
    {
      if |fifo| == 0 { return; }
      FirstLive(cfg, fifo, sequences, index, next, tokens);
      var id := fifo[0];
      var s := sequences[id];
      Unindex(id, s);
      EvictedConsistent(cfg, fifo, sequences, old(index), index, next, tokens);
      fifo, sequences, tokens := fifo[1..], sequences - {id}, tokens - |s|;
    }

    /** Evict until len more tokens fit. */
    method MakeRoom(len: nat)
      requires Valid() && cfg.sequences >= 1 && len <= cfg.tokens
      modifies this
      ensures Valid() && next == old(next)
      ensures Corpus() == old(Corpus())[Excess(old(Corpus()), cfg, len)..] && Fits(Corpus(), cfg, len)
    {
      ghost var c, gone: nat := Corpus(), 0;
      assert c[0..] == c;
      while |fifo| >= cfg.sequences || tokens + len > cfg.tokens
        invariant Valid() && next == old(next) && Evicted(c, cfg, len, gone, Corpus())
        decreases |fifo|
      {
        EvictOne(c, cfg, len, gone, Corpus());
        Evict();
        gone := gone + 1;
      }
    }

    /** The end of `add`, once the budgets have room. */
    method Append(t: seq<int>)
      requires Valid() && |t| > cfg.n && Fits(Corpus(), cfg, |t|)
      modifies this
      ensures Valid() && Corpus() == old(Corpus()) + [Entry(old(next), t)] && next == old(next) + 1
    {
      var id := next;
      Reindex(id, t, Corpus());
      AppendedConsistent(cfg, fifo, sequences, old(index), index, id, tokens, t);
      fifo, sequences, next, tokens := fifo + [id], sequences[id := t], next + 1, tokens + |t|;
    }

    /** Admit a sequence, evicting the oldest ones only as far as the budgets demand. */
    method Admit(t: seq<int>)
      requires Valid() && cfg.sequences >= 1 && cfg.n < |t| <= cfg.tokens
      modifies this
      ensures Valid() && next == old(next) + 1
      ensures Corpus() == old(Corpus())[Excess(old(Corpus()), cfg, |t|)..] + [Entry(old(next), t)]
    {
      MakeRoom(|t|);
      Append(t);
    }

    method Add(toks: seq<int>)
      requires Valid()
      modifies this
      ensures Valid() && Corpus() == Added(old(Corpus()), cfg, old(next), toks) && next == NextId(cfg, old(next), toks)
    {
      if cfg.sequences != 0 && cfg.tokens > cfg.n {
        var t := Last(toks, cfg.tokens);
        if |t| > cfg.n { Admit(t); }
      }
    }

    /** How many tokens before `end` agree with the end of the context; the first n are known to. */
    static method MatchLength(s: seq<int>, end: nat, window: seq<int>, n: nat) returns (matched: nat)
      requires n <= |window| && n <= end <= |s| && s[end - n..end] == window[|window| - n..]
      ensures matched == CommonSuffix(s[..end], window)
    {
      matched := n;
      var t := s[..end];
      assert t[|t| - n..] == s[end - n..end];
      CommonSuffixIs(t, window, n);
      while matched < |window| && matched < end && s[end - matched - 1] == window[|window| - matched - 1]
        invariant n <= matched <= |window| && matched <= end && matched <= CommonSuffix(t, window)
      {
        CommonSuffixIs(t, window, matched);
        CommonSuffixIs(t, window, matched + 1);
        Extended(t, window, matched);
        matched := matched + 1;
      }
      if matched < |window| && matched < end { Differ(t, window, matched); }
    }

    static lemma Differ(t: seq<int>, window: seq<int>, m: nat)
      requires m < |t| && m < |window| && t[|t| - m - 1] != window[|window| - m - 1]
      ensures CommonSuffix(t, window) <= m
    {
      assert t[|t| - (m + 1)..][0] != window[|window| - (m + 1)..][0];
      CommonSuffixIs(t, window, m + 1);
    }

    static lemma Extended(t: seq<int>, window: seq<int>, m: nat)
      requires m < |t| && m < |window| && t[|t| - m..] == window[|window| - m..] && t[|t| - m - 1] == window[|window| - m - 1]
      ensures t[|t| - (m + 1)..] == window[|window| - (m + 1)..]
    {
      assert t[|t| - (m + 1)..] == [t[|t| - m - 1]] + t[|t| - m..];
      assert window[|window| - (m + 1)..] == [window[|window| - m - 1]] + window[|window| - m..];
    }

    /** Keep the ends of the longest matches only. */
    static method Prefer(best: nat, ends: seq<Place>, matched: nat, end: Place) returns (most: nat, kept: seq<Place>)
      ensures most == if matched > best then matched else best
      ensures kept == if matched > best then [end] else if matched == best then ends + [end] else ends
    {
      most, kept := best, ends;
      if matched > most { most, kept := matched, []; }
      if matched == most { kept := kept + [end]; }
    }

    method ExamineAt(window: seq<int>, x: Place, ghost xs: seq<Place>, ghost k: nat, best: nat, ends: seq<Place>) returns (most: nat, kept: seq<Place>)
      requires 1 <= cfg.n <= |window| && k < |xs| && xs[k] == x && BestOf(Corpus(), cfg.n, window, xs, k, best, ends)
      requires x.id in sequences && x.id in fifo && At(sequences[x.id], x.pos, window[|window| - cfg.n..])
      ensures BestOf(Corpus(), cfg.n, window, xs, k + 1, most, kept)
    {
      var matched := MatchLength(sequences[x.id], x.pos + cfg.n, window, cfg.n);
      MatchedIs(cfg.n, fifo, sequences, window, x);
      most, kept := Prefer(best, ends, matched, Place(x.id, x.pos + cfg.n));
      ExamineOne(Corpus(), cfg.n, window, xs, k, best, ends, most, kept);
    }

    /** The longest match among the newest candidates, and where those that attain it continue. */
    method Examine(window: seq<int>) returns (best: nat, ends: seq<Place>)
      requires Examinable(cfg, fifo, sequences, index, window)
      ensures var xs := Examined(cfg, Corpus(), window);
        best == Longest(Corpus(), cfg.n, window, xs) && ends == Ends(Corpus(), cfg.n, window, xs, best)
    {
      ghost var xs := Examined(cfg, Corpus(), window);
      var key := window[|window| - cfg.n..];
      var bucket := index[key];
      best, ends := 0, [];
      var last := if cfg.candidates < |bucket| then cfg.candidates else |bucket|;
      for k := 0 to last
        invariant BestOf(Corpus(), cfg.n, window, xs, k, best, ends)
      {
        assert EntryOk(cfg, fifo, sequences, bucket, xs, key, k);
        best, ends := ExamineAt(window, bucket[|bucket| - 1 - k], xs, k, best, ends);
      }
      assert xs[..|xs|] == xs;
    }

    /** Every token that follows a match at this step, with its support and newest place. */
    method Count(ends: seq<Place>, step: nat) returns (counts: map<int, Rank>)
      requires forall y :: y in ends ==> y.id in sequences && y.id in fifo
      ensures forall t :: Counted(counts, Corpus(), ends, step, t)
    {
      counts := map[];
      for i := 0 to |ends|
        invariant forall t :: Counted(counts, Corpus(), ends[..i], step, t)
      {
        var y := ends[i];
        LiveToks(fifo, sequences, y.id);
        var s := sequences[y.id];
        ghost var before := counts;
        if y.pos + step < |s| {
          var tok := s[y.pos + step];
          var item := if tok in counts then counts[tok] else Rank(0, y);
          counts := counts[tok := Rank(item.count + 1, if PlaceLess(item.at, y) then y else item.at)];
        }
        assert ends[..i + 1] == ends[..i] + [y];
        ghost var seen := ends[..i + 1];
        forall t ensures Counted(counts, Corpus(), seen, step, t) {
          assert Counted(before, Corpus(), ends[..i], step, t);
          CountedOne(before, counts, Corpus(), ends[..i], y, step, t);
        }
      }
      assert ends[..|ends|] == ends;
    }

    /** max_by_key over the counts, the token itself breaking ties. */
    static method Winner(counts: map<int, Rank>) returns (tok: int)
      requires counts != map[]
      ensures tok in counts
      ensures forall t :: t in counts && t != tok ==> RankLess(counts[t], counts[tok]) || counts[t] == counts[tok]
    {
      var left := counts.Keys;
      HasMember(left);
      tok :| tok in left;
      left := left - {tok};
      while left != {}
        invariant left <= counts.Keys && tok in counts
        invariant forall t :: t in counts && t !in left && t != tok ==> RankLess(counts[t], counts[tok]) || counts[t] == counts[tok]
      {
        HasMember(left);
        var t :| t in left;
        left := left - {t};
        if RankLess(counts[tok], counts[t]) || (counts[tok] == counts[t] && tok < t) { tok := t; }
      }
    }

    /** The matches that tok continues. */
    method Retain(ends: seq<Place>, step: nat, tok: int) returns (kept: seq<Place>)
      requires forall y :: y in ends ==> y.id in sequences && y.id in fifo
      ensures kept == With(Corpus(), ends, step, tok)
    {
      kept := [];
      for i := 0 to |ends|
        invariant kept == With(Corpus(), ends[..i], step, tok)
      {
        var y := ends[i];
        LiveToks(fifo, sequences, y.id);
        assert ends[..i + 1][..i] == ends[..i];
        if y.pos + step < |sequences[y.id]| && sequences[y.id][y.pos + step] == tok { kept := kept + [y]; }
      }
      assert ends[..|ends|] == ends;
    }

    /** The token most matches agree on, if any goes on. */
    method Choose(ends: seq<Place>, step: nat) returns (found: bool, tok: int, support: nat)
      requires forall y :: y in ends ==> y.id in sequences && y.id in fifo
      ensures found ==> Wins(Corpus(), ends, step, tok) && support == |With(Corpus(), ends, step, tok)|
      ensures !found ==> forall t :: With(Corpus(), ends, step, t) == []
    {
      var counts := Count(ends, step);
      if counts == map[] {
        forall t ensures With(Corpus(), ends, step, t) == [] { assert Counted(counts, Corpus(), ends, step, t); }
        return false, 0, 0;
      }
      tok := Winner(counts);
      WinnerWins(counts, Corpus(), ends, step, tok);
      return true, tok, counts[tok].count;
    }

    /** One round of drafting: the winner with enough support, and the matches it continues. */
    method DraftStep(ends: seq<Place>, step: nat) returns (found: bool, tok: int, kept: seq<Place>)
      requires cfg.support >= 1 && forall y :: y in ends ==> y.id in sequences && y.id in fifo
      ensures found ==> Wins(Corpus(), ends, step, tok) && kept == With(Corpus(), ends, step, tok) && |kept| >= cfg.support
      ensures found ==> forall y :: y in kept ==> y.id in sequences && y.id in fifo
      ensures !found ==> forall t :: |With(Corpus(), ends, step, t)| < cfg.support
    {
      var support;
      found, tok, support := Choose(ends, step);
      kept := [];
      if !found { return; }
      if support < cfg.support {
        forall t ensures |With(Corpus(), ends, step, t)| < cfg.support { WinnerLeads(Corpus(), ends, step, tok, t); }
        return false, tok, [];
      }
      kept := Retain(ends, step, tok);
      WithSound(Corpus(), ends, step, tok);
    }

    /** Draft up to cap tokens from the matches. */
    method Draft(matches: seq<Place>, cap: nat) returns (d: seq<int>, score: real)
      requires cfg.support >= 1 && matches != [] && forall y :: y in matches ==> y.id in sequences && y.id in fifo
      ensures Drafts(Corpus(), cfg.support, matches, cap, d) && score == Share(Corpus(), matches, d)
    {
      var ends := matches;
      d, score := [], 1.0;
      WholeShare(|matches|);
      for step := 0 to cap
        invariant step == |d| && ends == Survivors(Corpus(), matches, d) && ends != []
        invariant forall y :: y in ends ==> y.id in sequences && y.id in fifo
        invariant forall i :: 0 <= i < |d| ==> Step(Corpus(), cfg.support, matches, d, i)
        invariant score == |ends| as real / |matches| as real
      {
        var found, tok, kept := DraftStep(ends, step);
        if !found { break; }
        Telescope(|kept|, |ends|, |matches|);
        score := score * (|kept| as real / |ends| as real);
        DraftOne(Corpus(), cfg.support, matches, d, tok);
        d, ends := d + [tok], kept;
      }
      if d == [] { score := 0.0; }
    }

    /** Draft from the matches of a window whose last n tokens are indexed. */
    method LookUp(window: seq<int>, maxTokens: nat) returns (d: seq<int>, score: real, best: nat)
      requires Valid() && |window| >= cfg.n && Examinable(cfg, fifo, sequences, index, window)
      requires Examined(cfg, Corpus(), window) != []
      ensures LookedUp(cfg, Corpus(), window, maxTokens, d, score, best)
    {
      var ends;
      best, ends := Examine(window);
      MatchesLive(cfg, fifo, sequences, index, next, tokens, window, best, ends);
      d, score := Draft(ends, Cap(cfg, maxTokens, best));
    }

    /** A draft for the context, its score and the length of its match: what a brute-force scan of the
        live sequences would give. */
    method Speculate(context: seq<int>, maxTokens: nat) returns (d: seq<int>, score: real, best: nat)
      requires Valid()
      ensures Speculated(cfg, Corpus(), context, maxTokens, d, score, best)
    {
      var window := Last(context, cfg.depth);
      d, score, best := [], 0.0, 0;
      if maxTokens > 0 && |window| >= cfg.n {
        BucketExamined(cfg, fifo, sequences, index, next, tokens, window);
        if window[|window| - cfg.n..] in index {
          d, score, best := LookUp(window, maxTokens);
        }
      }
    }
  }
}
