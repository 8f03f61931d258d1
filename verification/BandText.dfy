/** The textual form of bands in suffix_hybrid/nccl_split.py: parse_size, fmt_size, parse_bands, bands_str. */
module BandText {
  import opened Autotune
  import opened Bands
  import opened IntMath
  import opened Wrappers

  datatype Result<T> = Ok(value: T) | Err

  /** Python's float() on a string; None where it raises. */
  type Floats = string -> Option<real>

  const EXACT := 9007199254740992 // 2^53

  // ---- strings ------------------------------------------------------------

  predicate Space(c: char) { c == ' ' || '\t' <= c <= '\r' }

  function LStrip(s: string): string { if s != "" && Space(s[0]) then LStrip(s[1..]) else s }

  function RStrip(s: string): string { if s != "" && Space(s[|s| - 1]) then RStrip(s[..|s| - 1]) else s }

  function Strip(s: string): string { RStrip(LStrip(s)) }

  function UpperChar(c: char): char { if 'a' <= c <= 'z' then c - 'a' + 'A' else c }

  function Upper(s: string): (u: string)
    ensures |u| == |s| && forall i :: 0 <= i < |s| ==> u[i] == UpperChar(s[i])
  {
    seq(|s|, i requires 0 <= i < |s| => UpperChar(s[i]))
  }

  function RemoveSuffix(s: string, c: char): string { if s != "" && s[|s| - 1] == c then s[..|s| - 1] else s }

  /** Position of the first c, |s| if there is none. */
  function Find(s: string, c: char): (k: nat)
    ensures k <= |s| && (k < |s| ==> s[k] == c) && forall i :: 0 <= i < k ==> s[i] != c
  {
    if s == "" || s[0] == c then 0 else 1 + Find(s[1..], c)
  }

  /** str.partition: what precedes the first c, whether there is one, and what follows it. */
  function Partition(s: string, c: char): (string, bool, string) {
    var k := Find(s, c);
    if k < |s| then (s[..k], true, s[k + 1..]) else (s, false, "")
  }

  function Split(s: string, c: char): seq<string>
    decreases |s|
  {
    var k := Find(s, c);
    if k < |s| then [s[..k]] + Split(s[k + 1..], c) else [s]
  }

  function Join(items: seq<string>, c: char): string {
    if items == [] then "" else if |items| == 1 then items[0] else items[0] + [c] + Join(items[1..], c)
  }

  lemma FindIn(a: string, c: char, b: string)
    requires c !in a
    ensures Find(a + [c] + b, c) == |a|
  {
    var s := a + [c] + b;
    assert s[|a|] == c && forall i :: 0 <= i < |a| ==> s[i] == a[i];
    FindFirst(s, c, |a|);
  }

  lemma {:induction false} FindFirst(s: string, c: char, k: nat)
    requires k < |s| && s[k] == c && forall i :: 0 <= i < k ==> s[i] != c
    ensures Find(s, c) == k
  {
    if k > 0 { FindFirst(s[1..], c, k - 1); }
  }

  lemma PartitionIn(a: string, c: char, b: string)
    requires c !in a
    ensures Partition(a + [c] + b, c) == (a, true, b)
  {
    FindIn(a, c, b);
    var s := a + [c] + b;
    assert s[..|a|] == a && s[|a| + 1..] == b;
  }

  lemma {:induction false} SplitJoin(items: seq<string>, c: char)
    requires items != [] && forall i :: 0 <= i < |items| ==> c !in items[i]
    ensures Split(Join(items, c), c) == items
  {
    var s := Join(items, c);
    if |items| == 1 {
      assert Find(s, c) == |s|;
    } else {
      FindIn(items[0], c, Join(items[1..], c));
      assert s[..|items[0]|] == items[0] && s[|items[0]| + 1..] == Join(items[1..], c);
      SplitJoin(items[1..], c);
    }
  }

  predicate Trimmed(s: string) { s != "" && !Space(s[0]) && !Space(s[|s| - 1]) }

  lemma TrimmedStrips(s: string)
    requires Trimmed(s)
    ensures Strip(s) == s
  {}

  // ---- sizes --------------------------------------------------------------

  const K: int := 1024
  const M: int := 1048576
  const G: int := 1073741824

  function Unit(c: char): int { if c == 'K' then K else if c == 'M' then M else if c == 'G' then G else 1 }

  /** int() of a float. */
  function Truncate(x: real): int { if x >= 0.0 then x.Floor else -((-x).Floor) }

  /** What parse_size makes of the text before it looks at the unit. */
  function Normal(text: string): string { RemoveSuffix(RemoveSuffix(Upper(Strip(text)), 'B'), 'I') }

  function ParseNormal(f: Floats, s: string): Result<int> {
    if s == "INF" then Ok(INF)
    else
      var unit := if s == "" then 1 else Unit(s[|s| - 1]);
      Scale(f(if unit == 1 then s else s[..|s| - 1]), unit)
  }

  function Scale(x: Option<real>, unit: int): Result<int> {
    match x
    case Some(v) => Ok(Scaled(v, unit))
    case None => Err
  }

  function Scaled(v: real, unit: int): int { Truncate(v * unit as real) }

  function ParseSize(f: Floats, text: string): Result<int> { ParseNormal(f, Normal(text)) }

  function Digit(n: nat): char
    requires n < 10
  {
    '0' + n as char
  }

  function Digits(n: nat): string { if n < 10 then [Digit(n)] else Digits(n / 10) + [Digit(n % 10)] }

  function FmtSize(n: nat): string {
    if n >= INF then "inf"
    else if n > 0 && n % G == 0 then Digits(n / G) + "G"
    else if n > 0 && n % M == 0 then Digits(n / M) + "M"
    else if n > 0 && n % K == 0 then Digits(n / K) + "K"
    else Digits(n)
  }

  /** float() reads decimal digits exactly, up to 2^53. */
  ghost predicate ReadsDecimals(f: Floats) { forall n: nat :: n < EXACT ==> f(Digits(n)) == Some(n as real) }

  predicate Numeral(c: char) { '0' <= c <= '9' }

  lemma {:induction false} DigitsAre(n: nat)
    ensures Digits(n) != "" && forall i :: 0 <= i < |Digits(n)| ==> Numeral(Digits(n)[i])
  {
    if n >= 10 { DigitsAre(n / 10); }
  }

  /** The text of a size below INF: digits, then at most a unit. */
  lemma FmtForm(n: nat)
    requires n < INF
    ensures exists m: nat, u: string :: FmtSize(n) == Digits(m) + u && m <= n && UnitText(u) && m * UnitOf(u) == n
  {
    if n > 0 && n % G == 0 {
      assert FmtSize(n) == Digits(n / G) + "G" && UnitText("G") && n / G * UnitOf("G") == n;
    } else if n > 0 && n % M == 0 {
      assert FmtSize(n) == Digits(n / M) + "M" && UnitText("M") && n / M * UnitOf("M") == n;
    } else if n > 0 && n % K == 0 {
      assert FmtSize(n) == Digits(n / K) + "K" && UnitText("K") && n / K * UnitOf("K") == n;
    } else {
      assert FmtSize(n) == Digits(n) + "" && UnitText("") && n * UnitOf("") == n;
    }
  }

  predicate UnitText(u: string) { u == "" || u == "K" || u == "M" || u == "G" }

  function UnitOf(u: string): int { if u == "" then 1 else Unit(u[0]) }

  predicate Plain(c: char) { Numeral(c) || c == 'K' || c == 'M' || c == 'G' }

  lemma PlainText(m: nat, u: string)
    requires UnitText(u)
    ensures var s := Digits(m) + u; s != "" && forall i :: 0 <= i < |s| ==> Plain(s[i])
  {
    DigitsAre(m);
  }

  lemma {:induction false} UpperPlain(s: string)
    requires forall i :: 0 <= i < |s| ==> Plain(s[i])
    ensures Upper(s) == s
  {}

  lemma NormalPlain(m: nat, u: string)
    requires UnitText(u)
    ensures var s := Digits(m) + u; s != "" && Normal(s) == s && s[0] != 'I'
  {
    var s := Digits(m) + u;
    PlainText(m, u);
    assert Plain(s[0]) && Plain(s[|s| - 1]);
    TrimmedStrips(s);
    UpperPlain(s);
  }

  lemma UnitSplit(m: nat, u: string)
    requires UnitText(u)
    ensures var s := Digits(m) + u;
      s != "" && Unit(s[|s| - 1]) == UnitOf(u) && (if UnitOf(u) == 1 then s else s[..|s| - 1]) == Digits(m)
  {
    DigitsAre(m);
    var s := Digits(m) + u;
    if u == "" {
      assert s == Digits(m) && Numeral(s[|s| - 1]);
    } else {
      assert s[|s| - 1] == u[0] && s[..|s| - 1] == Digits(m);
    }
  }

  lemma ParsePlain(f: Floats, m: nat, u: string)
    requires ReadsDecimals(f) && m < EXACT && UnitText(u)
    ensures ParseSize(f, Digits(m) + u) == Ok(m * UnitOf(u))
  {
    NormalPlain(m, u);
    UnitSplit(m, u);
    Exact(m, UnitOf(u));
    assert f(Digits(m)) == Some(m as real);
  }

  lemma Exact(m: nat, u: int)
    requires u >= 1
    ensures Scaled(m as real, u) == m * u
  {
    assert m as real * u as real == (m * u) as real;
    assert m * u >= 0;
  }

  predicate SizeOk(n: int) { 0 <= n < EXACT || n == INF }

  /** Printing and parsing a size gives it back. */
  lemma SizeRoundTrip(f: Floats, n: nat)
    requires ReadsDecimals(f) && SizeOk(n)
    ensures ParseSize(f, FmtSize(n)) == Ok(n)
  {
    if n == INF {
      TrimmedStrips("inf");
      assert Upper("inf") == "INF";
    } else {
      FmtForm(n);
      var m: nat, u: string :| FmtSize(n) == Digits(m) + u && m <= n && UnitText(u) && m * UnitOf(u) == n;
      ParsePlain(f, m, u);
    }
  }

  lemma SizeText(n: nat)
    ensures FmtSize(n) != "" && ':' !in FmtSize(n) && '-' !in FmtSize(n) && ',' !in FmtSize(n) && !Space(FmtSize(n)[0])
  {
    if n < INF {
      FmtForm(n);
      var m: nat, u: string :| FmtSize(n) == Digits(m) + u && m <= n && UnitText(u) && m * UnitOf(u) == n;
      PlainText(m, u);
    }
  }

  // ---- bands --------------------------------------------------------------

  predicate HostSpec(spec: Spec) { spec == "har" || spec == "har1" || spec == "har2" }

  /** spec_env accepts the spec: the stock or a host communicator, or a non-empty algorithm. */
  predicate SpecOk(spec: Spec) {
    spec == DEFAULT || HostSpec(spec) || Strip(Partition(spec, '/').0) != ""
  }

  function BandStr(b: Band): string
    requires b.lo >= 0 && b.hi >= 0
  {
    FmtSize(b.lo) + "-" + FmtSize(b.hi) + ":" + b.spec
  }

  predicate Printable(bands: seq<Band>) { forall i :: 0 <= i < |bands| ==> bands[i].lo >= 0 && bands[i].hi >= 0 }

  function Strs(bands: seq<Band>): seq<string>
    requires Printable(bands)
  {
    seq(|bands|, i requires 0 <= i < |bands| => BandStr(bands[i]))
  }

  function BandsStr(bands: seq<Band>): string
    requires Printable(bands)
  {
    Join(Strs(bands), ',')
  }

  function ParseBand(f: Floats, item: string): Result<Band> {
    var (rng, colon, rest) := Partition(item, ':');
    var (lo, dash, hi) := Partition(rng, '-');
    var spec := Strip(rest);
    if !dash || spec == "" then Err
    else
      var a, b := ParseSize(f, lo), ParseSize(f, hi);
      if a.Err? || b.Err? || a.value >= b.value || !SpecOk(spec) then Err else Ok(Band(a.value, b.value, spec))
  }

  /** The non-empty items of a list, stripped. */
  function Items(pieces: seq<string>): seq<string> {
    if pieces == [] then []
    else Items(pieces[..|pieces| - 1]) + (if Strip(pieces[|pieces| - 1]) == "" then [] else [Strip(pieces[|pieces| - 1])])
  }

  function ParseAll(f: Floats, items: seq<string>): Result<seq<Band>> {
    if items == [] then Ok([])
    else
      var init, last := ParseAll(f, items[..|items| - 1]), ParseBand(f, items[|items| - 1]);
      if init.Err? || last.Err? then Err else Ok(init.value + [last.value])
  }

  predicate BandLess(a: Band, b: Band) {
    a.lo < b.lo || (a.lo == b.lo && (a.hi < b.hi || (a.hi == b.hi && Before(a.spec, b.spec))))
  }

  /** list.sort, as an insertion sort. */
  function Insert(b: Band, sorted: seq<Band>): seq<Band> {
    if sorted == [] then [b]
    else if BandLess(b, sorted[|sorted| - 1]) then Insert(b, sorted[..|sorted| - 1]) + [sorted[|sorted| - 1]]
    else sorted + [b]
  }

  function Sorted(bands: seq<Band>): seq<Band> {
    if bands == [] then [] else Insert(bands[|bands| - 1], Sorted(bands[..|bands| - 1]))
  }

  predicate Disjoint(bands: seq<Band>) { forall i :: 0 <= i < |bands| - 1 ==> bands[i].hi <= bands[i + 1].lo }

  function ParseBands(f: Floats, text: string): Result<seq<Band>> {
    var r := ParseAll(f, Items(Split(text, ',')));
    if r.Err? then Err
    else if !Disjoint(Sorted(r.value)) then Err else Ok(Sorted(r.value))
  }

  method ParseItems(f: Floats, pieces: seq<string>) returns (r: Result<seq<Band>>)
    ensures r == ParseAll(f, Items(pieces))
  {
    r := Ok([]);
    for i := 0 to |pieces|
      invariant r == ParseAll(f, Items(pieces[..i]))
    {
      var item := Strip(pieces[i]);
      assert pieces[..i + 1][..i] == pieces[..i];
      if item != "" {
        var b := ParseBand(f, item);
        MoreItems(f, Items(pieces[..i]), item);
        r := if r.Ok? && b.Ok? then Ok(r.value + [b.value]) else Err;
      } else {
        assert Items(pieces[..i]) + [] == Items(pieces[..i]);
      }
    }
    assert pieces[..|pieces|] == pieces;
  }

  lemma MoreItems(f: Floats, items: seq<string>, item: string)
    ensures var r, b := ParseAll(f, items), ParseBand(f, item);
      ParseAll(f, items + [item]) == if r.Ok? && b.Ok? then Ok(r.value + [b.value]) else Err
  {
    assert (items + [item])[..|items|] == items;
  }

  method AnyOverlap(bands: seq<Band>) returns (overlap: bool)
    ensures overlap <==> !Disjoint(bands)
  {
    overlap := false;
    for i := 0 to |bands| - (if bands == [] then 0 else 1)
      invariant !overlap && forall k :: 0 <= k < i ==> bands[k].hi <= bands[k + 1].lo
    {
      if bands[i].hi > bands[i + 1].lo { return true; }
    }
  }

  /** The loop over the items, then the sort and the check of neighbours. */
  method Parse(f: Floats, text: string) returns (r: Result<seq<Band>>)
    ensures r == ParseBands(f, text)
  {
    r := ParseItems(f, Split(text, ','));
    if r.Ok? {
      r := Ok(Sorted(r.value));
      var overlap := AnyOverlap(r.value);
      if overlap { r := Err; }
    }
  }

  lemma {:induction false} InsertMembers(b: Band, s: seq<Band>)
    ensures multiset(Insert(b, s)) == multiset(s) + multiset{b}
  {
    if s != [] {
      InsertMembers(b, s[..|s| - 1]);
      assert s == s[..|s| - 1] + [s[|s| - 1]];
    }
  }

  lemma {:induction false} SortedMembers(bands: seq<Band>)
    ensures multiset(Sorted(bands)) == multiset(bands)
  {
    if bands != [] {
      SortedMembers(bands[..|bands| - 1]);
      InsertMembers(bands[|bands| - 1], Sorted(bands[..|bands| - 1]));
      assert bands == bands[..|bands| - 1] + [bands[|bands| - 1]];
    }
  }

  predicate Accepted(b: Band) { b.lo < b.hi && b.spec != "" && SpecOk(b.spec) }

  lemma {:induction false} ParsedEach(f: Floats, items: seq<string>)
    requires ParseAll(f, items).Ok?
    ensures forall i :: 0 <= i < |ParseAll(f, items).value| ==> Accepted(ParseAll(f, items).value[i])
  {
    if items != [] { ParsedEach(f, items[..|items| - 1]); }
  }

  lemma {:induction false} Ascending(bands: seq<Band>, i: nat, k: nat)
    requires Disjoint(bands) && (forall x :: 0 <= x < |bands| ==> bands[x].lo < bands[x].hi) && i < k < |bands|
    ensures bands[i].hi <= bands[k].lo
    decreases k
  {
    if i < k - 1 {
      Ascending(bands, i, k - 1);
      assert bands[k - 1].hi <= bands[k - 1 + 1].lo;
    }
  }

  /** Whatever text is accepted, its bands are non-empty, have usable specs and do not overlap: every
      message is in at most one of them. */
  lemma ParsedBands(f: Floats, text: string, i: nat, k: nat, n: int)
    requires ParseBands(f, text).Ok? && i < |ParseBands(f, text).value| && k < |ParseBands(f, text).value|
    ensures Accepted(ParseBands(f, text).value[i])
    ensures var b := ParseBands(f, text).value; b[i].lo <= n < b[i].hi && b[k].lo <= n < b[k].hi ==> i == k
  {
    var r, b := ParseAll(f, Items(Split(text, ','))), ParseBands(f, text).value;
    ParsedEach(f, Items(Split(text, ',')));
    SortedMembers(r.value);
    forall x | 0 <= x < |b| ensures Accepted(b[x]) {
      assert b[x] in multiset(b);
      assert b[x] in r.value;
    }
    if i < k { Ascending(b, i, k); }
    if k < i { Ascending(b, k, i); }
  }

  // ---- the round trip -----------------------------------------------------

  /** Printable sizes, in order, and a trimmed spec without commas that a communicator can be built for. */
  predicate BandOk(b: Band) {
    SizeOk(b.lo) && SizeOk(b.hi) && b.lo < b.hi && Trimmed(b.spec) && ',' !in b.spec && SpecOk(b.spec)
  }

  predicate BandsOk(bands: seq<Band>) {
    AllOk(bands) && Disjoint(bands)
  }

  lemma BandText1(b: Band)
    requires BandOk(b)
    ensures Trimmed(BandStr(b)) && ',' !in BandStr(b)
  {
    SizeText(b.lo);
    SizeText(b.hi);
    var s := BandStr(b);
    assert s[0] == FmtSize(b.lo)[0] && s[|s| - 1] == b.spec[|b.spec| - 1];
  }

  lemma BandRoundTrip(f: Floats, b: Band)
    requires ReadsDecimals(f) && BandOk(b)
    ensures ParseBand(f, BandStr(b)) == Ok(b)
  {
    SizeText(b.lo);
    SizeText(b.hi);
    var rng := FmtSize(b.lo) + "-" + FmtSize(b.hi);
    assert ':' !in rng;
    assert BandStr(b) == rng + [':'] + b.spec;
    PartitionIn(rng, ':', b.spec);
    assert rng == FmtSize(b.lo) + ['-'] + FmtSize(b.hi);
    PartitionIn(FmtSize(b.lo), '-', FmtSize(b.hi));
    TrimmedStrips(b.spec);
    SizeRoundTrip(f, b.lo);
    SizeRoundTrip(f, b.hi);
  }

  lemma {:induction false} ItemsTrimmed(items: seq<string>)
    requires forall i :: 0 <= i < |items| ==> Trimmed(items[i])
    ensures Items(items) == items
  {
    if items != [] {
      ItemsTrimmed(items[..|items| - 1]);
      TrimmedStrips(items[|items| - 1]);
      assert items == items[..|items| - 1] + [items[|items| - 1]];
    }
  }

  lemma StrsSplit(bands: seq<Band>)
    requires Printable(bands) && bands != []
    ensures var init := bands[..|bands| - 1];
      Printable(init) && bands == init + [bands[|bands| - 1]] && Strs(bands) == Strs(init) + [BandStr(bands[|bands| - 1])]
  {}

  predicate AllOk(bands: seq<Band>) { forall i :: 0 <= i < |bands| ==> BandOk(bands[i]) }

  lemma {:induction false} AllRoundTrip(f: Floats, bands: seq<Band>)
    requires ReadsDecimals(f) && Printable(bands) && AllOk(bands)
    ensures ParseAll(f, Strs(bands)) == Ok(bands)
  {
    if bands != [] {
      var init, last := bands[..|bands| - 1], bands[|bands| - 1];
      StrsSplit(bands);
      AllRoundTrip(f, init);
      assert BandOk(last);
      BandRoundTrip(f, last);
      MoreItems(f, Strs(init), BandStr(last));
    }
  }

  lemma {:induction false} SortedAlready(bands: seq<Band>)
    requires Disjoint(bands) && forall i :: 0 <= i < |bands| ==> bands[i].lo < bands[i].hi
    ensures Sorted(bands) == bands
  {
    if bands != [] {
      var init := bands[..|bands| - 1];
      SortedAlready(init);
      if init != [] { assert init[|init| - 1].hi <= bands[|bands| - 1].lo by { assert bands[|bands| - 2].hi <= bands[|bands| - 2 + 1].lo; } }
      assert bands == init + [bands[|bands| - 1]];
    }
  }

  /** parse_bands(bands_str(b)) == b. */
  lemma BandsRoundTrip(f: Floats, bands: seq<Band>)
    requires ReadsDecimals(f) && BandsOk(bands)
    ensures Printable(bands)
    ensures ParseBands(f, BandsStr(bands)) == Ok(bands)
  {
    if bands == [] {
      assert Find("", ',') == 0 && Split("", ',') == [""];
      assert Items([""]) == [];
    } else {
      forall i | 0 <= i < |bands| ensures Trimmed(Strs(bands)[i]) && ',' !in Strs(bands)[i] { BandText1(bands[i]); }
      SplitJoin(Strs(bands), ',');
      ItemsTrimmed(Strs(bands));
      AllRoundTrip(f, bands);
      SortedAlready(bands);
    }
  }

  // ---- what the text means ------------------------------------------------

  /** The number that a text of decimal digits stands for. */
  function NumberOf(s: string): nat
    requires forall i :: 0 <= i < |s| ==> Numeral(s[i])
  {
    if s == "" then 0
    else
      assert Numeral(s[|s| - 1]);
      10 * NumberOf(s[..|s| - 1]) + (s[|s| - 1] as int - '0' as int)
  }

  /** Sizes are printed in decimal, without a leading zero. */
  lemma {:induction false} DigitsStandFor(n: nat)
    ensures forall i :: 0 <= i < |Digits(n)| ==> Numeral(Digits(n)[i])
    ensures NumberOf(Digits(n)) == n && (Digits(n)[0] == '0' ==> n == 0)
  {
    DigitsAre(n);
    if n < 10 {
      assert Digits(n)[..0] == "";
    } else {
      DigitsStandFor(n / 10);
      assert Digits(n)[..|Digits(n)| - 1] == Digits(n / 10);
    }
  }

  /** Either case, and the endings of bytes: all these stand for m units. */
  predicate Written(t: string, m: nat, u: string) {
    Trimmed(t) && (Upper(t) == Digits(m) + u || Upper(t) == Digits(m) + u + "B" || (u != "" && Upper(t) == Digits(m) + u + "IB"))
  }

  lemma NormalWritten(t: string, m: nat, u: string)
    requires UnitText(u) && Written(t, m, u)
    ensures Normal(t) == Digits(m) + u
  {
    var s := Digits(m) + u;
    PlainText(m, u);
    assert Plain(s[|s| - 1]);
    TrimmedStrips(t);
    Endings(s);
  }

  lemma Endings(s: string)
    requires s != "" && Plain(s[|s| - 1])
    ensures RemoveSuffix(RemoveSuffix(s, 'B'), 'I') == s && RemoveSuffix(RemoveSuffix(s + "B", 'B'), 'I') == s
    ensures RemoveSuffix(RemoveSuffix(s + "IB", 'B'), 'I') == s
  {
    assert (s + "B")[..|s|] == s;
    assert (s + "IB")[..|s| + 1] == s + "I" && (s + "I")[..|s|] == s;
  }

  /** A number with or without a unit, however the unit is written: kilo, mega and giga are powers of 1024. */
  lemma SizeIs(f: Floats, t: string, m: nat, u: string)
    requires ReadsDecimals(f) && m < EXACT && UnitText(u) && Written(t, m, u)
    ensures ParseSize(f, t) == Ok(m * if u == "K" then 1024 else if u == "M" then 1024 * 1024 else if u == "G" then 1024 * 1024 * 1024 else 1)
  {
    NormalWritten(t, m, u);
    NormalPlain(m, u);
    ParsePlain(f, m, u);
  }

  /** The unit that is printed is the largest that divides the size. */
  lemma LargestUnit(n: nat, m: nat, u: string)
    requires 0 < n < 4611686018427387904 && UnitText(u) && n == m * UnitOf(u)
    requires u != "G" ==> n % 1073741824 != 0
    requires u == "" || u == "K" ==> n % 1048576 != 0
    requires u == "" ==> n % 1024 != 0
    ensures FmtSize(n) == Digits(m) + u
  {
    DivideBack(m, UnitOf(u));
    if u == "" { assert Digits(m) + u == Digits(m); }
  }

  lemma DivideBack(m: nat, u: int)
    requires u >= 1
    ensures (m * u) % u == 0 && m * u / u == m
  {
    MultipleTimes(m, u);
  }
}
