/** The deterministic part of the PDF annual-report parser: turning the
    model's JSON answer into a financial record, deriving ratios and growth
    from it, and merging the records of several yearly reports. */
module PdfParser {
  import opened Wrappers
  import opened Text
  import opened Dicts
  import opened FinancialModel
  import opened JsonModel
  import DataFetcher

  // ------------------------------------------------------- string ordering

  /** Python's `<` on strings: code point by code point, a proper prefix
      first. */
  predicate LexLess(a: string, b: string)
    decreases |a|
  {
    if a == [] then b != []
    else if b == [] then false
    else if a[0] != b[0] then a[0] < b[0]
    else LexLess(a[1..], b[1..])
  }

  lemma {:induction false} LexLessIrreflexive(a: string)
    ensures !LexLess(a, a)
    decreases |a|
  {
    if a != [] {
      LexLessIrreflexive(a[1..]);
    }
  }

  lemma {:induction false} LexLessTotal(a: string, b: string)
    requires a != b
    ensures LexLess(a, b) || LexLess(b, a)
    decreases |a|
  {
    if a != [] && b != [] && a[0] == b[0] {
      assert a == [a[0]] + a[1..] && b == [b[0]] + b[1..];
      LexLessTotal(a[1..], b[1..]);
    }
  }

  lemma {:induction false} LexLessTransitive(a: string, b: string, c: string)
    requires LexLess(a, b) && LexLess(b, c)
    ensures LexLess(a, c)
    decreases |a|
  {
    if a != [] && a[0] == b[0] && b[0] == c[0] {
      LexLessTransitive(a[1..], b[1..], c[1..]);
    }
  }

  /** Strictly decreasing: every later string is smaller. */
  predicate Descending(s: seq<string>)
  {
    forall i, j :: 0 <= i < j < |s| ==> LexLess(s[j], s[i])
  }

  predicate Distinct(s: seq<string>)
  {
    forall i, j :: 0 <= i < j < |s| ==> s[i] != s[j]
  }

  lemma DescendingIsDistinct(s: seq<string>)
    requires Descending(s)
    ensures Distinct(s)
  {
    forall i, j | 0 <= i < j < |s|
      ensures s[i] != s[j]
    {
      if s[i] == s[j] {
        LexLessIrreflexive(s[i]);
      }
    }
  }

  /** Places `x` into a descending list. */
  function InsertDesc(x: string, s: seq<string>): seq<string>
  {
    if s == [] || LexLess(s[0], x) then [x] + s else [s[0]] + InsertDesc(x, s[1..])
  }

  /** A string above the head of a descending list is above all of it. */
  lemma AboveHead(x: string, s: seq<string>)
    requires Descending(s) && s != [] && LexLess(s[0], x)
    ensures Descending([x] + s)
  {
    var r := [x] + s;
    forall i, j | 0 <= i < j < |r|
      ensures LexLess(r[j], r[i])
    {
      if i == 0 && j > 1 {
        LexLessTransitive(s[j - 1], s[0], x);
      }
    }
  }

  /** Every member of a list that holds only `x` and the tail of a
      descending list lies below the head when `x` does. */
  lemma BelowHead(x: string, s: seq<string>, t: seq<string>)
    requires Descending(s) && s != [] && LexLess(x, s[0])
    requires forall y :: y in t ==> y == x || y in s[1..]
    ensures forall j :: 0 <= j < |t| ==> LexLess(t[j], s[0])
  {
    forall j | 0 <= j < |t|
      ensures LexLess(t[j], s[0])
    {
      assert t[j] in t;
      if t[j] != x {
        var k :| 0 <= k < |s[1..]| && s[1..][k] == t[j];
        assert s[k + 1] == t[j];
      }
    }
  }

  lemma ConsDescending(h: string, t: seq<string>)
    requires Descending(t) && forall j :: 0 <= j < |t| ==> LexLess(t[j], h)
    ensures Descending([h] + t)
  {
    var r := [h] + t;
    forall i, j | 0 <= i < j < |r|
      ensures LexLess(r[j], r[i])
    {
      if i > 0 {
        assert r[i] == t[i - 1] && r[j] == t[j - 1];
      }
    }
  }

  lemma {:induction false} InsertDescSpec(x: string, s: seq<string>)
    requires Descending(s) && x !in s
    ensures multiset(InsertDesc(x, s)) == multiset(s) + multiset{x}
    ensures Descending(InsertDesc(x, s))
    decreases |s|
  {
    if s == [] {
    } else if LexLess(s[0], x) {
      AboveHead(x, s);
    } else {
      assert s == [s[0]] + s[1..];
      InsertDescSpec(x, s[1..]);
      LexLessTotal(x, s[0]);
      var t := InsertDesc(x, s[1..]);
      forall y | y in t
        ensures y == x || y in s[1..]
      {
        assert y in multiset(t);
      }
      BelowHead(x, s, t);
      ConsDescending(s[0], t);
    }
  }

  /** `sorted(keys, reverse=True)`. */
  function SortDesc(s: seq<string>): seq<string>
  {
    if s == [] then [] else InsertDesc(s[0], SortDesc(s[1..]))
  }

  /** On distinct strings the result is strictly descending and holds exactly
      the input strings. */
  lemma {:induction false} SortDescSpec(s: seq<string>)
    requires Distinct(s)
    ensures multiset(SortDesc(s)) == multiset(s)
    ensures Descending(SortDesc(s))
    decreases |s|
  {
    if s != [] {
      assert s == [s[0]] + s[1..];
      SortDescSpec(s[1..]);
      forall k | 0 <= k < |s[1..]|
        ensures s[1..][k] != s[0]
      {
        assert s[1..][k] == s[k + 1];
      }
      assert s[0] !in multiset(SortDesc(s[1..]));
      InsertDescSpec(s[0], SortDesc(s[1..]));
    }
  }

  /** The keys of a series, largest label first. */
  function YearsDesc(d: Series): (yl: seq<string>)
    ensures multiset(yl) == multiset(Keys(d))
    ensures Descending(yl) && Distinct(yl)
  {
    assert Distinct(Keys(d));
    SortDescSpec(Keys(d));
    DescendingIsDistinct(SortDesc(Keys(d)));
    SortDesc(Keys(d))
  }

  /** Every listed year is a key of the series. */
  lemma YearsAreKeys(d: Series, i: nat)
    requires i < |YearsDesc(d)|
    ensures HasKey(d, YearsDesc(d)[i])
  {
    assert YearsDesc(d)[i] in multiset(YearsDesc(d));
  }

  /** Two neighbours of the descending list have no key of the series
      between them. */
  lemma YearsDescAdjacent(d: Series, i: nat, k: string)
    requires i + 1 < |YearsDesc(d)| && HasKey(d, k)
    ensures k == YearsDesc(d)[i] || k == YearsDesc(d)[i + 1]
         || LexLess(YearsDesc(d)[i], k) || LexLess(k, YearsDesc(d)[i + 1])
  {
    var yl := YearsDesc(d);
    assert k in multiset(Keys(d));
    var j :| 0 <= j < |yl| && yl[j] == k;
    if j < i {
    } else if j > i + 1 {
    }
  }

  // ----------------------------------------------------------------- growth

  /** Growth of `cur` over `prev` in percent, defined when both are years of
      the series and the earlier value is non-zero. */
  function GrowthAt(s: Series, cur: string, prev: string): (g: Option<real>)
  {
    if HasKey(s, cur) && HasKey(s, prev) && Get(s, prev) != 0.0
    then Some((Get(s, cur) - Get(s, prev)) / Get(s, prev) * 100.0)
    else None
  }

  /** The number of iterations of `for i in range(len(yl) - 1)`. */
  function Pairs(yl: seq<string>): nat
  {
    if |yl| == 0 then 0 else |yl| - 1
  }

  /** A growth dictionary after the first `n` adjacent pairs of `yl`. */
  function GrowthFill(base: Series, s: Series, yl: seq<string>, n: nat): Series
    requires n <= Pairs(yl)
  {
    if n == 0 then base
    else
      var acc := GrowthFill(base, s, yl, n - 1);
      var g := GrowthAt(s, yl[n - 1], yl[n]);
      if g.Some? then Set(acc, yl[n - 1], g.value) else acc
  }

  /** A growth dictionary after one pass over the years of `s`. */
  function GrowthOf(base: Series, s: Series): Series
  {
    GrowthFill(base, s, YearsDesc(s), Pairs(YearsDesc(s)))
  }

  /** A year the first `n` iterations never visit keeps its old entry. */
  lemma {:induction false} GrowthFillOutside(base: Series, s: Series, yl: seq<string>, n: nat, k: string)
    requires n <= Pairs(yl) && forall i :: 0 <= i < n ==> yl[i] != k
    ensures HasKey(GrowthFill(base, s, yl, n), k) <==> HasKey(base, k)
    ensures HasKey(base, k) ==> Get(GrowthFill(base, s, yl, n), k) == Get(base, k)
  {
    if n > 0 {
      GrowthFillOutside(base, s, yl, n - 1, k);
      assert yl[n - 1] != k;
    }
  }

  /** The year of pair `i` gets that pair's growth, or keeps its old entry
      when the growth is undefined. */
  lemma {:induction false} GrowthFillAt(base: Series, s: Series, yl: seq<string>, n: nat, i: nat)
    requires Distinct(yl) && n <= Pairs(yl) && i < n
    ensures GrowthAt(s, yl[i], yl[i + 1]).Some? ==>
              HasKey(GrowthFill(base, s, yl, n), yl[i]) &&
              Get(GrowthFill(base, s, yl, n), yl[i]) == GrowthAt(s, yl[i], yl[i + 1]).value
    ensures GrowthAt(s, yl[i], yl[i + 1]).None? ==>
              (HasKey(GrowthFill(base, s, yl, n), yl[i]) <==> HasKey(base, yl[i]))
    ensures GrowthAt(s, yl[i], yl[i + 1]).None? && HasKey(base, yl[i]) ==>
              Get(GrowthFill(base, s, yl, n), yl[i]) == Get(base, yl[i])
  {
    if i == n - 1 {
      GrowthFillOutside(base, s, yl, n - 1, yl[i]);
    } else {
      GrowthFillAt(base, s, yl, n - 1, i);
      assert yl[n - 1] != yl[i];
    }
  }

  /** Running the pairs again over their own result changes nothing. */
  lemma {:induction false} GrowthFillIdempotent(base: Series, s: Series, yl: seq<string>, m: nat, n: nat)
    requires Distinct(yl) && m <= Pairs(yl) && n <= m
    ensures GrowthFill(GrowthFill(base, s, yl, m), s, yl, n) == GrowthFill(base, s, yl, m)
  {
    if n > 0 {
      var g := GrowthFill(base, s, yl, m);
      GrowthFillIdempotent(base, s, yl, m, n - 1);
      GrowthFillAt(base, s, yl, m, n - 1);
      if GrowthAt(s, yl[n - 1], yl[n]).Some? {
        SetSame(g, yl[n - 1]);
      }
    }
  }

  /** A second growth pass over the same series rewrites identical values. */
  lemma GrowthOfIdempotent(base: Series, s: Series)
    ensures GrowthOf(GrowthOf(base, s), s) == GrowthOf(base, s)
  {
    var yl := YearsDesc(s);
    GrowthFillIdempotent(base, s, yl, Pairs(yl), Pairs(yl));
  }

  /** Each year but the smallest is keyed with its growth over the next
      smaller year, when that year's value is non-zero. */
  lemma GrowthOfPair(base: Series, s: Series, i: nat)
    requires i + 1 < |YearsDesc(s)|
    ensures HasKey(s, YearsDesc(s)[i]) && HasKey(s, YearsDesc(s)[i + 1])
    ensures LexLess(YearsDesc(s)[i + 1], YearsDesc(s)[i])
    ensures Get(s, YearsDesc(s)[i + 1]) != 0.0 ==>
              HasKey(GrowthOf(base, s), YearsDesc(s)[i]) &&
              Get(GrowthOf(base, s), YearsDesc(s)[i]) ==
                (Get(s, YearsDesc(s)[i]) - Get(s, YearsDesc(s)[i + 1])) / Get(s, YearsDesc(s)[i + 1]) * 100.0
    ensures Get(s, YearsDesc(s)[i + 1]) == 0.0 ==>
              (HasKey(GrowthOf(base, s), YearsDesc(s)[i]) <==> HasKey(base, YearsDesc(s)[i]))
  {
    var yl := YearsDesc(s);
    YearsAreKeys(s, i);
    YearsAreKeys(s, i + 1);
    GrowthFillAt(base, s, yl, Pairs(yl), i);
  }

  /** The smallest year label is below every other year and never receives
      a growth entry of its own. */
  lemma SmallestYearHasNoGrowth(base: Series, s: Series)
    requires s != []
    ensures |YearsDesc(s)| == |s|
    ensures forall k :: HasKey(s, k) && k != YearsDesc(s)[|s| - 1] ==> LexLess(YearsDesc(s)[|s| - 1], k)
    ensures HasKey(GrowthOf(base, s), YearsDesc(s)[|s| - 1]) <==> HasKey(base, YearsDesc(s)[|s| - 1])
  {
    YearsDescLength(s);
    SmallestYearIsLeast(s);
    var yl := YearsDesc(s);
    var last := yl[|s| - 1];
    assert forall i :: 0 <= i < Pairs(yl) ==> yl[i] != last;
    GrowthFillOutside(base, s, yl, Pairs(yl), last);
  }

  /** There are as many years as keys. */
  lemma YearsDescLength(s: Series)
    ensures |YearsDesc(s)| == |s|
  {
    var yl := YearsDesc(s);
    assert |yl| == |multiset(yl)| == |multiset(Keys(s))| == |s|;
  }

  /** The last of the descending years is below every other key. */
  lemma SmallestYearIsLeast(s: Series)
    requires s != []
    ensures |YearsDesc(s)| == |s|
    ensures forall k :: HasKey(s, k) && k != YearsDesc(s)[|s| - 1] ==> LexLess(YearsDesc(s)[|s| - 1], k)
  {
    YearsDescLength(s);
    var yl := YearsDesc(s);
    var last := yl[|s| - 1];
    forall k | HasKey(s, k) && k != last
      ensures LexLess(last, k)
    {
      assert k in Keys(s);
      assert k in multiset(yl);
      assert k in yl;
      var j :| 0 <= j < |yl| && yl[j] == k;
      assert j < |s| - 1;
      assert LexLess(yl[|s| - 1], yl[j]);
    }
  }

  /** One iteration of a growth loop: `sorted(s.keys(), reverse=True)`
      walked pair by pair. */
  method GrowthPass(g: Series, s: Series) returns (g': Series)
    ensures g' == GrowthOf(g, s)
  {
    var yl := YearsDesc(s);
    g' := g;
    var i := 0;
    while i + 1 < |yl|
      invariant 0 <= i <= Pairs(yl)
      invariant g' == GrowthFill(g, s, yl, i)
    {
      YearsAreKeys(s, i);
      YearsAreKeys(s, i + 1);
      g' := GrowthStep(g', g, s, yl, i);
      i := i + 1;
    }
  }

  /** The body of the growth loop for pair `i`. */
  method GrowthStep(acc: Series, ghost base: Series, s: Series, yl: seq<string>, i: nat) returns (acc': Series)
    requires i + 1 <= Pairs(yl) && HasKey(s, yl[i]) && HasKey(s, yl[i + 1])
    requires acc == GrowthFill(base, s, yl, i)
    ensures acc' == GrowthFill(base, s, yl, i + 1)
  {
    var current, previous := yl[i], yl[i + 1];
    var g := GrowthAt(s, current, previous);
    assert GrowthFill(base, s, yl, i + 1) == if g.Some? then Set(acc, current, g.value) else acc;
    acc' := acc;
    if Get(s, previous) != 0.0 {
      var growth := (Get(s, current) - Get(s, previous)) / Get(s, previous) * 100.0;
      assert g == Some(growth);
      acc' := Set(acc, current, growth);
    }
  }

  // ----------------------------------------------------------------- ratios

  /** Return on capital employed for year `y` in percent, defined when the
      three series have the year and equity plus debt is non-zero. */
  function RoceAt(op: Series, eq: Series, debt: Series, y: string): Option<real>
  {
    if HasKey(op, y) && HasKey(eq, y) && HasKey(debt, y) && Get(eq, y) + Get(debt, y) != 0.0
    then Some(DataFetcher.Scaled(Get(op, y), Get(eq, y) + Get(debt, y), 100.0))
    else None
  }

  function Roce(op: Series, eq: Series, debt: Series): string -> Option<real>
  {
    y => RoceAt(op, eq, debt, y)
  }

  /** The record after `PDFReportParser._calculate_ratios`: the five ratios
      the Yahoo adapter derives, ROCE over the revenue years, and the two
      growth series, rewritten once per revenue year. */
  function PdfRatios(d: FinancialData): FinancialData
  {
    DataFetcher.YahooRatios(d).(
       roce := FillWith(d.roce, Keys(d.revenue), Roce(d.operating_income, d.shareholders_equity, d.total_debt)),
       revenue_growth := if d.revenue == [] then d.revenue_growth else GrowthOf(d.revenue_growth, d.revenue),
       profit_growth := if d.revenue == [] then d.profit_growth else GrowthOf(d.profit_growth, d.net_income))
  }

  method RoceStep(acc: Series, ghost base: Series, ys: seq<string>, i: nat, op: Series, eq: Series, debt: Series)
    returns (acc': Series)
    requires i < |ys| && acc == FillWith(base, ys[..i], Roce(op, eq, debt))
    ensures acc' == FillWith(base, ys[..i + 1], Roce(op, eq, debt))
  {
    var year := ys[i];
    ghost var f := Roce(op, eq, debt);
    assert f(year) == RoceAt(op, eq, debt, year);
    FillWithStep(base, ys, i, f);
    acc' := acc;
    if HasKey(op, year) && HasKey(eq, year) && HasKey(debt, year) {
      var capitalEmployed := Get(eq, year) + Get(debt, year);
      if capitalEmployed != 0.0 {
        acc' := Set(acc, year, DataFetcher.Scaled(Get(op, year), capitalEmployed, 100.0));
      } else {
        assert f(year).None?;
      }
    } else {
      assert f(year).None?;
    }
  }

  /** `_calculate_ratios`: one pass over the revenue years computing the six
      ratios, with both growth loops nested inside that pass. */
  method CalculateRatios(d: FinancialData) returns (r: FinancialData)
    ensures r == PdfRatios(d)
  {
    var roe, roa, roce, de, om, nm, rg, pg := RatioPass(d);
    r := d.(roe := roe, roa := roa, roce := roce, debt_to_equity := de, operating_margin := om,
            net_margin := nm, revenue_growth := rg, profit_growth := pg);
  }

  /** The loop of `_calculate_ratios`, giving the eight series it leaves. */
  method RatioPass(d: FinancialData) returns (roe: Series, roa: Series, roce: Series, de: Series,
                                              om: Series, nm: Series, rg: Series, pg: Series)
    ensures roe == FillWith(d.roe, Keys(d.revenue), DataFetcher.Ratio(d.net_income, d.shareholders_equity, 100.0))
    ensures roa == FillWith(d.roa, Keys(d.revenue), DataFetcher.Ratio(d.net_income, d.total_assets, 100.0))
    ensures roce == FillWith(d.roce, Keys(d.revenue), Roce(d.operating_income, d.shareholders_equity, d.total_debt))
    ensures de == FillWith(d.debt_to_equity, Keys(d.revenue), DataFetcher.Ratio(d.total_debt, d.shareholders_equity, 1.0))
    ensures om == FillWith(d.operating_margin, Keys(d.revenue), DataFetcher.Ratio(d.operating_income, d.revenue, 100.0))
    ensures nm == FillWith(d.net_margin, Keys(d.revenue), DataFetcher.Ratio(d.net_income, d.revenue, 100.0))
    ensures rg == if d.revenue == [] then d.revenue_growth else GrowthOf(d.revenue_growth, d.revenue)
    ensures pg == if d.revenue == [] then d.profit_growth else GrowthOf(d.profit_growth, d.net_income)
  {
    var ys := Keys(d.revenue);
    roe, roa, roce, de, om, nm := d.roe, d.roa, d.roce, d.debt_to_equity, d.operating_margin, d.net_margin;
    rg, pg := d.revenue_growth, d.profit_growth;
    assert ys[..0] == [];
    var i := 0;
    while i < |ys|
      invariant 0 <= i <= |ys|
      invariant (roe, roa, roce, de, om, nm, rg, pg) == PassAfter(d, ys[..i], i == 0)
    {
      roe, roa, roce, de, om, nm, rg, pg := PassRound(d, ys, i, roe, roa, roce, de, om, nm, rg, pg);
      i := i + 1;
    }
    assert ys[..|ys|] == ys;
    PassDone(d, roe, roa, roce, de, om, nm, rg, pg);
  }

  /** The eight series after the years `ys` of the pass; `none` when no year
      has been visited yet, so the growth loops have not run. */
  ghost function PassAfter(d: FinancialData, ys: seq<string>, none: bool)
    : (Series, Series, Series, Series, Series, Series, Series, Series)
  {
    (FillWith(d.roe, ys, DataFetcher.Ratio(d.net_income, d.shareholders_equity, 100.0)),
     FillWith(d.roa, ys, DataFetcher.Ratio(d.net_income, d.total_assets, 100.0)),
     FillWith(d.roce, ys, Roce(d.operating_income, d.shareholders_equity, d.total_debt)),
     FillWith(d.debt_to_equity, ys, DataFetcher.Ratio(d.total_debt, d.shareholders_equity, 1.0)),
     FillWith(d.operating_margin, ys, DataFetcher.Ratio(d.operating_income, d.revenue, 100.0)),
     FillWith(d.net_margin, ys, DataFetcher.Ratio(d.net_income, d.revenue, 100.0)),
     if none then d.revenue_growth else GrowthOf(d.revenue_growth, d.revenue),
     if none then d.profit_growth else GrowthOf(d.profit_growth, d.net_income))
  }

  /** One year of the pass: its six ratios, then both growth loops. */
  method PassRound(d: FinancialData, ys: seq<string>, i: nat, roe: Series, roa: Series, roce: Series,
                   de: Series, om: Series, nm: Series, rg: Series, pg: Series)
    returns (roe': Series, roa': Series, roce': Series, de': Series, om': Series, nm': Series,
             rg': Series, pg': Series)
    requires i < |ys| && (roe, roa, roce, de, om, nm, rg, pg) == PassAfter(d, ys[..i], i == 0)
    ensures (roe', roa', roce', de', om', nm', rg', pg') == PassAfter(d, ys[..i + 1], false)
  {
    roe', roa', roce', de', om', nm' := RatioRound(d, ys, i, roe, roa, roce, de, om, nm);
    rg' := GrowthAgain(rg, d.revenue_growth, d.revenue, i == 0);
    pg' := GrowthAgain(pg, d.profit_growth, d.net_income, i == 0);
  }

  lemma PassDone(d: FinancialData, roe: Series, roa: Series, roce: Series, de: Series,
                 om: Series, nm: Series, rg: Series, pg: Series)
    requires (roe, roa, roce, de, om, nm, rg, pg) == PassAfter(d, Keys(d.revenue), |Keys(d.revenue)| == 0)
    ensures roe == FillWith(d.roe, Keys(d.revenue), DataFetcher.Ratio(d.net_income, d.shareholders_equity, 100.0))
    ensures roa == FillWith(d.roa, Keys(d.revenue), DataFetcher.Ratio(d.net_income, d.total_assets, 100.0))
    ensures roce == FillWith(d.roce, Keys(d.revenue), Roce(d.operating_income, d.shareholders_equity, d.total_debt))
    ensures de == FillWith(d.debt_to_equity, Keys(d.revenue), DataFetcher.Ratio(d.total_debt, d.shareholders_equity, 1.0))
    ensures om == FillWith(d.operating_margin, Keys(d.revenue), DataFetcher.Ratio(d.operating_income, d.revenue, 100.0))
    ensures nm == FillWith(d.net_margin, Keys(d.revenue), DataFetcher.Ratio(d.net_income, d.revenue, 100.0))
    ensures rg == if d.revenue == [] then d.revenue_growth else GrowthOf(d.revenue_growth, d.revenue)
    ensures pg == if d.revenue == [] then d.profit_growth else GrowthOf(d.profit_growth, d.net_income)
  {
    assert |Keys(d.revenue)| == 0 <==> d.revenue == [];
  }

  /** The six ratio series after the years `ys` of the pass. */
  ghost predicate RatiosFilled(d: FinancialData, ys: seq<string>, roe: Series, roa: Series, roce: Series,
                               de: Series, om: Series, nm: Series)
  {
    && roe == FillWith(d.roe, ys, DataFetcher.Ratio(d.net_income, d.shareholders_equity, 100.0))
    && roa == FillWith(d.roa, ys, DataFetcher.Ratio(d.net_income, d.total_assets, 100.0))
    && roce == FillWith(d.roce, ys, Roce(d.operating_income, d.shareholders_equity, d.total_debt))
    && de == FillWith(d.debt_to_equity, ys, DataFetcher.Ratio(d.total_debt, d.shareholders_equity, 1.0))
    && om == FillWith(d.operating_margin, ys, DataFetcher.Ratio(d.operating_income, d.revenue, 100.0))
    && nm == FillWith(d.net_margin, ys, DataFetcher.Ratio(d.net_income, d.revenue, 100.0))
  }

  /** The six ratios of one year of the pass. */
  method RatioRound(d: FinancialData, ys: seq<string>, i: nat, roe: Series, roa: Series, roce: Series,
                    de: Series, om: Series, nm: Series)
    returns (roe': Series, roa': Series, roce': Series, de': Series, om': Series, nm': Series)
    requires i < |ys| && RatiosFilled(d, ys[..i], roe, roa, roce, de, om, nm)
    ensures RatiosFilled(d, ys[..i + 1], roe', roa', roce', de', om', nm')
  {
    roe' := DataFetcher.RatioStep(roe, d.roe, ys, i, d.net_income, d.shareholders_equity, 100.0);
    roa' := DataFetcher.RatioStep(roa, d.roa, ys, i, d.net_income, d.total_assets, 100.0);
    roce' := RoceStep(roce, d.roce, ys, i, d.operating_income, d.shareholders_equity, d.total_debt);
    de' := DataFetcher.RatioStep(de, d.debt_to_equity, ys, i, d.total_debt, d.shareholders_equity, 1.0);
    om' := DataFetcher.RatioStep(om, d.operating_margin, ys, i, d.operating_income, d.revenue, 100.0);
    nm' := DataFetcher.RatioStep(nm, d.net_margin, ys, i, d.net_income, d.revenue, 100.0);
  }

  /** A growth pass over a series that may already hold the growth entries:
      running the fill again changes nothing. */
  method GrowthAgain(g: Series, ghost base: Series, s: Series, ghost first: bool) returns (g': Series)
    requires g == if first then base else GrowthOf(base, s)
    ensures g' == GrowthOf(base, s)
  {
    if !first {
      GrowthOfIdempotent(base, s);
    }
    g' := GrowthPass(g, s);
  }

  /** A ROCE series after the pass gains an entry exactly for the listed
      years where the operands exist and capital employed is non-zero. */
  lemma RoceFill(base: Series, ys: seq<string>, op: Series, eq: Series, debt: Series, k: string)
    ensures HasKey(FillWith(base, ys, Roce(op, eq, debt)), k) <==>
              HasKey(base, k) || (k in ys && RoceAt(op, eq, debt, k).Some?)
    ensures k in ys && RoceAt(op, eq, debt, k).Some? ==>
              Get(FillWith(base, ys, Roce(op, eq, debt)), k) == Get(op, k) / (Get(eq, k) + Get(debt, k)) * 100.0
    ensures k !in ys && HasKey(base, k) ==> Get(FillWith(base, ys, Roce(op, eq, debt)), k) == Get(base, k)
  {
    var f := Roce(op, eq, debt);
    assert f(k) == RoceAt(op, eq, debt, k);
    FillWithSpec(base, ys, f, k);
  }

  /** ROCE gains an entry exactly for the revenue years where operating
      income, equity and debt all exist and capital employed is non-zero;
      any other entry keeps its old value. */
  lemma PdfReturnOnCapital(d: FinancialData, k: string)
    ensures HasKey(PdfRatios(d).roce, k) <==>
              HasKey(d.roce, k) || (k in Keys(d.revenue) && RoceAt(d.operating_income, d.shareholders_equity, d.total_debt, k).Some?)
    ensures k in Keys(d.revenue) && HasKey(d.operating_income, k) && HasKey(d.shareholders_equity, k) && HasKey(d.total_debt, k)
            && Get(d.shareholders_equity, k) + Get(d.total_debt, k) != 0.0 ==>
              Get(PdfRatios(d).roce, k) == Get(d.operating_income, k) / (Get(d.shareholders_equity, k) + Get(d.total_debt, k)) * 100.0
    ensures k !in Keys(d.revenue) && HasKey(d.roce, k) ==> Get(PdfRatios(d).roce, k) == Get(d.roce, k)
  {
    RoceFill(d.roce, Keys(d.revenue), d.operating_income, d.shareholders_equity, d.total_debt, k);
  }

  /** The five ratios the PDF parser shares with the Yahoo adapter come out
      the same, and the extracted series are left as they were. */
  lemma PdfRatiosMatchYahoo(d: FinancialData)
    ensures PdfRatios(d).roe == DataFetcher.YahooRatios(d).roe && PdfRatios(d).roa == DataFetcher.YahooRatios(d).roa
    ensures PdfRatios(d).debt_to_equity == DataFetcher.YahooRatios(d).debt_to_equity
    ensures PdfRatios(d).operating_margin == DataFetcher.YahooRatios(d).operating_margin
    ensures PdfRatios(d).net_margin == DataFetcher.YahooRatios(d).net_margin
    ensures PdfRatios(d).revenue == d.revenue && PdfRatios(d).net_income == d.net_income
    ensures PdfRatios(d).operating_income == d.operating_income && PdfRatios(d).total_debt == d.total_debt
    ensures PdfRatios(d).shareholders_equity == d.shareholders_equity && PdfRatios(d).total_assets == d.total_assets
  {
  }

  /** Profit growth is filled only when there is revenue, and then it does
      not depend on how many revenue years there are. */
  lemma ProfitGrowthIgnoresRevenueYears(d: FinancialData, e: FinancialData)
    requires d.net_income == e.net_income && d.profit_growth == e.profit_growth
    ensures d.revenue == [] ==> PdfRatios(d).profit_growth == d.profit_growth
    ensures d.revenue != [] && e.revenue != [] ==> PdfRatios(d).profit_growth == PdfRatios(e).profit_growth
  {
  }

  // ------------------------------------------------------ JSON to the record

  /** `float(v)` with the `except (ValueError, TypeError)` fallback. */
  function FloatOrZero(j: Json, parse: string -> Option<real>): (x: real)
    ensures FloatOf(j, parse).Some? ==> x == FloatOf(j, parse).value
    ensures FloatOf(j, parse).None? ==> x == 0.0
  {
    match FloatOf(j, parse)
    case Some(v) => v
    case None => 0.0
  }

  /** The dictionary `_convert_to_float_dict` returns: the same keys in the
      same order, every value converted or 0.0. */
  function FloatDict(data: Dict<Json>, parse: string -> Option<real>): (r: Series)
    ensures Keys(r) == Keys(data)
    ensures forall i :: 0 <= i < |data| ==> r[i].1 == FloatOrZero(data[i].1, parse)
  {
    var r := seq(|data|, i requires 0 <= i < |data| => (data[i].0, FloatOrZero(data[i].1, parse)));
    assert forall i :: 0 <= i < |r| ==> r[i].0 == data[i].0;
    r
  }

  /** Looked up by key, the converted dictionary has exactly the input's
      keys and each one's converted value. */
  lemma FloatDictGet(data: Dict<Json>, parse: string -> Option<real>, k: string)
    ensures HasKey(FloatDict(data, parse), k) <==> HasKey(data, k)
    ensures HasKey(data, k) ==> Get(FloatDict(data, parse), k) == FloatOrZero(Get(data, k), parse)
  {
    if HasKey(data, k) {
      var i := KeyIndex(data, k);
      assert FloatDict(data, parse)[i] == (k, FloatOrZero(data[i].1, parse));
    }
  }

  /** `_convert_to_float_dict`. The keys of `data` are distinct, so each
      assignment adds a new entry at the end. */
  method ConvertToFloatDict(data: Dict<Json>, parse: string -> Option<real>) returns (r: Series)
    ensures r == FloatDict(data, parse)
  {
    ghost var full := FloatDict(data, parse);
    var entries: seq<(string, real)> := [];
    var i := 0;
    while i < |data|
      invariant 0 <= i <= |data| && entries == full[..i]
    {
      var key, value := data[i].0, data[i].1;
      var x := FloatOf(value, parse);
      var v := 0.0;
      if x.Some? {
        v := x.value;
      }
      assert full[i] == (key, v);
      entries := entries + [(key, v)];
      assert full[..i + 1] == full[..i] + [full[i]];
      i := i + 1;
    }
    assert full[..|data|] == full;
    r := entries;
  }

  /** Names the model returns when it could not read the company name. */
  function Placeholders(): seq<string>
  {
    ["(anonymous)", "anonymous", "n/a", "unknown"]
  }

  /** The company name the parsed record carries: the user's name, unless
      the model found a real name and the user's is blank. A truthy
      non-string name raises (`Err`) on `.lower()`. */
  function ChooseName(user: string, extracted: Json): (r: Result<string>)
    ensures r.Err? <==> Truthy(extracted) && !extracted.JStr?
    ensures r.Ok? && Strip(user) != "" ==> r.value == user
    ensures r.Ok? && user == "" ==> r.value == TextOf(extracted)
  {
    if !Truthy(extracted) then Ok(if user != "" then user else TextOf(extracted))
    else if !extracted.JStr? then Err("object has no attribute 'lower'")
    else if Lower(extracted.s) in Placeholders() then Ok(if user != "" then user else extracted.s)
    else Ok(if user != "" && Strip(user) != "" then user else extracted.s)
  }

  /** A user name of blanks wins over a placeholder but not over a real
      extracted name. */
  lemma BlankUserNameAgainstPlaceholder(user: string, placeholder: string, real_name: string)
    requires user != "" && Strip(user) == ""
    requires placeholder != "" && Lower(placeholder) in Placeholders()
    requires real_name != "" && Lower(real_name) !in Placeholders()
    ensures ChooseName(user, JStr(placeholder)) == Ok(user)
    ensures ChooseName(user, JStr(real_name)) == Ok(real_name)
  {
  }

  /** `name.upper().replace(" ", "_")`. */
  function UnderscoreTicker(name: string): (t: string)
    ensures |t| == |name| && ' ' !in t
    ensures forall i :: 0 <= i < |name| ==> t[i] == if name[i] == ' ' then '_' else UpperChar(name[i])
  {
    ReplaceCharByChar(Upper(name), ' ', '_');
    Replace(Upper(name), " ", "_")
  }

  /** The ticker of a parsed record: the underscored name, or "UNKNOWN" for
      an empty name. */
  function TickerFor(name: string): (t: string)
    ensures name == "" ==> t == "UNKNOWN"
    ensures name != "" ==> t == UnderscoreTicker(name)
  {
    if name == "" then "UNKNOWN" else UnderscoreTicker(name)
  }

  /** `d.get(key, default)` on an object. */
  function Field(fs: Dict<Json>, key: string, default: Json): Json
  {
    if HasKey(fs, key) then Get(fs, key) else default
  }

  /** A series field converts unless it is present and is not an object. */
  predicate SeriesFieldOk(fs: Dict<Json>, key: string)
  {
    Field(fs, key, JObj([])).JObj?
  }

  function SeriesOf(fs: Dict<Json>, key: string, parse: string -> Option<real>): Series
    requires SeriesFieldOk(fs, key)
  {
    FloatDict(Field(fs, key, JObj([])).fields, parse)
  }

  /** The JSON keys of the eleven extracted series. */
  function SeriesNames(): seq<string>
  {
    ["revenue", "net_income", "operating_income", "total_assets", "total_liabilities",
     "shareholders_equity", "total_debt", "cash_and_equivalents", "operating_cash_flow",
     "free_cash_flow", "capex"]
  }

  predicate AllSeriesOk(fs: Dict<Json>)
  {
    forall i :: 0 <= i < |SeriesNames()| ==> SeriesFieldOk(fs, SeriesNames()[i])
  }

  predicate ScalarsOk(fs: Dict<Json>, parse: string -> Option<real>)
  {
    FloatOf(Field(fs, "market_cap", JNum(0.0)), parse).Some?
    && FloatOf(Field(fs, "pe_ratio", JNum(0.0)), parse).Some?
    && FloatOf(Field(fs, "dividend_yield", JNum(0.0)), parse).Some?
  }

  const ExtractionError := "Error extracting financial data with AI"

  /** The record `parse_financial_data_with_ai` builds from the parsed answer
      before deriving ratios; any step that raises gives `Err`. */
  function RecordFromJson(data: Json, user: string, years: int, stamp: string, parse: string -> Option<real>)
    : (r: Result<FinancialData>)
    ensures r.Ok? <==> data.JObj? && ChooseName(user, Field(data.fields, "company_name", JStr(""))).Ok?
                       && AllSeriesOk(data.fields) && ScalarsOk(data.fields, parse)
    ensures r.Err? ==> r.error == ExtractionError
  {
    if !data.JObj? then Err(ExtractionError)
    else
      var fs := data.fields;
      var name := ChooseName(user, Field(fs, "company_name", JStr("")));
      if name.Err? || !AllSeriesOk(fs) || !ScalarsOk(fs, parse) then Err(ExtractionError)
      else
        var n := SeriesNames();
        assert forall i :: 0 <= i < |n| ==> SeriesFieldOk(fs, n[i]);
        Ok(NewFinancialData(name.value, TickerFor(name.value), years).(
          data_source := "PDF Annual Report",
          fetch_timestamp := stamp,
          revenue := SeriesOf(fs, n[0], parse),
          net_income := SeriesOf(fs, n[1], parse),
          operating_income := SeriesOf(fs, n[2], parse),
          total_assets := SeriesOf(fs, n[3], parse),
          total_liabilities := SeriesOf(fs, n[4], parse),
          shareholders_equity := SeriesOf(fs, n[5], parse),
          total_debt := SeriesOf(fs, n[6], parse),
          cash_and_equivalents := SeriesOf(fs, n[7], parse),
          operating_cash_flow := SeriesOf(fs, n[8], parse),
          free_cash_flow := SeriesOf(fs, n[9], parse),
          capex := SeriesOf(fs, n[10], parse),
          sector := TextOf(Field(fs, "sector", JStr(""))),
          industry := TextOf(Field(fs, "industry", JStr(""))),
          market_cap := FloatOf(Field(fs, "market_cap", JNum(0.0)), parse).value,
          pe_ratio := FloatOf(Field(fs, "pe_ratio", JNum(0.0)), parse).value,
          dividend_yield := FloatOf(Field(fs, "dividend_yield", JNum(0.0)), parse).value))
  }

  /** A non-blank user name names the record and gives its ticker. */
  lemma RecordUsesUserName(data: Json, user: string, years: int, stamp: string, parse: string -> Option<real>)
    requires RecordFromJson(data, user, years, stamp, parse).Ok? && Strip(user) != ""
    ensures RecordFromJson(data, user, years, stamp, parse).value.company_name == user
    ensures RecordFromJson(data, user, years, stamp, parse).value.ticker == UnderscoreTicker(user)
    ensures RecordFromJson(data, user, years, stamp, parse).value.years_analyzed == years
  {
  }

  /** With no name from either side the ticker is "UNKNOWN". */
  lemma RecordWithoutName(data: Json, years: int, stamp: string, parse: string -> Option<real>)
    requires data.JObj? && !HasKey(data.fields, "company_name")
    requires RecordFromJson(data, "", years, stamp, parse).Ok?
    ensures RecordFromJson(data, "", years, stamp, parse).value.company_name == ""
    ensures RecordFromJson(data, "", years, stamp, parse).value.ticker == "UNKNOWN"
  {
  }

  /** The revenue series holds exactly the keys of the answer's revenue
      object, each value converted or 0.0; with no revenue object it is
      empty, and a revenue value that is not an object fails the parse. */
  lemma RecordRevenue(data: Json, user: string, years: int, stamp: string, parse: string -> Option<real>, k: string)
    requires data.JObj?
    ensures HasKey(data.fields, "revenue") && !Get(data.fields, "revenue").JObj? ==>
              RecordFromJson(data, user, years, stamp, parse).Err?
    ensures RecordFromJson(data, user, years, stamp, parse).Ok? && !HasKey(data.fields, "revenue") ==>
              RecordFromJson(data, user, years, stamp, parse).value.revenue == []
    ensures RecordFromJson(data, user, years, stamp, parse).Ok? && HasKey(data.fields, "revenue") ==>
              (HasKey(RecordFromJson(data, user, years, stamp, parse).value.revenue, k) <==>
                 HasKey(Get(data.fields, "revenue").fields, k))
    ensures RecordFromJson(data, user, years, stamp, parse).Ok? && HasKey(data.fields, "revenue")
            && HasKey(Get(data.fields, "revenue").fields, k) ==>
              Get(RecordFromJson(data, user, years, stamp, parse).value.revenue, k) ==
                FloatOrZero(Get(Get(data.fields, "revenue").fields, k), parse)
  {
    assert SeriesNames()[0] == "revenue";
    var r := RecordFromJson(data, user, years, stamp, parse);
    if r.Ok? && HasKey(data.fields, "revenue") {
      FloatDictGet(Get(data.fields, "revenue").fields, parse, k);
    }
  }

  /** A scalar the string parser rejects fails the whole parse. */
  lemma UnparsableMarketCapFails(data: Json, user: string, years: int, stamp: string, parse: string -> Option<real>, text: string)
    requires data.JObj? && HasKey(data.fields, "market_cap") && Get(data.fields, "market_cap") == JStr(text)
    requires parse(text).None?
    ensures RecordFromJson(data, user, years, stamp, parse).Err?
  {
  }

  /** Ratios derived on a parsed record; an error passes through. */
  function WithRatios(r: Result<FinancialData>): Result<FinancialData>
  {
    match r
    case Ok(d) => Ok(PdfRatios(d))
    case Err(e) => Err(e)
  }

  /** The end of `parse_financial_data_with_ai`: build the record, then
      `_calculate_ratios` on it. */
  method ParseFinancialData(data: Json, user: string, years: int, stamp: string, parse: string -> Option<real>)
    returns (r: Result<FinancialData>)
    ensures r == WithRatios(RecordFromJson(data, user, years, stamp, parse))
    ensures r.Err? <==> RecordFromJson(data, user, years, stamp, parse).Err?
  {
    var rec := RecordFromJson(data, user, years, stamp, parse);
    if rec.Ok? {
      var d := CalculateRatios(rec.value);
      r := Ok(d);
    } else {
      r := Err(rec.error);
    }
  }

  const MinimumText := 100

  /** `parse_annual_report`: text under 100 characters is refused before the
      model is asked; `ask` stands for the model call and `json.loads` of
      its answer (`None` when either raises). */
  method ParseAnnualReport(text: string, user: string, years: int, stamp: string,
                           ask: string -> Option<Json>, parse: string -> Option<real>)
    returns (r: Result<FinancialData>)
    ensures |text| < MinimumText ==> r == Err("Could not extract sufficient text from PDF")
    ensures |text| >= MinimumText && ask(text).None? ==> r == Err(ExtractionError)
    ensures |text| >= MinimumText && ask(text).Some? ==>
              r == WithRatios(RecordFromJson(ask(text).value, user, years, stamp, parse))
  {
    if text == "" || |text| < MinimumText {
      return Err("Could not extract sufficient text from PDF");
    }
    var answer := ask(text);
    if answer.None? {
      return Err(ExtractionError);
    }
    r := ParseFinancialData(answer.value, user, years, stamp, parse);
  }

  // ------------------------------------------------------- merging reports

  /** The eleven series `parse_multiple_reports` merges. */
  datatype MergedSeries = Revenue | NetIncome | OperatingIncome | TotalAssets | TotalLiabilities
                        | ShareholdersEquity | TotalDebt | Cash | OperatingCashFlow | FreeCashFlow | Capex

  function SeriesField(d: FinancialData, f: MergedSeries): Series
  {
    match f
    case Revenue => d.revenue
    case NetIncome => d.net_income
    case OperatingIncome => d.operating_income
    case TotalAssets => d.total_assets
    case TotalLiabilities => d.total_liabilities
    case ShareholdersEquity => d.shareholders_equity
    case TotalDebt => d.total_debt
    case Cash => d.cash_and_equivalents
    case OperatingCashFlow => d.operating_cash_flow
    case FreeCashFlow => d.free_cash_flow
    case Capex => d.capex
  }

  /** One loop iteration of the merge for a report that parsed. */
  function MergeReport(c: FinancialData, d: FinancialData): FinancialData
  {
    var m := c.(revenue := Update(c.revenue, d.revenue),
                net_income := Update(c.net_income, d.net_income),
                operating_income := Update(c.operating_income, d.operating_income),
                total_assets := Update(c.total_assets, d.total_assets),
                total_liabilities := Update(c.total_liabilities, d.total_liabilities),
                shareholders_equity := Update(c.shareholders_equity, d.shareholders_equity),
                total_debt := Update(c.total_debt, d.total_debt),
                cash_and_equivalents := Update(c.cash_and_equivalents, d.cash_and_equivalents),
                operating_cash_flow := Update(c.operating_cash_flow, d.operating_cash_flow),
                free_cash_flow := Update(c.free_cash_flow, d.free_cash_flow),
                capex := Update(c.capex, d.capex));
    if c.sector == "" then
      m.(sector := d.sector, industry := d.industry, market_cap := d.market_cap,
         pe_ratio := d.pe_ratio, dividend_yield := d.dividend_yield)
    else m
  }

  /** The combined record after the loop over `reports`, one entry per path,
      `None` for a report that raised and was skipped. */
  function MergeAll(c: FinancialData, reports: seq<Option<FinancialData>>): FinancialData
    decreases |reports|
  {
    if reports == [] then c
    else
      var m := MergeAll(c, reports[..|reports| - 1]);
      match reports[|reports| - 1]
      case None => m
      case Some(d) => MergeReport(m, d)
  }

  /** The empty combined record `parse_multiple_reports` starts from. */
  function CombinedStart(name: string, paths: nat, stamp: string): FinancialData
  {
    NewFinancialData(name, UnderscoreTicker(name), paths).(
      data_source := "PDF Annual Reports (Multiple)", fetch_timestamp := stamp)
  }

  /** `parse_multiple_reports`: `report` stands for `parse_annual_report` on
      one path with one year (`None` when it raises). */
  method ParseMultipleReports(paths: seq<string>, name: string, stamp: string,
                              report: string -> Option<FinancialData>)
    returns (r: FinancialData)
    ensures r == PdfRatios(MergeAll(CombinedStart(name, |paths|, stamp), MapList(paths, report)))
    ensures r.years_analyzed == |paths| && r.company_name == name && r.ticker == UnderscoreTicker(name)
  {
    ghost var reports := MapList(paths, report);
    var start := CombinedStart(name, |paths|, stamp);
    var combined := start;
    var i := 0;
    while i < |paths|
      invariant 0 <= i <= |paths|
      invariant combined == MergeAll(start, reports[..i])
    {
      assert reports[..i + 1][..i] == reports[..i];
      var parsed := report(paths[i]);
      if parsed.Some? {
        var data := parsed.value;
        combined := combined.(
          revenue := Update(combined.revenue, data.revenue),
          net_income := Update(combined.net_income, data.net_income),
          operating_income := Update(combined.operating_income, data.operating_income),
          total_assets := Update(combined.total_assets, data.total_assets),
          total_liabilities := Update(combined.total_liabilities, data.total_liabilities),
          shareholders_equity := Update(combined.shareholders_equity, data.shareholders_equity),
          total_debt := Update(combined.total_debt, data.total_debt),
          cash_and_equivalents := Update(combined.cash_and_equivalents, data.cash_and_equivalents),
          operating_cash_flow := Update(combined.operating_cash_flow, data.operating_cash_flow),
          free_cash_flow := Update(combined.free_cash_flow, data.free_cash_flow),
          capex := Update(combined.capex, data.capex));
        if combined.sector == "" {
          combined := combined.(sector := data.sector, industry := data.industry, market_cap := data.market_cap,
                                pe_ratio := data.pe_ratio, dividend_yield := data.dividend_yield);
        }
      }
      i := i + 1;
    }
    assert reports[..|paths|] == reports;
    MergeKeepsIdentity(start, reports);
    r := CalculateRatios(combined);
  }

  /** Merging never touches the name, ticker or year count. */
  lemma {:induction false} MergeKeepsIdentity(c: FinancialData, reports: seq<Option<FinancialData>>)
    ensures MergeAll(c, reports).company_name == c.company_name && MergeAll(c, reports).ticker == c.ticker
    ensures MergeAll(c, reports).years_analyzed == c.years_analyzed
    decreases |reports|
  {
    if reports != [] {
      MergeKeepsIdentity(c, reports[..|reports| - 1]);
    }
  }

  /** `start.update(s)` for every series of `ss` in turn. */
  function UnionOf(start: Series, ss: seq<Series>): Series
    decreases |ss|
  {
    if ss == [] then start else Update(UnionOf(start, ss[..|ss| - 1]), ss[|ss| - 1])
  }

  /** One merged series of each report, empty for a skipped one. */
  function FieldOfReports(reports: seq<Option<FinancialData>>, f: MergedSeries): (ss: seq<Series>)
    ensures |ss| == |reports|
    ensures forall i :: 0 <= i < |reports| ==> ss[i] == if reports[i].Some? then SeriesField(reports[i].value, f) else []
  {
    seq(|reports|, i requires 0 <= i < |reports| => if reports[i].Some? then SeriesField(reports[i].value, f) else [])
  }

  lemma MergeReportField(m: FinancialData, d: FinancialData, f: MergedSeries)
    ensures SeriesField(MergeReport(m, d), f) == Update(SeriesField(m, f), SeriesField(d, f))
  {
  }

  /** Each merged series of the combined record is the union of the
      reports' series taken in path order. */
  lemma {:induction false} MergeAllField(c: FinancialData, reports: seq<Option<FinancialData>>, f: MergedSeries)
    ensures SeriesField(MergeAll(c, reports), f) == UnionOf(SeriesField(c, f), FieldOfReports(reports, f))
    decreases |reports|
  {
    if reports != [] {
      var init := reports[..|reports| - 1];
      MergeAllField(c, init, f);
      var ss := FieldOfReports(reports, f);
      assert ss[..|ss| - 1] == FieldOfReports(init, f);
      assert UnionOf(SeriesField(c, f), ss) == Update(UnionOf(SeriesField(c, f), FieldOfReports(init, f)), ss[|ss| - 1]);
      match reports[|reports| - 1]
      case None =>
        assert ss[|ss| - 1] == [];
      case Some(d) =>
        MergeReportField(MergeAll(c, init), d, f);
    }
  }

  /** A year is in the union iff it is in the start or in some report. */
  lemma {:induction false} UnionOfKeys(start: Series, ss: seq<Series>, k: string)
    ensures HasKey(UnionOf(start, ss), k) <==> HasKey(start, k) || exists i :: 0 <= i < |ss| && HasKey(ss[i], k)
    decreases |ss|
  {
    if ss != [] {
      var init := ss[..|ss| - 1];
      UnionOfKeys(start, init, k);
      UpdateSpec(UnionOf(start, init), ss[|ss| - 1], k);
      if exists i :: 0 <= i < |ss| && HasKey(ss[i], k) {
        var i :| 0 <= i < |ss| && HasKey(ss[i], k);
        if i < |ss| - 1 {
          assert init[i] == ss[i];
        }
      }
    }
  }

  /** A year takes its value from the last report that has it. */
  lemma {:induction false} UnionOfLatest(start: Series, ss: seq<Series>, j: nat, k: string)
    requires j < |ss| && HasKey(ss[j], k)
    requires forall i :: j < i < |ss| ==> !HasKey(ss[i], k)
    ensures HasKey(UnionOf(start, ss), k) && Get(UnionOf(start, ss), k) == Get(ss[j], k)
    decreases |ss|
  {
    var init := ss[..|ss| - 1];
    UpdateSpec(UnionOf(start, init), ss[|ss| - 1], k);
    if j < |ss| - 1 {
      UnionOfLatest(start, init, j, k);
    }
  }

  /** A year no report has keeps the start's entry. */
  lemma {:induction false} UnionOfUntouched(start: Series, ss: seq<Series>, k: string)
    requires forall i :: 0 <= i < |ss| ==> !HasKey(ss[i], k)
    ensures HasKey(UnionOf(start, ss), k) <==> HasKey(start, k)
    ensures HasKey(start, k) ==> Get(UnionOf(start, ss), k) == Get(start, k)
    decreases |ss|
  {
    if ss != [] {
      var init := ss[..|ss| - 1];
      UnionOfUntouched(start, init, k);
      UpdateSpec(UnionOf(start, init), ss[|ss| - 1], k);
    }
  }

  /** Report `j` parsed, has year `k`, and no later parsed report has it. */
  predicate LatestWith(reports: seq<Option<FinancialData>>, f: MergedSeries, j: nat, k: string)
  {
    j < |reports| && reports[j].Some? && HasKey(SeriesField(reports[j].value, f), k)
    && forall i :: j < i < |reports| && reports[i].Some? ==> !HasKey(SeriesField(reports[i].value, f), k)
  }

  /** The combined record starts with every merged series empty. */
  lemma StartIsEmpty(name: string, paths: nat, stamp: string, f: MergedSeries)
    ensures SeriesField(CombinedStart(name, paths, stamp), f) == []
  {
  }

  /** From an empty start, a merged series holds exactly the years some
      parsed report has. */
  lemma MergedSeriesKeys(c: FinancialData, reports: seq<Option<FinancialData>>, f: MergedSeries, k: string)
    requires SeriesField(c, f) == []
    ensures HasKey(SeriesField(MergeAll(c, reports), f), k) <==>
              exists i :: 0 <= i < |reports| && reports[i].Some? && HasKey(SeriesField(reports[i].value, f), k)
  {
    var ss := FieldOfReports(reports, f);
    MergeAllField(c, reports, f);
    UnionOfKeys([], ss, k);
    if exists i :: 0 <= i < |ss| && HasKey(ss[i], k) {
      var i :| 0 <= i < |ss| && HasKey(ss[i], k);
      assert reports[i].Some? && HasKey(SeriesField(reports[i].value, f), k);
    }
    if exists i :: 0 <= i < |reports| && reports[i].Some? && HasKey(SeriesField(reports[i].value, f), k) {
      var i :| 0 <= i < |reports| && reports[i].Some? && HasKey(SeriesField(reports[i].value, f), k);
      assert HasKey(ss[i], k);
    }
  }

  /** Each year of a merged series carries the value of the last parsed
      report that has it. */
  lemma MergedSeriesLatest(c: FinancialData, reports: seq<Option<FinancialData>>, f: MergedSeries, j: nat, k: string)
    requires LatestWith(reports, f, j, k)
    ensures HasKey(SeriesField(MergeAll(c, reports), f), k)
    ensures Get(SeriesField(MergeAll(c, reports), f), k) == Get(SeriesField(reports[j].value, f), k)
  {
    var ss := FieldOfReports(reports, f);
    MergeAllField(c, reports, f);
    forall i | j < i < |ss|
      ensures !HasKey(ss[i], k)
    {
      if reports[i].None? {
        assert ss[i] == [];
      }
    }
    UnionOfLatest(SeriesField(c, f), ss, j, k);
  }

  // ------------------------------------------- company facts of the merge

  predicate HasSector(r: Option<FinancialData>) { r.Some? && r.value.sector != "" }

  /** The first report that parsed with a non-empty sector. */
  function FirstWithSector(reports: seq<Option<FinancialData>>): (r: Option<nat>)
    ensures r.Some? ==> r.value < |reports| && HasSector(reports[r.value])
    ensures r.Some? ==> forall j :: 0 <= j < r.value ==> !HasSector(reports[j])
    ensures r.None? ==> forall j :: 0 <= j < |reports| ==> !HasSector(reports[j])
    decreases |reports|
  {
    if reports == [] then None
    else
      var p := FirstWithSector(reports[..|reports| - 1]);
      if p.Some? then p
      else if HasSector(reports[|reports| - 1]) then Some(|reports| - 1)
      else None
  }

  /** The last report that parsed. */
  function LastParsed(reports: seq<Option<FinancialData>>): (r: Option<nat>)
    ensures r.Some? ==> r.value < |reports| && reports[r.value].Some?
    ensures r.Some? ==> forall j :: r.value < j < |reports| ==> reports[j].None?
    ensures r.None? ==> forall j :: 0 <= j < |reports| ==> reports[j].None?
    decreases |reports|
  {
    if reports == [] then None
    else if reports[|reports| - 1].Some? then Some(|reports| - 1)
    else LastParsed(reports[..|reports| - 1])
  }

  /** Sector, industry, market cap, P/E and dividend yield: the facts
      copied together. */
  function CompanyFacts(d: FinancialData): (string, string, real, real, real)
  {
    (d.sector, d.industry, d.market_cap, d.pe_ratio, d.dividend_yield)
  }

  lemma MergeReportFacts(c: FinancialData, d: FinancialData)
    ensures c.sector == "" ==> CompanyFacts(MergeReport(c, d)) == CompanyFacts(d)
    ensures c.sector != "" ==> CompanyFacts(MergeReport(c, d)) == CompanyFacts(c)
  {
  }

  /** Starting with no sector, the company facts come from the first parsed
      report with a sector; when none has one, from the last parsed report,
      whose sector is then empty as well; with no parsed report they stay. */
  lemma {:induction false} MergedCompanyFacts(c: FinancialData, reports: seq<Option<FinancialData>>)
    requires c.sector == ""
    ensures FirstWithSector(reports).Some? ==>
              CompanyFacts(MergeAll(c, reports)) == CompanyFacts(reports[FirstWithSector(reports).value].value)
    ensures FirstWithSector(reports).None? && LastParsed(reports).Some? ==>
              CompanyFacts(MergeAll(c, reports)) == CompanyFacts(reports[LastParsed(reports).value].value)
    ensures FirstWithSector(reports).None? && LastParsed(reports).None? ==>
              CompanyFacts(MergeAll(c, reports)) == CompanyFacts(c)
    decreases |reports|
  {
    if reports != [] {
      var init := reports[..|reports| - 1];
      var last := reports[|reports| - 1];
      MergedCompanyFacts(c, init);
      var m := MergeAll(c, init);
      if FirstWithSector(init).Some? {
        assert init[FirstWithSector(init).value] == reports[FirstWithSector(init).value];
        if last.Some? {
          MergeReportFacts(m, last.value);
        }
      } else {
        if LastParsed(init).Some? {
          assert init[LastParsed(init).value] == reports[LastParsed(init).value];
          assert !HasSector(init[LastParsed(init).value]);
        }
        assert m.sector == "";
        if last.Some? {
          MergeReportFacts(m, last.value);
        } else {
          assert LastParsed(reports) == LastParsed(init);
        }
      }
    }
  }
}
