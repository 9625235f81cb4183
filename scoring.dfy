/** The seven category scorers of the quality analyzer.

    Each category is specified as an ordered table of rules: a rule that fires
    contributes a score change and one note, a strength or a concern. The
    category score is 5 plus the sum of the changes, clamped to [0, 10]; the
    strengths and concerns are the notes of the fired rules, in table order.
    Each scorer method mutates a local score and appends notes step by step,
    and is proved to produce exactly what its table specifies. */
module Scoring {
  import opened Wrappers
  import opened Dicts
  import opened Numbers
  import opened Text
  import opened FinancialModel
  import opened ReportTypes

  datatype Note = Strength(text: string) | Concern(text: string)

  /** One fired rule: its score change and its note. */
  datatype Adjustment = Adjustment(delta: real, note: Note)

  type Rules = seq<Adjustment>

  /** Collaborators the scorers call but that are not modelled: the compound
      annual growth rate `((first / last) ** (1 / years) - 1) * 100` and the
      text of each category's explanation. */
  datatype Env = Env(cagr: (real, nat) -> real, explain: (string, FinancialData, real) -> string)

  function TotalDelta(rs: Rules): (r: real)
    ensures rs == [] ==> r == 0.0
    ensures |rs| == 1 ==> r == rs[0].delta
  {
    if rs == [] then 0.0 else TotalDelta(rs[..|rs| - 1]) + rs[|rs| - 1].delta
  }

  function StrengthsOf(rs: Rules): (r: seq<string>)
    ensures rs == [] ==> r == []
    ensures |rs| == 1 ==> r == if rs[0].note.Strength? then [rs[0].note.text] else []
  {
    if rs == [] then [] else StrengthsOf(rs[..|rs| - 1]) + (if rs[|rs| - 1].note.Strength? then [rs[|rs| - 1].note.text] else [])
  }

  function ConcernsOf(rs: Rules): (r: seq<string>)
    ensures rs == [] ==> r == []
    ensures |rs| == 1 ==> r == if rs[0].note.Concern? then [rs[0].note.text] else []
  {
    if rs == [] then [] else ConcernsOf(rs[..|rs| - 1]) + (if rs[|rs| - 1].note.Concern? then [rs[|rs| - 1].note.text] else [])
  }

  /** A scorer's running state: its score so far and the notes appended. */
  datatype Tally = Tally(score: real, strengths: seq<string>, concerns: seq<string>)

  /** Every scorer starts at 5.0 with no notes. */
  function Start(): Tally { Tally(5.0, [], []) }

  /** The state after the rules `rs` fire on `t`. */
  function Apply(t: Tally, rs: Rules): Tally
  {
    Tally(t.score + TotalDelta(rs), t.strengths + StrengthsOf(rs), t.concerns + ConcernsOf(rs))
  }

  lemma {:induction false} TotalDeltaConcat(a: Rules, b: Rules)
    ensures TotalDelta(a + b) == TotalDelta(a) + TotalDelta(b)
    decreases |b|
  {
    if b == [] {
      assert a + b == a;
    } else {
      TotalDeltaConcat(a, b[..|b| - 1]);
      assert (a + b)[..|a + b| - 1] == a + b[..|b| - 1];
    }
  }

  lemma {:induction false} StrengthsConcat(a: Rules, b: Rules)
    ensures StrengthsOf(a + b) == StrengthsOf(a) + StrengthsOf(b)
    decreases |b|
  {
    if b == [] {
      assert a + b == a;
    } else {
      StrengthsConcat(a, b[..|b| - 1]);
      assert (a + b)[..|a + b| - 1] == a + b[..|b| - 1];
    }
  }

  lemma {:induction false} ConcernsConcat(a: Rules, b: Rules)
    ensures ConcernsOf(a + b) == ConcernsOf(a) + ConcernsOf(b)
    decreases |b|
  {
    if b == [] {
      assert a + b == a;
    } else {
      ConcernsConcat(a, b[..|b| - 1]);
      assert (a + b)[..|a + b| - 1] == a + b[..|b| - 1];
    }
  }

  /** Firing no rule leaves the state alone. */
  lemma ApplyNothing(t: Tally)
    ensures Apply(t, []) == t
  {
  }

  /** Firing one rule with a strength adds its change and appends the strength. */
  lemma ApplyStrength(t: Tally, delta: real, text: string)
    ensures Apply(t, [Adjustment(delta, Strength(text))]) == Tally(t.score + delta, t.strengths + [text], t.concerns)
  {
    assert t.concerns + [] == t.concerns;
  }

  /** Firing one rule with a concern adds its change and appends the concern. */
  lemma ApplyConcern(t: Tally, delta: real, text: string)
    ensures Apply(t, [Adjustment(delta, Concern(text))]) == Tally(t.score + delta, t.strengths, t.concerns + [text])
  {
    assert t.strengths + [] == t.strengths;
  }

  /** Firing two tables one after the other is firing their concatenation. */
  lemma ApplyConcat(t: Tally, a: Rules, b: Rules)
    ensures Apply(Apply(t, a), b) == Apply(t, a + b)
  {
    TotalDeltaConcat(a, b);
    StrengthsConcat(a, b);
    ConcernsConcat(a, b);
  }

  /** The clamped category score built from a final state. */
  function Finish(c: Category, t: Tally, d: FinancialData, env: Env): (q: QualityScore)
    ensures q.category == CategoryName(c) && q.weight == CategoryWeight(c)
    ensures 0.0 <= q.score <= 10.0
  {
    var s := Clamp(t.score, 0.0, 10.0);
    QualityScore(CategoryName(c), s, CategoryWeight(c), t.strengths, t.concerns, env.explain(CategoryName(c), d, s))
  }

  /** The category score a rule table yields: 5 plus the fired changes,
      clamped, with the fired notes in table order. */
  function Assemble(c: Category, rs: Rules, d: FinancialData, env: Env): (q: QualityScore)
    ensures q.category == CategoryName(c) && q.weight == CategoryWeight(c)
    ensures 0.0 <= q.score <= 10.0
    ensures 0.0 <= 5.0 + TotalDelta(rs) <= 10.0 ==> q.score == 5.0 + TotalDelta(rs)
    ensures q.strengths == StrengthsOf(rs) && q.concerns == ConcernsOf(rs)
    ensures rs == [] ==> q.score == 5.0 && q.strengths == [] && q.concerns == []
  {
    Finish(c, Apply(Start(), rs), d, env)
  }

  function F1(x: real): string { FormatFixed(x, 1) }
  function F2(x: real): string { FormatFixed(x, 2) }
  function Pct1(x: real): string { FormatFixed(x, 1) + "%" }

  function Avg(s: Series): real
    requires s != []
  {
    Average(Values(s))
  }

  function First(s: Series): real requires s != [] { s[0].1 }
  function Last(s: Series): real requires s != [] { s[|s| - 1].1 }

  predicate IsPositive(x: real) { x > 0.0 }
  predicate IsNegative(x: real) { x < 0.0 }

  /** Rule helper: a single fired rule, or none. */
  function When(cond: bool, delta: real, note: Note): Rules
  {
    if cond then [Adjustment(delta, note)] else []
  }

  // ------------------------------------------------------------ profitability

  function OperatingMarginLevel(d: FinancialData): Rules
  {
    if d.operating_margin == [] then []
    else
      var avg := Avg(d.operating_margin);
      if avg > 20.0 then [Adjustment(2.0, Strength("Strong operating margin of " + Pct1(avg)))]
      else if avg > 15.0 then [Adjustment(1.0, Strength("Healthy operating margin of " + Pct1(avg)))]
      else if avg < 5.0 then [Adjustment(-2.0, Concern("Low operating margin of " + Pct1(avg)))]
      else When(avg < 10.0, -1.0, Concern("Below-average operating margin of " + Pct1(avg)))
  }

  /** The most recent margin against the oldest one. */
  function OperatingMarginTrend(d: FinancialData): Rules
  {
    if |d.operating_margin| < 2 then []
    else if First(d.operating_margin) > Last(d.operating_margin) then [Adjustment(0.5, Strength("Improving operating margins over time"))]
    else When(First(d.operating_margin) < Last(d.operating_margin) * 0.9, -0.5, Concern("Declining operating margins"))
  }

  function NetMarginLevel(d: FinancialData): Rules
  {
    if d.net_margin == [] then []
    else
      var avg := Avg(d.net_margin);
      if avg > 15.0 then [Adjustment(1.0, Strength("Excellent net profit margin of " + Pct1(avg)))]
      else When(avg < 0.0, -2.0, Concern("Company is operating at a loss"))
  }

  function RoeLevel(d: FinancialData): Rules
  {
    if d.roe == [] then []
    else
      var avg := Avg(d.roe);
      if avg > 20.0 then [Adjustment(1.0, Strength("High ROE of " + Pct1(avg) + " indicates efficient equity usage"))]
      else When(avg < 10.0, -0.5, Concern("Low ROE of " + Pct1(avg)))
  }

  function ProfitabilityRules(d: FinancialData): Rules
  {
    OperatingMarginLevel(d) + OperatingMarginTrend(d) + NetMarginLevel(d) + RoeLevel(d)
  }

  method ScoreOperatingMarginLevel(d: FinancialData, t: Tally) returns (r: Tally)
    ensures r == Apply(t, OperatingMarginLevel(d))
  {
    var score, strengths, concerns := t.score, t.strengths, t.concerns;
    ghost var rs := OperatingMarginLevel(d);
    ApplyNothing(t);
    r := t;
    if d.operating_margin != [] {
      var margins := Values(d.operating_margin);
      var avgMargin := Sum(margins) / |margins| as real;
      if avgMargin > 20.0 {
        score := score + 2.0;
        strengths := strengths + ["Strong operating margin of " + Pct1(avgMargin)];
        r := Tally(score, strengths, concerns);
        assert rs == [Adjustment(2.0, Strength("Strong operating margin of " + Pct1(avgMargin)))];
        ApplyStrength(t, 2.0, "Strong operating margin of " + Pct1(avgMargin));
      } else if avgMargin > 15.0 {
        score := score + 1.0;
        strengths := strengths + ["Healthy operating margin of " + Pct1(avgMargin)];
        r := Tally(score, strengths, concerns);
        assert rs == [Adjustment(1.0, Strength("Healthy operating margin of " + Pct1(avgMargin)))];
        ApplyStrength(t, 1.0, "Healthy operating margin of " + Pct1(avgMargin));
      } else if avgMargin < 5.0 {
        score := score - 2.0;
        concerns := concerns + ["Low operating margin of " + Pct1(avgMargin)];
        r := Tally(score, strengths, concerns);
        assert rs == [Adjustment(-2.0, Concern("Low operating margin of " + Pct1(avgMargin)))];
        ApplyConcern(t, -2.0, "Low operating margin of " + Pct1(avgMargin));
      } else if avgMargin < 10.0 {
        score := score - 1.0;
        concerns := concerns + ["Below-average operating margin of " + Pct1(avgMargin)];
        r := Tally(score, strengths, concerns);
        assert rs == [Adjustment(-1.0, Concern("Below-average operating margin of " + Pct1(avgMargin)))];
        ApplyConcern(t, -1.0, "Below-average operating margin of " + Pct1(avgMargin));
      } else {
        assert rs == [];
      }
    } else {
      assert rs == [];
    }
  }

  method ScoreOperatingMarginTrend(d: FinancialData, t: Tally) returns (r: Tally)
    ensures r == Apply(t, OperatingMarginTrend(d))
  {
    var score, strengths, concerns := t.score, t.strengths, t.concerns;
    ghost var rs := OperatingMarginTrend(d);
    ApplyNothing(t);
    r := t;
    var margins := Values(d.operating_margin);
    if |margins| >= 2 {
      if margins[0] > margins[|margins| - 1] {
        score := score + 0.5;
        strengths := strengths + ["Improving operating margins over time"];
        r := Tally(score, strengths, concerns);
        assert rs == [Adjustment(0.5, Strength("Improving operating margins over time"))];
        ApplyStrength(t, 0.5, "Improving operating margins over time");
      } else if margins[0] < margins[|margins| - 1] * 0.9 {
        score := score - 0.5;
        concerns := concerns + ["Declining operating margins"];
        r := Tally(score, strengths, concerns);
        assert rs == [Adjustment(-0.5, Concern("Declining operating margins"))];
        ApplyConcern(t, -0.5, "Declining operating margins");
      } else {
        assert rs == [];
      }
    } else {
      assert rs == [];
    }
  }

  method ScoreNetMargins(d: FinancialData, t: Tally) returns (r: Tally)
    ensures r == Apply(t, NetMarginLevel(d))
  {
    var score, strengths, concerns := t.score, t.strengths, t.concerns;
    ghost var rs := NetMarginLevel(d);
    ApplyNothing(t);
    r := t;
    if d.net_margin != [] {
      var netMargins := Values(d.net_margin);
      var avgNet := Sum(netMargins) / |netMargins| as real;
      if avgNet > 15.0 {
        score := score + 1.0;
        strengths := strengths + ["Excellent net profit margin of " + Pct1(avgNet)];
        r := Tally(score, strengths, concerns);
        assert rs == [Adjustment(1.0, Strength("Excellent net profit margin of " + Pct1(avgNet)))];
        ApplyStrength(t, 1.0, "Excellent net profit margin of " + Pct1(avgNet));
      } else if avgNet < 0.0 {
        score := score - 2.0;
        concerns := concerns + ["Company is operating at a loss"];
        r := Tally(score, strengths, concerns);
        assert rs == [Adjustment(-2.0, Concern("Company is operating at a loss"))];
        ApplyConcern(t, -2.0, "Company is operating at a loss");
      } else {
        assert rs == [];
      }
    } else {
      assert rs == [];
    }
  }

  /** Every stored ROE value is a number, so the type filter keeps them all. */
  method ScoreRoe(d: FinancialData, t: Tally) returns (r: Tally)
    ensures r == Apply(t, RoeLevel(d))
  {
    var score, strengths, concerns := t.score, t.strengths, t.concerns;
    ghost var rs := RoeLevel(d);
    ApplyNothing(t);
    r := t;
    if d.roe != [] {
      var roeValues := Values(d.roe);
      var avgRoe := Sum(roeValues) / |roeValues| as real;
      if avgRoe > 20.0 {
        score := score + 1.0;
        strengths := strengths + ["High ROE of " + Pct1(avgRoe) + " indicates efficient equity usage"];
        r := Tally(score, strengths, concerns);
        assert rs == [Adjustment(1.0, Strength("High ROE of " + Pct1(avgRoe) + " indicates efficient equity usage"))];
        ApplyStrength(t, 1.0, "High ROE of " + Pct1(avgRoe) + " indicates efficient equity usage");
      } else if avgRoe < 10.0 {
        score := score - 0.5;
        concerns := concerns + ["Low ROE of " + Pct1(avgRoe)];
        r := Tally(score, strengths, concerns);
        assert rs == [Adjustment(-0.5, Concern("Low ROE of " + Pct1(avgRoe)))];
        ApplyConcern(t, -0.5, "Low ROE of " + Pct1(avgRoe));
      } else {
        assert rs == [];
      }
    } else {
      assert rs == [];
    }
  }

  method AnalyzeProfitability(d: FinancialData, env: Env) returns (q: QualityScore)
    ensures q == Assemble(Profitability, ProfitabilityRules(d), d, env)
    ensures 0.0 <= q.score <= 10.0
  {
    var t0 := Start();
    var t1 := ScoreOperatingMarginLevel(d, t0);
    var t2 := ScoreOperatingMarginTrend(d, t1);
    var t3 := ScoreNetMargins(d, t2);
    var t4 := ScoreRoe(d, t3);
    ApplyConcat(t0, OperatingMarginLevel(d), OperatingMarginTrend(d));
    ApplyConcat(t0, OperatingMarginLevel(d) + OperatingMarginTrend(d), NetMarginLevel(d));
    ApplyConcat(t0, OperatingMarginLevel(d) + OperatingMarginTrend(d) + NetMarginLevel(d), RoeLevel(d));
    q := Finish(Profitability, t4, d, env);
  }

  // ------------------------------------------------------------------ growth

  function RevenueCagrLevel(d: FinancialData, env: Env): Rules
  {
    if |d.revenue| < 2 then []
    else
      var first, last := First(d.revenue), Last(d.revenue);
      if first != 0.0 && last != 0.0 && last > 0.0 then
        var cagr := env.cagr(first / last, |d.revenue| - 1);
        if cagr > 20.0 then [Adjustment(2.0, Strength("Excellent revenue CAGR of " + Pct1(cagr)))]
        else if cagr > 10.0 then [Adjustment(1.0, Strength("Strong revenue CAGR of " + Pct1(cagr)))]
        else if cagr < 0.0 then [Adjustment(-2.0, Concern("Declining revenue (CAGR: " + Pct1(cagr) + ")"))]
        else When(cagr < 5.0, -0.5, Concern("Slow revenue growth (CAGR: " + Pct1(cagr) + ")"))
      else []
  }

  /** Year-on-year growth, in percent, of each neighbouring pair
      (newer, older) whose older value is positive. */
  function GrowthRatesOf(ps: seq<(real, real)>): (g: seq<real>)
    ensures |g| <= |ps|
  {
    if ps == [] then []
    else
      var p := ps[|ps| - 1];
      GrowthRatesOf(ps[..|ps| - 1]) + (if p.1 > 0.0 then [PairGrowth(p)] else [])
  }

  /** The growth, in percent, from the older value of a pair to the newer. */
  function PairGrowth(p: (real, real)): real
    requires p.1 != 0.0
  {
    (p.0 - p.1) / p.1 * 100.0
  }

  function RevenueConsistency(d: FinancialData): Rules
  {
    if |d.revenue| < 2 then []
    else
      var g := GrowthRatesOf(Adjacent(Values(d.revenue)));
      if g == [] then []
      else
        var positive := Count(g, IsPositive);
        if positive == |g| then [Adjustment(1.0, Strength("Consistent revenue growth across all analyzed years"))]
        else When((positive as real) < (|g| as real) / 2.0, 0.0, Concern("Inconsistent revenue growth"))
  }

  function ProfitCagrLevel(d: FinancialData, env: Env): Rules
  {
    if |d.net_income| < 2 then []
    else
      var first, last := First(d.net_income), Last(d.net_income);
      if first != 0.0 && last != 0.0 && last > 0.0 && first > 0.0 then
        var cagr := env.cagr(first / last, |d.net_income| - 1);
        if cagr > 25.0 then [Adjustment(1.0, Strength("Strong profit growth (CAGR: " + Pct1(cagr) + ")"))]
        else When(cagr < -10.0, -1.5, Concern("Declining profits (CAGR: " + Pct1(cagr) + ")"))
      else []
  }

  function GrowthRules(d: FinancialData, env: Env): Rules
  {
    RevenueCagrLevel(d, env) + RevenueConsistency(d) + ProfitCagrLevel(d, env)
  }

  method ScoreRevenueCagr(d: FinancialData, env: Env, t: Tally) returns (r: Tally)
    ensures r == Apply(t, RevenueCagrLevel(d, env))
  {
    var score, strengths, concerns := t.score, t.strengths, t.concerns;
    ghost var rs := RevenueCagrLevel(d, env);
    ApplyNothing(t);
    r := t;
    if d.revenue != [] && |d.revenue| >= 2 {
      var revenues := Values(d.revenue);
      if revenues[0] != 0.0 && revenues[|revenues| - 1] != 0.0 && revenues[|revenues| - 1] > 0.0 {
        var numYears := |revenues| - 1;
        if numYears > 0 {
          var cagr := env.cagr(revenues[0] / revenues[|revenues| - 1], numYears);
          if cagr > 20.0 {
            score := score + 2.0;
            strengths := strengths + ["Excellent revenue CAGR of " + Pct1(cagr)];
            r := Tally(score, strengths, concerns);
            assert rs == [Adjustment(2.0, Strength("Excellent revenue CAGR of " + Pct1(cagr)))];
            ApplyStrength(t, 2.0, "Excellent revenue CAGR of " + Pct1(cagr));
          } else if cagr > 10.0 {
            score := score + 1.0;
            strengths := strengths + ["Strong revenue CAGR of " + Pct1(cagr)];
            r := Tally(score, strengths, concerns);
            assert rs == [Adjustment(1.0, Strength("Strong revenue CAGR of " + Pct1(cagr)))];
            ApplyStrength(t, 1.0, "Strong revenue CAGR of " + Pct1(cagr));
          } else if cagr < 0.0 {
            score := score - 2.0;
            concerns := concerns + ["Declining revenue (CAGR: " + Pct1(cagr) + ")"];
            r := Tally(score, strengths, concerns);
            assert rs == [Adjustment(-2.0, Concern("Declining revenue (CAGR: " + Pct1(cagr) + ")"))];
            ApplyConcern(t, -2.0, "Declining revenue (CAGR: " + Pct1(cagr) + ")");
          } else if cagr < 5.0 {
            score := score - 0.5;
            concerns := concerns + ["Slow revenue growth (CAGR: " + Pct1(cagr) + ")"];
            r := Tally(score, strengths, concerns);
            assert rs == [Adjustment(-0.5, Concern("Slow revenue growth (CAGR: " + Pct1(cagr) + ")"))];
            ApplyConcern(t, -0.5, "Slow revenue growth (CAGR: " + Pct1(cagr) + ")");
          } else {
            assert rs == [];
          }
        }
      } else {
        assert rs == [];
      }
    } else {
      assert rs == [];
    }
  }

  /** One more pair extends the growth rates by that pair's rate, if any. */
  lemma GrowthRatesStep(ps: seq<(real, real)>, i: nat)
    requires i < |ps|
    ensures GrowthRatesOf(ps[..i + 1])
            == GrowthRatesOf(ps[..i]) + (if ps[i].1 > 0.0 then [PairGrowth(ps[i])] else [])
  {
    assert ps[..i + 1][..i] == ps[..i];
  }

  /** The growth-rate loop of the revenue consistency check. */
  method YearOnYearGrowth(revenues: seq<real>) returns (growthRates: seq<real>)
    ensures growthRates == GrowthRatesOf(Adjacent(revenues))
  {
    growthRates := [];
    if |revenues| < 2 {
      return;
    }
    ghost var pairs := Adjacent(revenues);
    var i := 0;
    while i < |revenues| - 1
      invariant 0 <= i <= |revenues| - 1
      invariant growthRates == GrowthRatesOf(pairs[..i])
    {
      GrowthRatesStep(pairs, i);
      assert pairs[i] == (revenues[i], revenues[i + 1]);
      if revenues[i + 1] > 0.0 {
        var growth := (revenues[i] - revenues[i + 1]) / revenues[i + 1] * 100.0;
        assert growth == PairGrowth(pairs[i]);
        growthRates := growthRates + [growth];
      }
      i := i + 1;
    }
    assert pairs[..|revenues| - 1] == pairs;
  }

  method ScoreRevenueConsistency(d: FinancialData, t: Tally) returns (r: Tally)
    ensures r == Apply(t, RevenueConsistency(d))
  {
    var score, strengths, concerns := t.score, t.strengths, t.concerns;
    ghost var rs := RevenueConsistency(d);
    ApplyNothing(t);
    r := t;
    if d.revenue != [] && |d.revenue| >= 2 {
      var growthRates := YearOnYearGrowth(Values(d.revenue));
      if growthRates != [] {
        var positiveYears := Count(growthRates, IsPositive);
        if positiveYears == |growthRates| {
          score := score + 1.0;
          strengths := strengths + ["Consistent revenue growth across all analyzed years"];
          r := Tally(score, strengths, concerns);
          assert rs == [Adjustment(1.0, Strength("Consistent revenue growth across all analyzed years"))];
          ApplyStrength(t, 1.0, "Consistent revenue growth across all analyzed years");
        } else if (positiveYears as real) < (|growthRates| as real) / 2.0 {
          concerns := concerns + ["Inconsistent revenue growth"];
          r := Tally(score, strengths, concerns);
          assert rs == [Adjustment(0.0, Concern("Inconsistent revenue growth"))];
          ApplyConcern(t, 0.0, "Inconsistent revenue growth");
        } else {
          assert rs == [];
        }
      } else {
        assert rs == [];
      }
    } else {
      assert rs == [];
    }
  }

  method ScoreProfitGrowth(d: FinancialData, env: Env, t: Tally) returns (r: Tally)
    ensures r == Apply(t, ProfitCagrLevel(d, env))
  {
    var score, strengths, concerns := t.score, t.strengths, t.concerns;
    ghost var rs := ProfitCagrLevel(d, env);
    ApplyNothing(t);
    r := t;
    if d.net_income != [] && |d.net_income| >= 2 {
      var profits := Values(d.net_income);
      assert profits[0] == First(d.net_income) && profits[|profits| - 1] == Last(d.net_income);
      if profits[0] != 0.0 && profits[|profits| - 1] != 0.0 && profits[|profits| - 1] > 0.0 && profits[0] > 0.0 {
        var numYears := |profits| - 1;
        if numYears > 0 {
          var profitCagr := env.cagr(profits[0] / profits[|profits| - 1], numYears);
          if profitCagr > 25.0 {
            score := score + 1.0;
            strengths := strengths + ["Strong profit growth (CAGR: " + Pct1(profitCagr) + ")"];
            r := Tally(score, strengths, concerns);
            assert rs == [Adjustment(1.0, Strength("Strong profit growth (CAGR: " + Pct1(profitCagr) + ")"))];
            ApplyStrength(t, 1.0, "Strong profit growth (CAGR: " + Pct1(profitCagr) + ")");
          } else if profitCagr < -10.0 {
            score := score - 1.5;
            concerns := concerns + ["Declining profits (CAGR: " + Pct1(profitCagr) + ")"];
            r := Tally(score, strengths, concerns);
            assert rs == [Adjustment(-1.5, Concern("Declining profits (CAGR: " + Pct1(profitCagr) + ")"))];
            ApplyConcern(t, -1.5, "Declining profits (CAGR: " + Pct1(profitCagr) + ")");
          } else {
            assert rs == [];
          }
        }
      } else {
        assert rs == [];
      }
    } else {
      assert rs == [];
    }
  }

  method AnalyzeGrowth(d: FinancialData, env: Env) returns (q: QualityScore)
    ensures q == Assemble(Growth, GrowthRules(d, env), d, env)
    ensures 0.0 <= q.score <= 10.0
  {
    var t0 := Start();
    var t1 := ScoreRevenueCagr(d, env, t0);
    var t2 := ScoreRevenueConsistency(d, t1);
    var t3 := ScoreProfitGrowth(d, env, t2);
    ApplyConcat(t0, RevenueCagrLevel(d, env), RevenueConsistency(d));
    ApplyConcat(t0, RevenueCagrLevel(d, env) + RevenueConsistency(d), ProfitCagrLevel(d, env));
    q := Finish(Growth, t3, d, env);
  }

  // -------------------------------------------------------- financial health

  function DebtToEquityLevel(d: FinancialData): Rules
  {
    if d.debt_to_equity == [] then []
    else
      var avg := Avg(d.debt_to_equity);
      if avg < 0.3 then [Adjustment(2.0, Strength("Very low debt levels (D/E: " + F2(avg) + ")"))]
      else if avg < 0.5 then [Adjustment(1.0, Strength("Conservative debt levels (D/E: " + F2(avg) + ")"))]
      else if avg > 1.5 then [Adjustment(-2.0, Concern("High leverage (D/E: " + F2(avg) + ")"))]
      else When(avg > 1.0, -1.0, Concern("Elevated debt levels (D/E: " + F2(avg) + ")"))
  }

  function LeverageTrend(d: FinancialData): Rules
  {
    if |d.debt_to_equity| < 2 then []
    else When(First(d.debt_to_equity) > Last(d.debt_to_equity) * 1.3, -0.5, Concern("Increasing leverage over time"))
  }

  function InterestCoverageLevel(d: FinancialData): Rules
  {
    if d.interest_coverage == [] then []
    else
      var avg := Avg(d.interest_coverage);
      if avg > 10.0 then [Adjustment(1.0, Strength("Excellent interest coverage (" + F1(avg) + "x)"))]
      else if avg < 2.0 then [Adjustment(-2.0, Concern("Low interest coverage (" + F1(avg) + "x) - potential debt servicing risk"))]
      else When(avg < 3.0, -1.0, Concern("Moderate interest coverage (" + F1(avg) + "x)"))
  }

  function CurrentRatioLevel(d: FinancialData): Rules
  {
    if d.current_ratio == [] then []
    else
      var avg := Avg(d.current_ratio);
      if avg > 2.0 then [Adjustment(0.5, Strength("Strong liquidity position (Current Ratio: " + F2(avg) + ")"))]
      else When(avg < 1.0, -1.5, Concern("Liquidity concerns (Current Ratio: " + F2(avg) + ")"))
  }

  /** The most recent debt against the most recent equity. */
  predicate MinimalDebtTest(debt: real, equity: real)
  {
    debt == 0.0 || (equity > 0.0 && debt / equity < 0.1)
  }

  function MinimalDebt(d: FinancialData): Rules
  {
    if d.total_debt == [] || d.shareholders_equity == [] then []
    else When(MinimalDebtTest(First(d.total_debt), First(d.shareholders_equity)), 1.0, Strength("Debt-free or minimal debt balance sheet"))
  }

  function FinancialHealthRules(d: FinancialData): Rules
  {
    DebtToEquityLevel(d) + LeverageTrend(d) + InterestCoverageLevel(d) + CurrentRatioLevel(d) + MinimalDebt(d)
  }

  method ScoreDebtToEquity(d: FinancialData, t: Tally) returns (r: Tally)
    ensures r == Apply(t, DebtToEquityLevel(d))
  {
    var score, strengths, concerns := t.score, t.strengths, t.concerns;
    ghost var rs := DebtToEquityLevel(d);
    ApplyNothing(t);
    r := t;
    if d.debt_to_equity != [] {
      var deValues := Values(d.debt_to_equity);
      var avgDe := Sum(deValues) / |deValues| as real;
      if avgDe < 0.3 {
        score := score + 2.0;
        strengths := strengths + ["Very low debt levels (D/E: " + F2(avgDe) + ")"];
        r := Tally(score, strengths, concerns);
        assert rs == [Adjustment(2.0, Strength("Very low debt levels (D/E: " + F2(avgDe) + ")"))];
        ApplyStrength(t, 2.0, "Very low debt levels (D/E: " + F2(avgDe) + ")");
      } else if avgDe < 0.5 {
        score := score + 1.0;
        strengths := strengths + ["Conservative debt levels (D/E: " + F2(avgDe) + ")"];
        r := Tally(score, strengths, concerns);
        assert rs == [Adjustment(1.0, Strength("Conservative debt levels (D/E: " + F2(avgDe) + ")"))];
        ApplyStrength(t, 1.0, "Conservative debt levels (D/E: " + F2(avgDe) + ")");
      } else if avgDe > 1.5 {
        score := score - 2.0;
        concerns := concerns + ["High leverage (D/E: " + F2(avgDe) + ")"];
        r := Tally(score, strengths, concerns);
        assert rs == [Adjustment(-2.0, Concern("High leverage (D/E: " + F2(avgDe) + ")"))];
        ApplyConcern(t, -2.0, "High leverage (D/E: " + F2(avgDe) + ")");
      } else if avgDe > 1.0 {
        score := score - 1.0;
        concerns := concerns + ["Elevated debt levels (D/E: " + F2(avgDe) + ")"];
        r := Tally(score, strengths, concerns);
        assert rs == [Adjustment(-1.0, Concern("Elevated debt levels (D/E: " + F2(avgDe) + ")"))];
        ApplyConcern(t, -1.0, "Elevated debt levels (D/E: " + F2(avgDe) + ")");
      } else {
        assert rs == [];
      }
    } else {
      assert rs == [];
    }
  }

  method ScoreLeverageTrend(d: FinancialData, t: Tally) returns (r: Tally)
    ensures r == Apply(t, LeverageTrend(d))
  {
    var score, strengths, concerns := t.score, t.strengths, t.concerns;
    ghost var rs := LeverageTrend(d);
    ApplyNothing(t);
    r := t;
    var deValues := Values(d.debt_to_equity);
    if |deValues| >= 2 && deValues[0] > deValues[|deValues| - 1] * 1.3 {
      concerns := concerns + ["Increasing leverage over time"];
      score := score - 0.5;
      r := Tally(score, strengths, concerns);
      assert rs == [Adjustment(-0.5, Concern("Increasing leverage over time"))];
      ApplyConcern(t, -0.5, "Increasing leverage over time");
    } else {
      assert rs == [];
    }
  }

  method ScoreInterestCoverage(d: FinancialData, t: Tally) returns (r: Tally)
    ensures r == Apply(t, InterestCoverageLevel(d))
  {
    var score, strengths, concerns := t.score, t.strengths, t.concerns;
    ghost var rs := InterestCoverageLevel(d);
    ApplyNothing(t);
    r := t;
    if d.interest_coverage != [] {
      var icValues := Values(d.interest_coverage);
      var avgIc := Sum(icValues) / |icValues| as real;
      if avgIc > 10.0 {
        score := score + 1.0;
        strengths := strengths + ["Excellent interest coverage (" + F1(avgIc) + "x)"];
        r := Tally(score, strengths, concerns);
        assert rs == [Adjustment(1.0, Strength("Excellent interest coverage (" + F1(avgIc) + "x)"))];
        ApplyStrength(t, 1.0, "Excellent interest coverage (" + F1(avgIc) + "x)");
      } else if avgIc < 2.0 {
        score := score - 2.0;
        concerns := concerns + ["Low interest coverage (" + F1(avgIc) + "x) - potential debt servicing risk"];
        r := Tally(score, strengths, concerns);
        assert rs == [Adjustment(-2.0, Concern("Low interest coverage (" + F1(avgIc) + "x) - potential debt servicing risk"))];
        ApplyConcern(t, -2.0, "Low interest coverage (" + F1(avgIc) + "x) - potential debt servicing risk");
      } else if avgIc < 3.0 {
        score := score - 1.0;
        concerns := concerns + ["Moderate interest coverage (" + F1(avgIc) + "x)"];
        r := Tally(score, strengths, concerns);
        assert rs == [Adjustment(-1.0, Concern("Moderate interest coverage (" + F1(avgIc) + "x)"))];
        ApplyConcern(t, -1.0, "Moderate interest coverage (" + F1(avgIc) + "x)");
      } else {
        assert rs == [];
      }
    } else {
      assert rs == [];
    }
  }

  method ScoreCurrentRatio(d: FinancialData, t: Tally) returns (r: Tally)
    ensures r == Apply(t, CurrentRatioLevel(d))
  {
    var score, strengths, concerns := t.score, t.strengths, t.concerns;
    ghost var rs := CurrentRatioLevel(d);
    ApplyNothing(t);
    r := t;
    if d.current_ratio != [] {
      var crValues := Values(d.current_ratio);
      var avgCr := Sum(crValues) / |crValues| as real;
      if avgCr > 2.0 {
        score := score + 0.5;
        strengths := strengths + ["Strong liquidity position (Current Ratio: " + F2(avgCr) + ")"];
        r := Tally(score, strengths, concerns);
        assert rs == [Adjustment(0.5, Strength("Strong liquidity position (Current Ratio: " + F2(avgCr) + ")"))];
        ApplyStrength(t, 0.5, "Strong liquidity position (Current Ratio: " + F2(avgCr) + ")");
      } else if avgCr < 1.0 {
        score := score - 1.5;
        concerns := concerns + ["Liquidity concerns (Current Ratio: " + F2(avgCr) + ")"];
        r := Tally(score, strengths, concerns);
        assert rs == [Adjustment(-1.5, Concern("Liquidity concerns (Current Ratio: " + F2(avgCr) + ")"))];
        ApplyConcern(t, -1.5, "Liquidity concerns (Current Ratio: " + F2(avgCr) + ")");
      } else {
        assert rs == [];
      }
    } else {
      assert rs == [];
    }
  }

  method ScoreMinimalDebt(d: FinancialData, t: Tally) returns (r: Tally)
    ensures r == Apply(t, MinimalDebt(d))
  {
    var score, strengths, concerns := t.score, t.strengths, t.concerns;
    ghost var rs := MinimalDebt(d);
    ApplyNothing(t);
    r := t;
    if d.total_debt != [] && d.shareholders_equity != [] {
      var latestDebt := Values(d.total_debt)[0];
      var latestEquity := Values(d.shareholders_equity)[0];
      if latestDebt == 0.0 || (latestEquity > 0.0 && latestDebt / latestEquity < 0.1) {
        score := score + 1.0;
        strengths := strengths + ["Debt-free or minimal debt balance sheet"];
        r := Tally(score, strengths, concerns);
        assert rs == [Adjustment(1.0, Strength("Debt-free or minimal debt balance sheet"))];
        ApplyStrength(t, 1.0, "Debt-free or minimal debt balance sheet");
      } else {
        assert rs == [];
      }
    } else {
      assert rs == [];
    }
  }

  method AnalyzeFinancialHealth(d: FinancialData, env: Env) returns (q: QualityScore)
    ensures q == Assemble(FinancialHealth, FinancialHealthRules(d), d, env)
    ensures 0.0 <= q.score <= 10.0
  {
    var t0 := Start();
    var t1 := ScoreDebtToEquity(d, t0);
    var t2 := ScoreLeverageTrend(d, t1);
    var t3 := ScoreInterestCoverage(d, t2);
    var t4 := ScoreCurrentRatio(d, t3);
    var t5 := ScoreMinimalDebt(d, t4);
    var a, b, c, e, f := DebtToEquityLevel(d), LeverageTrend(d), InterestCoverageLevel(d), CurrentRatioLevel(d), MinimalDebt(d);
    ApplyConcat(t0, a, b);
    ApplyConcat(t0, a + b, c);
    ApplyConcat(t0, a + b + c, e);
    ApplyConcat(t0, a + b + c + e, f);
    q := Finish(FinancialHealth, t5, d, env);
  }

  // --------------------------------------------------------- cash management

  /** A year whose profit is positive and backed by a larger operating cash
      flow; pairs are (net income, operating cash flow). */
  predicate CashBacked(p: (real, real)) { p.0 > 0.0 && p.1 > p.0 }

  /** The loop that counts, over the years both series cover, the pairs
      satisfying `p`. */
  method CountPairs(a: seq<real>, b: seq<real>, p: ((real, real)) -> bool) returns (n: nat)
    ensures n == Count(Zip(a, b), p)
  {
    ghost var pairs := Zip(a, b);
    var years := if |a| < |b| then |a| else |b|;
    n := 0;
    var i := 0;
    while i < years
      invariant 0 <= i <= years && years == |pairs|
      invariant n == Count(pairs[..i], p)
    {
      assert pairs[..i + 1][..i] == pairs[..i];
      assert pairs[..i + 1][i] == (a[i], b[i]);
      if p((a[i], b[i])) {
        n := n + 1;
      }
      i := i + 1;
    }
    assert pairs[..years] == pairs;
  }

  function OcfConsistency(d: FinancialData): Rules
  {
    if d.operating_cash_flow == [] then []
    else
      var positive := Count(Values(d.operating_cash_flow), IsPositive);
      if positive == |d.operating_cash_flow| then [Adjustment(2.0, Strength("Consistently positive operating cash flow"))]
      else When((positive as real) < (|d.operating_cash_flow| as real) / 2.0, -2.0, Concern("Inconsistent or negative operating cash flows"))
  }

  function OcfTrend(d: FinancialData): Rules
  {
    if |d.operating_cash_flow| < 2 then []
    else
      var newest, oldest := First(d.operating_cash_flow), Last(d.operating_cash_flow);
      if newest > oldest * 1.5 then [Adjustment(0.5, Strength("Growing operating cash flow"))]
      else When(newest < oldest * 0.7, 0.0, Concern("Declining operating cash flow"))
  }

  /** The comparison of net income with operating cash flow over the years
      both series cover. */
  function IncomeBacking(ni: seq<real>, ocf: seq<real>): Rules
  {
    var pairs := Zip(ni, ocf);
    var backed := Count(pairs, CashBacked);
    if backed == |pairs| then [Adjustment(1.0, Strength("OCF consistently exceeds net income - high earnings quality"))]
    else When((backed as real) < (|pairs| as real) / 2.0 && All(ni[..|pairs|], IsPositive),
              -1.0, Concern("Net income often exceeds OCF - potential earnings quality issue"))
  }

  function OcfVersusIncome(d: FinancialData): Rules
  {
    if d.operating_cash_flow == [] || d.net_income == [] then []
    else IncomeBacking(Values(d.net_income), Values(d.operating_cash_flow))
  }

  function FcfConsistency(d: FinancialData): Rules
  {
    if d.free_cash_flow == [] then []
    else
      var positive := Count(Values(d.free_cash_flow), IsPositive);
      if positive == |d.free_cash_flow| then [Adjustment(1.0, Strength("Consistently positive free cash flow"))]
      else When(positive == 0, -1.0, Concern("Negative free cash flow across all years"))
  }

  function CashManagementRules(d: FinancialData): Rules
  {
    OcfConsistency(d) + OcfTrend(d) + OcfVersusIncome(d) + FcfConsistency(d)
  }

  method ScoreOcfConsistency(d: FinancialData, t: Tally) returns (r: Tally)
    ensures r == Apply(t, OcfConsistency(d))
  {
    var score, strengths, concerns := t.score, t.strengths, t.concerns;
    ghost var rs := OcfConsistency(d);
    ApplyNothing(t);
    r := t;
    if d.operating_cash_flow != [] {
      var ocfValues := Values(d.operating_cash_flow);
      var positiveOcf := Count(ocfValues, IsPositive);
      if positiveOcf == |ocfValues| {
        score := score + 2.0;
        strengths := strengths + ["Consistently positive operating cash flow"];
        r := Tally(score, strengths, concerns);
        assert rs == [Adjustment(2.0, Strength("Consistently positive operating cash flow"))];
        ApplyStrength(t, 2.0, "Consistently positive operating cash flow");
      } else if (positiveOcf as real) < (|ocfValues| as real) / 2.0 {
        score := score - 2.0;
        concerns := concerns + ["Inconsistent or negative operating cash flows"];
        r := Tally(score, strengths, concerns);
        assert rs == [Adjustment(-2.0, Concern("Inconsistent or negative operating cash flows"))];
        ApplyConcern(t, -2.0, "Inconsistent or negative operating cash flows");
      } else {
        assert rs == [];
      }
    } else {
      assert rs == [];
    }
  }

  method ScoreOcfTrend(d: FinancialData, t: Tally) returns (r: Tally)
    ensures r == Apply(t, OcfTrend(d))
  {
    var score, strengths, concerns := t.score, t.strengths, t.concerns;
    ghost var rs := OcfTrend(d);
    ApplyNothing(t);
    r := t;
    var ocfValues := Values(d.operating_cash_flow);
    if |ocfValues| >= 2 {
      if ocfValues[0] > ocfValues[|ocfValues| - 1] * 1.5 {
        score := score + 0.5;
        strengths := strengths + ["Growing operating cash flow"];
        r := Tally(score, strengths, concerns);
        assert rs == [Adjustment(0.5, Strength("Growing operating cash flow"))];
        ApplyStrength(t, 0.5, "Growing operating cash flow");
      } else if ocfValues[0] < ocfValues[|ocfValues| - 1] * 0.7 {
        concerns := concerns + ["Declining operating cash flow"];
        r := Tally(score, strengths, concerns);
        assert rs == [Adjustment(0.0, Concern("Declining operating cash flow"))];
        ApplyConcern(t, 0.0, "Declining operating cash flow");
      } else {
        assert rs == [];
      }
    } else {
      assert rs == [];
    }
  }

  /** The net income against operating cash flow comparison, once both
      series are known to be present. */
  method CompareIncomeWithCash(niList: seq<real>, ocfList: seq<real>, t: Tally) returns (r: Tally)
    ensures r == Apply(t, IncomeBacking(niList, ocfList))
  {
    var score, strengths, concerns := t.score, t.strengths, t.concerns;
    ghost var rs := IncomeBacking(niList, ocfList);
    var yearsWithBoth := if |ocfList| < |niList| then |ocfList| else |niList|;
    var ocfGreater := CountPairs(niList, ocfList, CashBacked);
    assert |Zip(niList, ocfList)| == yearsWithBoth;
    if ocfGreater == yearsWithBoth {
      score := score + 1.0;
      strengths := strengths + ["OCF consistently exceeds net income - high earnings quality"];
      r := Tally(score, strengths, concerns);
      assert rs == [Adjustment(1.0, Strength("OCF consistently exceeds net income - high earnings quality"))];
      ApplyStrength(t, 1.0, "OCF consistently exceeds net income - high earnings quality");
    } else if (ocfGreater as real) < (yearsWithBoth as real) / 2.0 && All(niList[..yearsWithBoth], IsPositive) {
      score := score - 1.0;
      concerns := concerns + ["Net income often exceeds OCF - potential earnings quality issue"];
      r := Tally(score, strengths, concerns);
      assert rs == [Adjustment(-1.0, Concern("Net income often exceeds OCF - potential earnings quality issue"))];
      ApplyConcern(t, -1.0, "Net income often exceeds OCF - potential earnings quality issue");
    } else {
      assert rs == [];
      ApplyNothing(t);
      r := t;
    }
  }

  method ScoreOcfVersusIncome(d: FinancialData, t: Tally) returns (r: Tally)
    ensures r == Apply(t, OcfVersusIncome(d))
  {
    if d.operating_cash_flow != [] && d.net_income != [] {
      r := CompareIncomeWithCash(Values(d.net_income), Values(d.operating_cash_flow), t);
    } else {
      ApplyNothing(t);
      r := t;
    }
  }

  method ScoreFcfConsistency(d: FinancialData, t: Tally) returns (r: Tally)
    ensures r == Apply(t, FcfConsistency(d))
  {
    var score, strengths, concerns := t.score, t.strengths, t.concerns;
    ghost var rs := FcfConsistency(d);
    ApplyNothing(t);
    r := t;
    if d.free_cash_flow != [] {
      var fcfValues := Values(d.free_cash_flow);
      var positiveFcf := Count(fcfValues, IsPositive);
      if positiveFcf == |fcfValues| {
        score := score + 1.0;
        strengths := strengths + ["Consistently positive free cash flow"];
        r := Tally(score, strengths, concerns);
        assert rs == [Adjustment(1.0, Strength("Consistently positive free cash flow"))];
        ApplyStrength(t, 1.0, "Consistently positive free cash flow");
      } else if positiveFcf == 0 {
        score := score - 1.0;
        concerns := concerns + ["Negative free cash flow across all years"];
        r := Tally(score, strengths, concerns);
        assert rs == [Adjustment(-1.0, Concern("Negative free cash flow across all years"))];
        ApplyConcern(t, -1.0, "Negative free cash flow across all years");
      } else {
        assert rs == [];
      }
    } else {
      assert rs == [];
    }
  }

  method AnalyzeCashManagement(d: FinancialData, env: Env) returns (q: QualityScore)
    ensures q == Assemble(CashManagement, CashManagementRules(d), d, env)
    ensures 0.0 <= q.score <= 10.0
  {
    var t0 := Start();
    var t1 := ScoreOcfConsistency(d, t0);
    var t2 := ScoreOcfTrend(d, t1);
    var t3 := ScoreOcfVersusIncome(d, t2);
    var t4 := ScoreFcfConsistency(d, t3);
    var a, b, c, e := OcfConsistency(d), OcfTrend(d), OcfVersusIncome(d), FcfConsistency(d);
    ApplyConcat(t0, a, b);
    ApplyConcat(t0, a + b, c);
    ApplyConcat(t0, a + b + c, e);
    q := Finish(CashManagement, t4, d, env);
  }

  // ------------------------------------------------------ capital efficiency

  function RoceLevel(d: FinancialData): Rules
  {
    if d.roce == [] then []
    else
      var avg := Avg(d.roce);
      if avg > 20.0 then [Adjustment(2.0, Strength("Excellent ROCE of " + Pct1(avg) + " - efficient capital deployment"))]
      else if avg > 15.0 then [Adjustment(1.0, Strength("Good ROCE of " + Pct1(avg)))]
      else if avg < 8.0 then [Adjustment(-1.5, Concern("Low ROCE of " + Pct1(avg) + " - poor capital efficiency"))]
      else When(avg < 10.0, -0.5, Concern("Below-average ROCE of " + Pct1(avg)))
  }

  predicate Above15(x: real) { x > 15.0 }

  function RoceConsistency(d: FinancialData): Rules
  {
    When(|d.roce| >= 3 && All(Values(d.roce), Above15), 0.5, Strength("Consistently high returns on capital employed"))
  }

  function RoaLevel(d: FinancialData): Rules
  {
    if d.roa == [] then []
    else
      var avg := Avg(d.roa);
      if avg > 10.0 then [Adjustment(1.0, Strength("Strong ROA of " + Pct1(avg)))]
      else When(avg < 3.0, -1.0, Concern("Low ROA of " + Pct1(avg)))
  }

  /** Revenue over total assets, for each year both series report and whose
      total assets are positive, in the order of the revenue series. */
  function TurnoversOf(revenue: Series, assets: Series): (r: seq<real>)
    ensures |r| <= |revenue|
  {
    if revenue == [] then []
    else
      var (year, value) := revenue[|revenue| - 1];
      TurnoversOf(revenue[..|revenue| - 1], assets)
        + (if HasKey(assets, year) && Get(assets, year) > 0.0 then [value / Get(assets, year)] else [])
  }

  /** Asset turnover adds a note but never changes the score. */
  function AssetTurnover(d: FinancialData): Rules
  {
    var turnovers := TurnoversOf(d.revenue, d.total_assets);
    if turnovers == [] then []
    else
      var avg := Average(turnovers);
      if avg > 1.5 then [Adjustment(0.0, Strength("High asset turnover (" + F2(avg) + "x)"))]
      else When(avg < 0.3, 0.0, Concern("Low asset utilization (" + F2(avg) + "x)"))
  }

  function CapitalEfficiencyRules(d: FinancialData): Rules
  {
    RoceLevel(d) + RoceConsistency(d) + RoaLevel(d) + AssetTurnover(d)
  }

  method ScoreRoce(d: FinancialData, t: Tally) returns (r: Tally)
    ensures r == Apply(t, RoceLevel(d) + RoceConsistency(d))
  {
    var score, strengths, concerns := t.score, t.strengths, t.concerns;
    ghost var level, steady := RoceLevel(d), RoceConsistency(d);
    ghost var mid := t;
    ApplyNothing(t);
    if d.roce != [] {
      var roceValues := Values(d.roce);
      var avgRoce := Sum(roceValues) / |roceValues| as real;
      if avgRoce > 20.0 {
        score := score + 2.0;
        strengths := strengths + ["Excellent ROCE of " + Pct1(avgRoce) + " - efficient capital deployment"];
        assert level == [Adjustment(2.0, Strength("Excellent ROCE of " + Pct1(avgRoce) + " - efficient capital deployment"))];
        ApplyStrength(t, 2.0, "Excellent ROCE of " + Pct1(avgRoce) + " - efficient capital deployment");
      } else if avgRoce > 15.0 {
        score := score + 1.0;
        strengths := strengths + ["Good ROCE of " + Pct1(avgRoce)];
        assert level == [Adjustment(1.0, Strength("Good ROCE of " + Pct1(avgRoce)))];
        ApplyStrength(t, 1.0, "Good ROCE of " + Pct1(avgRoce));
      } else if avgRoce < 8.0 {
        score := score - 1.5;
        concerns := concerns + ["Low ROCE of " + Pct1(avgRoce) + " - poor capital efficiency"];
        assert level == [Adjustment(-1.5, Concern("Low ROCE of " + Pct1(avgRoce) + " - poor capital efficiency"))];
        ApplyConcern(t, -1.5, "Low ROCE of " + Pct1(avgRoce) + " - poor capital efficiency");
      } else if avgRoce < 10.0 {
        score := score - 0.5;
        concerns := concerns + ["Below-average ROCE of " + Pct1(avgRoce)];
        assert level == [Adjustment(-0.5, Concern("Below-average ROCE of " + Pct1(avgRoce)))];
        ApplyConcern(t, -0.5, "Below-average ROCE of " + Pct1(avgRoce));
      } else {
        assert level == [];
      }
      mid := Tally(score, strengths, concerns);
      assert mid == Apply(t, level);
      ApplyNothing(mid);
      if |roceValues| >= 3 && All(roceValues, Above15) {
        strengths := strengths + ["Consistently high returns on capital employed"];
        score := score + 0.5;
        assert steady == [Adjustment(0.5, Strength("Consistently high returns on capital employed"))];
        ApplyStrength(mid, 0.5, "Consistently high returns on capital employed");
      } else {
        assert steady == [];
      }
    } else {
      assert level == [] && steady == [];
    }
    r := Tally(score, strengths, concerns);
    assert r == Apply(Apply(t, level), steady);
    ApplyConcat(t, level, steady);
  }

  method ScoreRoa(d: FinancialData, t: Tally) returns (r: Tally)
    ensures r == Apply(t, RoaLevel(d))
  {
    var score, strengths, concerns := t.score, t.strengths, t.concerns;
    ghost var rs := RoaLevel(d);
    ApplyNothing(t);
    r := t;
    if d.roa != [] {
      var roaValues := Values(d.roa);
      var avgRoa := Sum(roaValues) / |roaValues| as real;
      if avgRoa > 10.0 {
        score := score + 1.0;
        strengths := strengths + ["Strong ROA of " + Pct1(avgRoa)];
        r := Tally(score, strengths, concerns);
        assert rs == [Adjustment(1.0, Strength("Strong ROA of " + Pct1(avgRoa)))];
        ApplyStrength(t, 1.0, "Strong ROA of " + Pct1(avgRoa));
      } else if avgRoa < 3.0 {
        score := score - 1.0;
        concerns := concerns + ["Low ROA of " + Pct1(avgRoa)];
        r := Tally(score, strengths, concerns);
        assert rs == [Adjustment(-1.0, Concern("Low ROA of " + Pct1(avgRoa)))];
        ApplyConcern(t, -1.0, "Low ROA of " + Pct1(avgRoa));
      } else {
        assert rs == [];
      }
    } else {
      assert rs == [];
    }
  }

  /** The turnover loop, over the revenue years in series order. */
  method AssetTurnovers(revenue: Series, assets: Series) returns (turnovers: seq<real>)
    ensures turnovers == TurnoversOf(revenue, assets)
  {
    turnovers := [];
    var i := 0;
    while i < |revenue|
      invariant 0 <= i <= |revenue|
      invariant turnovers == TurnoversOf(revenue[..i], assets)
    {
      assert revenue[..i + 1][..i] == revenue[..i];
      var (year, value) := revenue[i];
      if HasKey(assets, year) && Get(assets, year) > 0.0 {
        turnovers := turnovers + [value / Get(assets, year)];
      }
      i := i + 1;
    }
    assert revenue[..|revenue|] == revenue;
  }

  method ScoreAssetTurnover(d: FinancialData, t: Tally) returns (r: Tally)
    ensures r == Apply(t, AssetTurnover(d))
  {
    var score, strengths, concerns := t.score, t.strengths, t.concerns;
    ghost var rs := AssetTurnover(d);
    ApplyNothing(t);
    r := t;
    if d.revenue != [] && d.total_assets != [] {
      var turnovers := AssetTurnovers(d.revenue, d.total_assets);
      if turnovers != [] {
        var avgTurnover := Sum(turnovers) / |turnovers| as real;
        if avgTurnover > 1.5 {
          strengths := strengths + ["High asset turnover (" + F2(avgTurnover) + "x)"];
          r := Tally(score, strengths, concerns);
          assert rs == [Adjustment(0.0, Strength("High asset turnover (" + F2(avgTurnover) + "x)"))];
          ApplyStrength(t, 0.0, "High asset turnover (" + F2(avgTurnover) + "x)");
        } else if avgTurnover < 0.3 {
          concerns := concerns + ["Low asset utilization (" + F2(avgTurnover) + "x)"];
          r := Tally(score, strengths, concerns);
          assert rs == [Adjustment(0.0, Concern("Low asset utilization (" + F2(avgTurnover) + "x)"))];
          ApplyConcern(t, 0.0, "Low asset utilization (" + F2(avgTurnover) + "x)");
        } else {
          assert rs == [];
        }
      } else {
        assert rs == [];
      }
    } else {
      assert TurnoversOf(d.revenue, d.total_assets) == [] by { NoTurnovers(d.revenue, d.total_assets); }
      assert rs == [];
    }
  }

  /** Without revenue or without any assets no turnover is computed. */
  lemma {:induction false} NoTurnovers(revenue: Series, assets: Series)
    requires revenue == [] || assets == []
    ensures TurnoversOf(revenue, assets) == []
  {
    if revenue != [] {
      NoTurnovers(revenue[..|revenue| - 1], assets);
    }
  }

  method AnalyzeCapitalEfficiency(d: FinancialData, env: Env) returns (q: QualityScore)
    ensures q == Assemble(CapitalEfficiency, CapitalEfficiencyRules(d), d, env)
    ensures 0.0 <= q.score <= 10.0
  {
    var t0 := Start();
    var t1 := ScoreRoce(d, t0);
    var t2 := ScoreRoa(d, t1);
    var t3 := ScoreAssetTurnover(d, t2);
    var a, b, c := RoceLevel(d) + RoceConsistency(d), RoaLevel(d), AssetTurnover(d);
    ApplyConcat(t0, a, b);
    ApplyConcat(t0, a + b, c);
    q := Finish(CapitalEfficiency, t3, d, env);
  }

  // ------------------------------------------------------ quality of earnings

  /** Accruals and operating cash flow summed over the profitable years;
      pairs are (net income, operating cash flow). */
  function AccrualSums(ps: seq<(real, real)>): (real, real)
  {
    if ps == [] then (0.0, 0.0)
    else
      var (acc, ocf) := AccrualSums(ps[..|ps| - 1]);
      var p := ps[|ps| - 1];
      if p.0 > 0.0 then (acc + (p.0 - p.1), ocf + p.1) else (acc, ocf)
  }

  function AccrualLevel(d: FinancialData): Rules
  {
    if d.operating_cash_flow == [] || d.net_income == [] then []
    else
      var (accruals, ocf) := AccrualSums(Zip(Values(d.net_income), Values(d.operating_cash_flow)));
      if ocf > 0.0 then
        var ratio := accruals / ocf;
        if ratio < 0.0 then [Adjustment(2.0, Strength("High cash conversion - earnings backed by cash"))]
        else if ratio > 0.5 then [Adjustment(-2.0, Concern("High accruals - earnings quality concerns"))]
        else When(ratio > 0.3, -1.0, Concern("Moderate accruals in earnings"))
      else []
  }

  /** The coefficient of variation (standard deviation over mean, for a
      positive mean) below 0.2, stated on the variance. */
  predicate StableEarnings(profits: seq<real>, mean: real)
    requires |profits| > 0
  {
    Variance(profits) < 0.04 * mean * mean
  }

  /** The coefficient of variation above 0.5, stated on the variance. */
  predicate VolatileEarnings(profits: seq<real>, mean: real)
    requires |profits| > 0
  {
    Variance(profits) > 0.25 * mean * mean
  }

  function EarningsStability(d: FinancialData): Rules
  {
    if |d.net_income| < 3 then []
    else
      var profits := Values(d.net_income);
      var avg := Average(profits);
      if avg > 0.0 then
        if StableEarnings(profits, avg) then [Adjustment(1.0, Strength("Stable and predictable earnings"))]
        else When(VolatileEarnings(profits, avg), -1.0, Concern("High earnings volatility"))
      else []
  }

  function MarginStability(d: FinancialData): Rules
  {
    if |d.operating_margin| < 2 then []
    else
      var margins := Values(d.operating_margin);
      var range := MaxOf(margins) - MinOf(margins);
      if range < 3.0 then [Adjustment(0.5, Strength("Stable margins indicating consistent business model"))]
      else When(range > 10.0, 0.0, Concern("Volatile margins - business model stability concerns"))
  }

  function QualityOfEarningsRules(d: FinancialData): Rules
  {
    AccrualLevel(d) + EarningsStability(d) + MarginStability(d)
  }

  /** The accruals loop over the years both series cover. */
  method AccrualTotals(ni: seq<real>, ocf: seq<real>) returns (totalAccruals: real, totalOcf: real)
    ensures (totalAccruals, totalOcf) == AccrualSums(Zip(ni, ocf))
  {
    ghost var pairs := Zip(ni, ocf);
    var years := if |ocf| < |ni| then |ocf| else |ni|;
    totalAccruals, totalOcf := 0.0, 0.0;
    var i := 0;
    while i < years
      invariant 0 <= i <= years && years == |pairs|
      invariant (totalAccruals, totalOcf) == AccrualSums(pairs[..i])
    {
      assert pairs[..i + 1][..i] == pairs[..i];
      assert pairs[..i + 1][i] == (ni[i], ocf[i]);
      if ni[i] > 0.0 {
        var accrual := ni[i] - ocf[i];
        totalAccruals := totalAccruals + accrual;
        totalOcf := totalOcf + ocf[i];
      }
      i := i + 1;
    }
    assert pairs[..years] == pairs;
  }

  method ScoreAccruals(d: FinancialData, t: Tally) returns (r: Tally)
    ensures r == Apply(t, AccrualLevel(d))
  {
    var score, strengths, concerns := t.score, t.strengths, t.concerns;
    ghost var rs := AccrualLevel(d);
    ApplyNothing(t);
    r := t;
    if d.operating_cash_flow != [] && d.net_income != [] {
      var totalAccruals, totalOcf := AccrualTotals(Values(d.net_income), Values(d.operating_cash_flow));
      if totalOcf > 0.0 {
        var accrualRatio := totalAccruals / totalOcf;
        if accrualRatio < 0.0 {
          score := score + 2.0;
          strengths := strengths + ["High cash conversion - earnings backed by cash"];
          r := Tally(score, strengths, concerns);
          assert rs == [Adjustment(2.0, Strength("High cash conversion - earnings backed by cash"))];
          ApplyStrength(t, 2.0, "High cash conversion - earnings backed by cash");
        } else if accrualRatio > 0.5 {
          score := score - 2.0;
          concerns := concerns + ["High accruals - earnings quality concerns"];
          r := Tally(score, strengths, concerns);
          assert rs == [Adjustment(-2.0, Concern("High accruals - earnings quality concerns"))];
          ApplyConcern(t, -2.0, "High accruals - earnings quality concerns");
        } else if accrualRatio > 0.3 {
          score := score - 1.0;
          concerns := concerns + ["Moderate accruals in earnings"];
          r := Tally(score, strengths, concerns);
          assert rs == [Adjustment(-1.0, Concern("Moderate accruals in earnings"))];
          ApplyConcern(t, -1.0, "Moderate accruals in earnings");
        } else {
          assert rs == [];
        }
      } else {
        assert rs == [];
      }
    } else {
      assert rs == [];
    }
  }

  method ScoreEarningsStability(d: FinancialData, t: Tally) returns (r: Tally)
    ensures r == Apply(t, EarningsStability(d))
  {
    var score, strengths, concerns := t.score, t.strengths, t.concerns;
    ghost var rs := EarningsStability(d);
    ApplyNothing(t);
    r := t;
    if d.net_income != [] && |d.net_income| >= 3 {
      var profits := Values(d.net_income);
      var avgProfit := Sum(profits) / |profits| as real;
      if avgProfit > 0.0 {
        var variance := SumSquaredDeviation(profits, avgProfit) / |profits| as real;
        if variance < 0.04 * avgProfit * avgProfit {
          score := score + 1.0;
          strengths := strengths + ["Stable and predictable earnings"];
          r := Tally(score, strengths, concerns);
          assert rs == [Adjustment(1.0, Strength("Stable and predictable earnings"))];
          ApplyStrength(t, 1.0, "Stable and predictable earnings");
        } else if variance > 0.25 * avgProfit * avgProfit {
          score := score - 1.0;
          concerns := concerns + ["High earnings volatility"];
          r := Tally(score, strengths, concerns);
          assert rs == [Adjustment(-1.0, Concern("High earnings volatility"))];
          ApplyConcern(t, -1.0, "High earnings volatility");
        } else {
          assert rs == [];
        }
      } else {
        assert rs == [];
      }
    } else {
      assert rs == [];
    }
  }

  method ScoreMarginStability(d: FinancialData, t: Tally) returns (r: Tally)
    ensures r == Apply(t, MarginStability(d))
  {
    var score, strengths, concerns := t.score, t.strengths, t.concerns;
    ghost var rs := MarginStability(d);
    ApplyNothing(t);
    r := t;
    if d.operating_margin != [] && |d.operating_margin| >= 2 {
      var margins := Values(d.operating_margin);
      var marginRange := MaxOf(margins) - MinOf(margins);
      if marginRange < 3.0 {
        score := score + 0.5;
        strengths := strengths + ["Stable margins indicating consistent business model"];
        r := Tally(score, strengths, concerns);
        assert rs == [Adjustment(0.5, Strength("Stable margins indicating consistent business model"))];
        ApplyStrength(t, 0.5, "Stable margins indicating consistent business model");
      } else if marginRange > 10.0 {
        concerns := concerns + ["Volatile margins - business model stability concerns"];
        r := Tally(score, strengths, concerns);
        assert rs == [Adjustment(0.0, Concern("Volatile margins - business model stability concerns"))];
        ApplyConcern(t, 0.0, "Volatile margins - business model stability concerns");
      } else {
        assert rs == [];
      }
    } else {
      assert rs == [];
    }
  }

  method AnalyzeEarningsQuality(d: FinancialData, env: Env) returns (q: QualityScore)
    ensures q == Assemble(QualityOfEarnings, QualityOfEarningsRules(d), d, env)
    ensures 0.0 <= q.score <= 10.0
  {
    var t0 := Start();
    var t1 := ScoreAccruals(d, t0);
    var t2 := ScoreEarningsStability(d, t1);
    var t3 := ScoreMarginStability(d, t2);
    var a, b, c := AccrualLevel(d), EarningsStability(d), MarginStability(d);
    ApplyConcat(t0, a, b);
    ApplyConcat(t0, a + b, c);
    q := Finish(QualityOfEarnings, t3, d, env);
  }

  // --------------------------------------------------------------- governance

  function DividendPolicy(d: FinancialData): Rules
  {
    if d.dividend_yield == 0.0 then []
    else if d.dividend_yield > 2.0 then [Adjustment(1.0, Strength("Regular dividend payer (" + F1(d.dividend_yield) + "% yield)"))]
    else When(d.dividend_yield > 0.5, 0.0, Strength("Maintains dividend payments"))
  }

  function ReportingConsistency(d: FinancialData): Rules
  {
    When(d.revenue != [] && |d.revenue| >= d.years_analyzed, 0.5, Strength("Consistent financial reporting"))
  }

  function FcfDiscipline(d: FinancialData): Rules
  {
    When(d.free_cash_flow != [] && Count(Values(d.free_cash_flow), IsPositive) == |d.free_cash_flow|,
         1.0, Strength("Positive FCF indicates disciplined capital allocation"))
  }

  /** A profitable, cash-generating year whose net income exceeds 1.5 times
      its operating cash flow; pairs are (net income, operating cash flow). */
  predicate IncomeOutrunsCash(p: (real, real)) { p.0 > 0.0 && p.1 > 0.0 && p.0 > p.1 * 1.5 }

  function AggressiveAccounting(d: FinancialData): Rules
  {
    if d.net_income == [] || d.operating_cash_flow == [] then []
    else When(Count(Zip(Values(d.net_income), Values(d.operating_cash_flow)), IncomeOutrunsCash) >= 2,
              -1.0, Concern("Pattern of net income significantly exceeding cash flow"))
  }

  function GovernanceRules(d: FinancialData): Rules
  {
    DividendPolicy(d) + ReportingConsistency(d) + FcfDiscipline(d) + AggressiveAccounting(d)
  }

  method ScoreDividendPolicy(d: FinancialData, t: Tally) returns (r: Tally)
    ensures r == Apply(t, DividendPolicy(d))
  {
    var score, strengths, concerns := t.score, t.strengths, t.concerns;
    ghost var rs := DividendPolicy(d);
    ApplyNothing(t);
    r := t;
    if d.dividend_yield != 0.0 {
      if d.dividend_yield > 2.0 {
        score := score + 1.0;
        strengths := strengths + ["Regular dividend payer (" + F1(d.dividend_yield) + "% yield)"];
        r := Tally(score, strengths, concerns);
        assert rs == [Adjustment(1.0, Strength("Regular dividend payer (" + F1(d.dividend_yield) + "% yield)"))];
        ApplyStrength(t, 1.0, "Regular dividend payer (" + F1(d.dividend_yield) + "% yield)");
      } else if d.dividend_yield > 0.5 {
        strengths := strengths + ["Maintains dividend payments"];
        r := Tally(score, strengths, concerns);
        assert rs == [Adjustment(0.0, Strength("Maintains dividend payments"))];
        ApplyStrength(t, 0.0, "Maintains dividend payments");
      } else {
        assert rs == [];
      }
    } else {
      assert rs == [];
    }
  }

  method ScoreReporting(d: FinancialData, t: Tally) returns (r: Tally)
    ensures r == Apply(t, ReportingConsistency(d))
  {
    var score, strengths, concerns := t.score, t.strengths, t.concerns;
    ghost var rs := ReportingConsistency(d);
    ApplyNothing(t);
    r := t;
    if d.revenue != [] && |d.revenue| >= d.years_analyzed {
      score := score + 0.5;
      strengths := strengths + ["Consistent financial reporting"];
      r := Tally(score, strengths, concerns);
      assert rs == [Adjustment(0.5, Strength("Consistent financial reporting"))];
      ApplyStrength(t, 0.5, "Consistent financial reporting");
    } else {
      assert rs == [];
    }
  }

  method ScoreFcfDiscipline(d: FinancialData, t: Tally) returns (r: Tally)
    ensures r == Apply(t, FcfDiscipline(d))
  {
    var score, strengths, concerns := t.score, t.strengths, t.concerns;
    ghost var rs := FcfDiscipline(d);
    ApplyNothing(t);
    r := t;
    if d.free_cash_flow != [] {
      var fcfValues := Values(d.free_cash_flow);
      var positiveFcf := Count(fcfValues, IsPositive);
      if positiveFcf == |fcfValues| {
        score := score + 1.0;
        strengths := strengths + ["Positive FCF indicates disciplined capital allocation"];
        r := Tally(score, strengths, concerns);
        assert rs == [Adjustment(1.0, Strength("Positive FCF indicates disciplined capital allocation"))];
        ApplyStrength(t, 1.0, "Positive FCF indicates disciplined capital allocation");
      } else {
        assert rs == [];
      }
    } else {
      assert rs == [];
    }
  }

  method ScoreAggressiveAccounting(d: FinancialData, t: Tally) returns (r: Tally)
    ensures r == Apply(t, AggressiveAccounting(d))
  {
    var score, strengths, concerns := t.score, t.strengths, t.concerns;
    ghost var rs := AggressiveAccounting(d);
    ApplyNothing(t);
    r := t;
    if d.net_income != [] && d.operating_cash_flow != [] {
      var concernYears := CountPairs(Values(d.net_income), Values(d.operating_cash_flow), IncomeOutrunsCash);
      if concernYears >= 2 {
        score := score - 1.0;
        concerns := concerns + ["Pattern of net income significantly exceeding cash flow"];
        r := Tally(score, strengths, concerns);
        assert rs == [Adjustment(-1.0, Concern("Pattern of net income significantly exceeding cash flow"))];
        ApplyConcern(t, -1.0, "Pattern of net income significantly exceeding cash flow");
      } else {
        assert rs == [];
      }
    } else {
      assert rs == [];
    }
  }

  method AnalyzeGovernance(d: FinancialData, env: Env) returns (q: QualityScore)
    ensures q == Assemble(Governance, GovernanceRules(d), d, env)
    ensures 0.0 <= q.score <= 10.0
  {
    var t0 := Start();
    var t1 := ScoreDividendPolicy(d, t0);
    var t2 := ScoreReporting(d, t1);
    var t3 := ScoreFcfDiscipline(d, t2);
    var t4 := ScoreAggressiveAccounting(d, t3);
    var a, b, c, e := DividendPolicy(d), ReportingConsistency(d), FcfDiscipline(d), AggressiveAccounting(d);
    ApplyConcat(t0, a, b);
    ApplyConcat(t0, a + b, c);
    ApplyConcat(t0, a + b + c, e);
    q := Finish(Governance, t4, d, env);
  }

  /** The rule table of a category. */
  function RulesFor(c: Category, d: FinancialData, env: Env): Rules
  {
    match c
    case Profitability => ProfitabilityRules(d)
    case Growth => GrowthRules(d, env)
    case FinancialHealth => FinancialHealthRules(d)
    case CashManagement => CashManagementRules(d)
    case CapitalEfficiency => CapitalEfficiencyRules(d)
    case QualityOfEarnings => QualityOfEarningsRules(d)
    case Governance => GovernanceRules(d)
  }

  /** Runs the scorer of one category. */
  method AnalyzeCategory(c: Category, d: FinancialData, env: Env) returns (q: QualityScore)
    ensures q == Assemble(c, RulesFor(c, d, env), d, env)
    ensures q.category == CategoryName(c) && q.weight == CategoryWeight(c) && 0.0 <= q.score <= 10.0
  {
    match c
    case Profitability => q := AnalyzeProfitability(d, env);
    case Growth => q := AnalyzeGrowth(d, env);
    case FinancialHealth => q := AnalyzeFinancialHealth(d, env);
    case CashManagement => q := AnalyzeCashManagement(d, env);
    case CapitalEfficiency => q := AnalyzeCapitalEfficiency(d, env);
    case QualityOfEarnings => q := AnalyzeEarningsQuality(d, env);
    case Governance => q := AnalyzeGovernance(d, env);
  }

  // ----------------------------------------------------------------- properties

  /** No series the scorers read holds a value. */
  predicate NoSeries(d: FinancialData)
  {
    d.revenue == [] && d.net_income == [] && d.operating_margin == [] && d.net_margin == []
    && d.roe == [] && d.roa == [] && d.roce == [] && d.debt_to_equity == []
    && d.interest_coverage == [] && d.current_ratio == [] && d.total_debt == []
    && d.shareholders_equity == [] && d.total_assets == []
    && d.operating_cash_flow == [] && d.free_cash_flow == []
  }

  /** A record without data and without a dividend fires no rule at all, so
      every category score is exactly 5.0 with no notes. */
  lemma EmptyRecordFiresNothing(d: FinancialData, env: Env)
    requires NoSeries(d) && d.dividend_yield == 0.0
    ensures ProfitabilityRules(d) == [] && GrowthRules(d, env) == [] && FinancialHealthRules(d) == []
    ensures CashManagementRules(d) == [] && CapitalEfficiencyRules(d) == []
    ensures QualityOfEarningsRules(d) == [] && GovernanceRules(d) == []
    ensures forall c :: RulesFor(c, d, env) == []
  {
    NoTurnovers(d.revenue, d.total_assets);
  }

  /** Operating cash flow earns its +2 exactly when every year is positive. */
  lemma OcfConsistencyIff(d: FinancialData)
    ensures (OcfConsistency(d) == [Adjustment(2.0, Strength("Consistently positive operating cash flow"))])
        <==> (d.operating_cash_flow != [] && All(Values(d.operating_cash_flow), IsPositive))
  {
    CountAll(Values(d.operating_cash_flow), IsPositive);
  }

  /** Free cash flow costs a point exactly when no year is positive. */
  lemma FcfNegativeIff(d: FinancialData)
    ensures (FcfConsistency(d) == [Adjustment(-1.0, Concern("Negative free cash flow across all years"))])
        <==> (d.free_cash_flow != [] && forall i :: 0 <= i < |d.free_cash_flow| ==> !IsPositive(d.free_cash_flow[i].1))
  {
    var v := Values(d.free_cash_flow);
    CountNone(v, IsPositive);
    if d.free_cash_flow != [] && Count(v, IsPositive) == 0 {
      assert !IsPositive(v[0]);
      assert Count(v, IsPositive) != |v|;
    }
  }

  /** The variance tests are the coefficient-of-variation tests: for a
      positive mean and a standard deviation `sd` (a non-negative root of the
      variance), `sd / mean < 0.2` and `sd / mean > 0.5` hold exactly when
      the variance tests do. */
  lemma CoefficientOfVariation(profits: seq<real>, sd: real)
    requires |profits| > 0 && Average(profits) > 0.0
    requires sd >= 0.0 && sd * sd == Variance(profits)
    ensures StableEarnings(profits, Average(profits)) <==> sd / Average(profits) < 0.2
    ensures VolatileEarnings(profits, Average(profits)) <==> sd / Average(profits) > 0.5
  {
    var m := Average(profits);
    assert 0.04 * m * m == (0.2 * m) * (0.2 * m);
    assert 0.25 * m * m == (0.5 * m) * (0.5 * m);
    RatioBelow(sd, m, 0.2);
    RatioAbove(sd, m, 0.5);
  }

  lemma RatioBelow(sd: real, m: real, k: real)
    requires sd >= 0.0 && m > 0.0 && k > 0.0
    ensures sd * sd < (k * m) * (k * m) <==> sd / m < k
  {
    var km := k * m;
    var q := sd / m;
    assert q * m == sd;
    if q < k {
      assert sd < km;
      var lo, mid, hi := sd * sd, sd * km, km * km;
      assert lo <= mid && mid < hi;
    } else {
      assert sd >= km;
      var lo, mid, hi := km * km, km * sd, sd * sd;
      assert lo <= mid && mid <= hi;
    }
  }

  lemma RatioAbove(sd: real, m: real, k: real)
    requires sd >= 0.0 && m > 0.0 && k > 0.0
    ensures sd * sd > (k * m) * (k * m) <==> sd / m > k
  {
    var km := k * m;
    var q := sd / m;
    assert q * m == sd;
    if q > k {
      assert sd > km;
      var lo, mid, hi := km * km, sd * km, sd * sd;
      assert lo < mid && mid <= hi;
    } else {
      assert sd <= km;
      var lo, mid, hi := sd * sd, km * sd, km * km;
      assert lo <= mid && mid <= hi;
    }
  }

  lemma TwentyPercent()
    ensures Pct1(20.0) == "20.0%"
  {
    assert RoundHalfEven(200.0) == 200;
    assert NatToString(200) == "200";
  }

  lemma ExampleMarginLevel(d: FinancialData)
    requires d.operating_margin == [("2024", 22.0), ("2023", 18.0)]
    ensures OperatingMarginLevel(d) == [Adjustment(1.0, Strength("Healthy operating margin of 20.0%"))]
  {
    assert Values(d.operating_margin) == [22.0, 18.0];
    assert Sum([22.0, 18.0]) == 40.0 by { assert [22.0, 18.0][..1] == [22.0]; }
    assert Avg(d.operating_margin) == 20.0;
    TwentyPercent();
    assert "Healthy operating margin of " + Pct1(20.0) == "Healthy operating margin of 20.0%";
  }

  lemma ExampleOtherRules(d: FinancialData)
    requires d.operating_margin == [("2024", 22.0), ("2023", 18.0)]
    requires d.net_margin == [("2024", 16.0)] && d.roe == [("2024", 25.0)]
    ensures TotalDelta(OperatingMarginTrend(d)) == 0.5
    ensures TotalDelta(NetMarginLevel(d)) == 1.0 && TotalDelta(RoeLevel(d)) == 1.0
  {
    assert Values(d.net_margin) == [16.0] && Sum([16.0]) == 16.0;
    assert Values(d.roe) == [25.0] && Sum([25.0]) == 25.0;
  }

  /** A worked example: margins of 22% and 18%, a 16% net margin and a 25% ROE
      average a 20.0% operating margin, which is "healthy" rather than
      "strong", and lift the profitability score to 8.5. */
  lemma ProfitabilityExample(d: FinancialData, env: Env)
    requires d.operating_margin == [("2024", 22.0), ("2023", 18.0)]
    requires d.net_margin == [("2024", 16.0)] && d.roe == [("2024", 25.0)]
    ensures Assemble(Profitability, ProfitabilityRules(d), d, env).score == 8.5
    ensures var strengths := Assemble(Profitability, ProfitabilityRules(d), d, env).strengths;
      |strengths| > 0 && strengths[0] == "Healthy operating margin of 20.0%"
  {
    var a, b, c, e := OperatingMarginLevel(d), OperatingMarginTrend(d), NetMarginLevel(d), RoeLevel(d);
    ExampleMarginLevel(d);
    ExampleOtherRules(d);
    var rest := b + c + e;
    assert a + b + c + e == a + rest;
    TotalDeltaConcat(b, c);
    TotalDeltaConcat(b + c, e);
    TotalDeltaConcat(a, rest);
    StrengthsConcat(a, rest);
    var rs := ProfitabilityRules(d);
    assert rs == a + rest;
    assert TotalDelta(rs) == 3.5;
    assert StrengthsOf(a) == ["Healthy operating margin of 20.0%"];
    assert StrengthsOf(rs)[0] == "Healthy operating margin of 20.0%";
    var q := Assemble(Profitability, rs, d, env);
    assert q.score == 8.5;
  }
}
