/** The rule-based quality analyzer: the seven category scores, their
    weighted composite, the key strengths and the red flags of a report. */
module Analyzer {
  import opened Wrappers
  import opened Text
  import opened Numbers
  import opened Dicts
  import opened FinancialModel
  import opened ReportTypes
  import opened Scoring

  // ----------------------------------------------------------- overall score

  function WeightedTotal(cs: seq<QualityScore>): real
  {
    if cs == [] then 0.0 else WeightedTotal(cs[..|cs| - 1]) + Contribution(cs[|cs| - 1])
  }

  function WeightTotal(cs: seq<QualityScore>): real
  {
    if cs == [] then 0.0 else WeightTotal(cs[..|cs| - 1]) + cs[|cs| - 1].weight
  }

  /** The weighted mean of the category scores rounded to one decimal, or 5.0
      when the weights sum to nothing. */
  function OverallScoreOf(cs: seq<QualityScore>): real
  {
    if WeightTotal(cs) > 0.0 then Round1(WeightedTotal(cs) / WeightTotal(cs)) else 5.0
  }

  /** Every score within [0, 10] and every weight non-negative. */
  predicate InRange(cs: seq<QualityScore>)
  {
    forall i :: 0 <= i < |cs| ==> 0.0 <= cs[i].score <= 10.0 && cs[i].weight >= 0.0
  }

  lemma ContributionBounds(q: QualityScore)
    requires 0.0 <= q.score <= 10.0 && q.weight >= 0.0
    ensures 0.0 <= Contribution(q) <= 10.0 * q.weight
  {
    var gap := (10.0 - q.score) * q.weight;
    assert gap >= 0.0;
    assert 10.0 * q.weight - q.score * q.weight == gap;
  }

  lemma RatioBounds(a: real, w: real)
    requires w > 0.0 && 0.0 <= a <= 10.0 * w
    ensures 0.0 <= a / w <= 10.0
  {
  }

  lemma {:induction false} WeightedTotalBounds(cs: seq<QualityScore>)
    requires InRange(cs)
    ensures WeightTotal(cs) >= 0.0
    ensures 0.0 <= WeightedTotal(cs) <= 10.0 * WeightTotal(cs)
  {
    if cs != [] {
      var prefix := cs[..|cs| - 1];
      assert InRange(prefix);
      WeightedTotalBounds(prefix);
      ContributionBounds(cs[|cs| - 1]);
    }
  }

  /** For scores within [0, 10] the composite is within [0, 10] too. */
  lemma OverallScoreInRange(cs: seq<QualityScore>)
    requires InRange(cs)
    ensures 0.0 <= OverallScoreOf(cs) <= 10.0
  {
    WeightedTotalBounds(cs);
    if WeightTotal(cs) > 0.0 {
      RatioBounds(WeightedTotal(cs), WeightTotal(cs));
    }
  }

  method CalculateOverallScore(cs: seq<QualityScore>) returns (r: real)
    ensures r == OverallScoreOf(cs)
    ensures InRange(cs) ==> 0.0 <= r <= 10.0
  {
    var totalScore := 0.0;
    var totalWeight := 0.0;
    var i := 0;
    while i < |cs|
      invariant 0 <= i <= |cs|
      invariant totalScore == WeightedTotal(cs[..i]) && totalWeight == WeightTotal(cs[..i])
    {
      assert cs[..i + 1][..i] == cs[..i];
      totalScore := totalScore + cs[i].score * cs[i].weight;
      assert Contribution(cs[i]) == cs[i].score * cs[i].weight;
      totalWeight := totalWeight + cs[i].weight;
      i := i + 1;
    }
    assert cs[..|cs|] == cs;
    if totalWeight > 0.0 {
      r := Round1(totalScore / totalWeight);
    } else {
      r := 5.0;
    }
    if InRange(cs) {
      OverallScoreInRange(cs);
    }
  }

  // ----------------------------------------------------- ordering by score

  /** Category `i` precedes category `j` in `sorted(..., key=score,
      reverse=True)`: a higher score first, equal scores in list order. */
  predicate Before(cs: seq<QualityScore>, i: nat, j: nat)
  {
    i < |cs| && j < |cs| && (cs[i].score > cs[j].score || (cs[i].score == cs[j].score && i < j))
  }

  lemma BeforeTransitive(cs: seq<QualityScore>, i: nat, j: nat, k: nat)
    requires Before(cs, i, j) && Before(cs, j, k)
    ensures Before(cs, i, k)
  {
  }

  predicate SortedBy(cs: seq<QualityScore>, xs: seq<nat>)
  {
    forall p, q :: 0 <= p < q < |xs| ==> Before(cs, xs[p], xs[q])
  }

  /** Inserts index `i` ahead of the first index it precedes. */
  function Insert(cs: seq<QualityScore>, i: nat, xs: seq<nat>): (r: seq<nat>)
    ensures |r| == |xs| + 1
    ensures forall x :: x in r <==> x == i || x in xs
    ensures forall k :: 0 <= k < |r| ==> r[k] == i || r[k] in xs
  {
    if xs == [] then [i]
    else if Before(cs, i, xs[0]) then [i] + xs
    else [xs[0]] + Insert(cs, i, xs[1..])
  }

  lemma {:induction false} InsertSorted(cs: seq<QualityScore>, i: nat, xs: seq<nat>)
    requires i < |cs| && SortedBy(cs, xs) && i !in xs
    requires forall x :: x in xs ==> x < |cs|
    ensures SortedBy(cs, Insert(cs, i, xs))
  {
    if xs != [] && !Before(cs, i, xs[0]) {
      assert xs[0] in xs;
      assert Before(cs, xs[0], i);
      assert SortedBy(cs, xs[1..]);
      InsertSorted(cs, i, xs[1..]);
      var r := Insert(cs, i, xs);
      forall p, q | 0 <= p < q < |r|
        ensures Before(cs, r[p], r[q])
      {
        if p == 0 {
          var y := r[q];
          assert y in Insert(cs, i, xs[1..]);
          if y != i {
            assert y in xs[1..];
            var m :| 1 <= m < |xs| && xs[m] == y;
          }
        }
      }
    }
  }

  /** The stable descending order of the first `n` categories, as indices. */
  function SortOrder(cs: seq<QualityScore>, n: nat): (r: seq<nat>)
    requires n <= |cs|
    ensures |r| == n
    ensures forall x: int :: x in r <==> 0 <= x < n
    ensures forall k :: 0 <= k < |r| ==> r[k] < n
  {
    if n == 0 then [] else Insert(cs, n - 1, SortOrder(cs, n - 1))
  }

  lemma {:induction false} SortOrderSorted(cs: seq<QualityScore>, n: nat)
    requires n <= |cs|
    ensures SortedBy(cs, SortOrder(cs, n))
  {
    if n > 0 {
      SortOrderSorted(cs, n - 1);
      InsertSorted(cs, n - 1, SortOrder(cs, n - 1));
    }
  }

  /** `sorted(category_scores, key=lambda x: x.score, reverse=True)` */
  function SortByScore(cs: seq<QualityScore>): (r: seq<QualityScore>)
    ensures |r| == |cs|
    ensures forall k :: 0 <= k < |r| ==> r[k] == cs[SortOrder(cs, |cs|)[k]]
  {
    var order := SortOrder(cs, |cs|);
    seq(|order|, k requires 0 <= k < |order| => cs[order[k]])
  }

  /** The sort is a stable descending permutation: it lists every category
      exactly once, a higher score before a lower one, and equal scores in
      their original order. */
  lemma SortByScoreSpec(cs: seq<QualityScore>)
    ensures var order := SortOrder(cs, |cs|);
      && (forall x: int :: x in order <==> 0 <= x < |cs|)
      && (forall p, q :: 0 <= p < q < |order| ==> order[p] != order[q])
      && (forall p, q :: 0 <= p < q < |cs| ==> SortByScore(cs)[p].score >= SortByScore(cs)[q].score)
      && (forall p, q :: 0 <= p < q < |cs| && SortByScore(cs)[p].score == SortByScore(cs)[q].score
            ==> order[p] < order[q])
  {
    SortOrderSorted(cs, |cs|);
  }

  // ----------------------------------------------------------- key strengths

  /** `f"[{cs.category}] {strength}"` */
  function Tag(category: string, strength: string): string
  {
    "[" + category + "] " + strength
  }

  function Tagged(q: QualityScore): (r: seq<string>)
    ensures |r| == |q.strengths|
    ensures forall j :: 0 <= j < |r| ==> r[j] == Tag(q.category, q.strengths[j])
  {
    seq(|q.strengths|, j requires 0 <= j < |q.strengths| => Tag(q.category, q.strengths[j]))
  }

  /** Every strength of every category, tagged, in list order. */
  function AllStrengths(xs: seq<QualityScore>): seq<string>
  {
    if xs == [] then [] else AllStrengths(xs[..|xs| - 1]) + Tagged(xs[|xs| - 1])
  }

  /** For each entry of `AllStrengths(xs)`: the category's position in `xs`
      and the strength's position in that category. */
  function Sources(xs: seq<QualityScore>): seq<(nat, nat)>
  {
    if xs == [] then []
    else
      var p := |xs| - 1;
      Sources(xs[..p]) + seq(|xs[p].strengths|, j requires 0 <= j < |xs[p].strengths| => (p, j))
  }

  lemma {:induction false} SourcesSpec(xs: seq<QualityScore>)
    ensures |Sources(xs)| == |AllStrengths(xs)|
    ensures forall k :: 0 <= k < |Sources(xs)| ==>
      var (p, j) := Sources(xs)[k];
      p < |xs| && j < |xs[p].strengths| && AllStrengths(xs)[k] == Tag(xs[p].category, xs[p].strengths[j])
    ensures forall k, l :: 0 <= k <= l < |Sources(xs)| ==> Sources(xs)[k].0 <= Sources(xs)[l].0
  {
    if xs != [] {
      var p := |xs| - 1;
      SourcesSpec(xs[..p]);
      assert forall k :: 0 <= k < |Sources(xs[..p])| ==> Sources(xs[..p])[k].0 < p;
    }
  }

  /** `all_strengths[:8]` over the categories sorted by score. */
  function KeyStrengths(cs: seq<QualityScore>): seq<string>
  {
    Take(AllStrengths(SortByScore(cs)), 8)
  }

  /** Where each key strength comes from: an index into the original
      category list and an index into that category's strengths. */
  function KeySources(cs: seq<QualityScore>): seq<(nat, nat)>
  {
    var order := SortOrder(cs, |cs|);
    var src := Sources(SortByScore(cs));
    var n := |KeyStrengths(cs)|;
    seq(n, k requires 0 <= k < n => if k < |src| && src[k].0 < |order| then (order[src[k].0], src[k].1) else (0, 0))
  }

  /** At most eight key strengths, each a tagged strength of some category. */
  lemma KeyStrengthsTagged(cs: seq<QualityScore>)
    ensures |KeyStrengths(cs)| <= 8
    ensures |KeySources(cs)| == |KeyStrengths(cs)|
    ensures forall k :: 0 <= k < |KeyStrengths(cs)| ==>
      var (i, j) := KeySources(cs)[k];
      i < |cs| && j < |cs[i].strengths| && KeyStrengths(cs)[k] == Tag(cs[i].category, cs[i].strengths[j])
  {
    var sorted := SortByScore(cs);
    var order := SortOrder(cs, |cs|);
    SourcesSpec(sorted);
    var src := Sources(sorted);
    var ks := KeySources(cs);
    var r := KeyStrengths(cs);
    forall k | 0 <= k < |r|
      ensures ks[k].0 < |cs| && ks[k].1 < |cs[ks[k].0].strengths|
      ensures r[k] == Tag(cs[ks[k].0].category, cs[ks[k].0].strengths[ks[k].1])
    {
      var (p, j) := src[k];
      assert ks[k] == (order[p], j);
      assert sorted[p] == cs[order[p]];
      assert r[k] == AllStrengths(sorted)[k];
    }
  }

  /** The key strengths are taken from the categories in descending score
      order and, among equal scores, in the original category order. */
  lemma KeyStrengthsOrdered(cs: seq<QualityScore>)
    ensures |KeySources(cs)| == |KeyStrengths(cs)|
    ensures forall k, l :: 0 <= k < l < |KeyStrengths(cs)| ==>
      var (i, i') := (KeySources(cs)[k].0, KeySources(cs)[l].0);
      i < |cs| && i' < |cs| && cs[i].score >= cs[i'].score && (cs[i].score == cs[i'].score ==> i <= i')
  {
    var sorted := SortByScore(cs);
    var order := SortOrder(cs, |cs|);
    SourcesSpec(sorted);
    SortOrderSorted(cs, |cs|);
    var src := Sources(sorted);
    var ks := KeySources(cs);
    var r := KeyStrengths(cs);
    forall k, l | 0 <= k < l < |r|
      ensures ks[k].0 < |cs| && ks[l].0 < |cs|
      ensures cs[ks[k].0].score >= cs[ks[l].0].score
      ensures cs[ks[k].0].score == cs[ks[l].0].score ==> ks[k].0 <= ks[l].0
    {
      var p, q := src[k].0, src[l].0;
      assert p <= q;
      assert ks[k].0 == order[p] && ks[l].0 == order[q];
      if p < q {
        assert Before(cs, order[p], order[q]);
      }
    }
  }

  method IdentifyKeyStrengths(cs: seq<QualityScore>) returns (r: seq<string>)
    ensures r == KeyStrengths(cs)
  {
    var sortedScores := SortByScore(cs);
    var allStrengths: seq<string> := [];
    var i := 0;
    while i < |sortedScores|
      invariant 0 <= i <= |sortedScores|
      invariant allStrengths == AllStrengths(sortedScores[..i])
    {
      var q := sortedScores[i];
      ghost var before := allStrengths;
      var j := 0;
      while j < |q.strengths|
        invariant 0 <= j <= |q.strengths|
        invariant allStrengths == before + Tagged(q)[..j]
      {
        assert Tagged(q)[..j + 1] == Tagged(q)[..j] + [Tag(q.category, q.strengths[j])];
        allStrengths := allStrengths + [Tag(q.category, q.strengths[j])];
        j := j + 1;
      }
      assert Tagged(q)[..j] == Tagged(q);
      assert sortedScores[..i + 1][..i] == sortedScores[..i];
      i := i + 1;
    }
    assert sortedScores[..|sortedScores|] == sortedScores;
    r := Take(allStrengths, 8);
  }

  // --------------------------------------------------------------- red flags

  /** A year whose revenue is below the year before it; pairs are
      (newer, older). */
  predicate Declined(p: (real, real)) { p.0 < p.1 }

  /** A profitable, cash-generating year whose net income exceeds twice its
      operating cash flow; pairs are (net income, operating cash flow). */
  predicate IncomeFarExceedsCash(p: (real, real)) { p.0 > 0.0 && p.1 > 0.0 && p.0 > p.1 * 2.0 }

  /** The flags of the five data-driven checks. */
  const RevenueDeclineFlag := RedFlag("High", "Growth", "Revenue declining for multiple consecutive years",
                                     "May indicate loss of competitive position or market share",
                                     "Investigate reasons for revenue decline and management's turnaround plans")

  function GrowthFlag(d: FinancialData): seq<RedFlag>
  {
    if |d.revenue| >= 3 && Count(Adjacent(Values(d.revenue)), Declined) >= 2 then [RevenueDeclineFlag] else []
  }

  const UnprofitableFlag := RedFlag("High", "Profitability", "Company has been consistently unprofitable",
                                    "Cash burn may require additional funding, diluting shareholders",
                                    "Assess path to profitability and cash runway")

  function ProfitabilityFlag(d: FinancialData): seq<RedFlag>
  {
    if d.net_income != [] && All(Values(d.net_income), IsNegative) then [UnprofitableFlag] else []
  }

  function DebtSeverity(de: real): string { if de > 3.0 then "High" else "Medium" }

  /** The debt flag states the ratio and is High above 3. */
  function HighDebtFlag(de: real): RedFlag
  {
    RedFlag(DebtSeverity(de), "Financial Health", "High debt-to-equity ratio of " + F2(de),
            "High interest burden and vulnerability to rising rates",
            "Monitor debt covenants and refinancing risk")
  }

  function DebtFlag(d: FinancialData): seq<RedFlag>
  {
    if d.debt_to_equity != [] && First(d.debt_to_equity) > 2.0 then [HighDebtFlag(First(d.debt_to_equity))] else []
  }

  const NegativeCashFlag := RedFlag("High", "Cash Management", "Negative operating cash flow in multiple years",
                                    "Core business not generating cash - sustainability concerns",
                                    "Analyze working capital and cash conversion cycle")

  function CashFlag(d: FinancialData): seq<RedFlag>
  {
    if d.operating_cash_flow != []
       && (Count(Values(d.operating_cash_flow), IsNegative) as real) >= (|d.operating_cash_flow| as real) / 2.0 then
      [NegativeCashFlag]
    else []
  }

  const IncomeOverCashFlag := RedFlag("Medium", "Earnings Quality", "Net income significantly exceeds operating cash flow",
                                      "Earnings may include non-cash items or aggressive accounting",
                                      "Review receivables aging and revenue recognition policies")

  function EarningsFlag(d: FinancialData): seq<RedFlag>
  {
    if d.net_income != [] && d.operating_cash_flow != []
       && Count(Zip(Values(d.net_income), Values(d.operating_cash_flow)), IncomeFarExceedsCash) >= 2 then
      [IncomeOverCashFlag]
    else []
  }

  /** The five data-driven checks, in the order they are made. */
  function FixedFlags(d: FinancialData): seq<RedFlag>
  {
    GrowthFlag(d) + ProfitabilityFlag(d) + DebtFlag(d) + CashFlag(d) + EarningsFlag(d)
  }

  /** A concern of a weak category restated as a flag. */
  function ConcernFlag(category: string, concern: string): RedFlag
  {
    RedFlag("Medium", category, concern,
            "Below-average performance in " + Lower(category),
            "Deep-dive analysis of " + Lower(category) + " required")
  }

  function ConcernFlagsFor(q: QualityScore): (r: seq<RedFlag>)
    ensures |r| <= 2
  {
    if q.score < 4.0 then
      var cs := Take(q.concerns, 2);
      seq(|cs|, j requires 0 <= j < |cs| => ConcernFlag(q.category, cs[j]))
    else []
  }

  /** The first two concerns of every category scoring below 4, in category
      order. */
  function ConcernFlags(cs: seq<QualityScore>): (r: seq<RedFlag>)
    ensures |r| <= 2 * |cs|
  {
    if cs == [] then [] else ConcernFlags(cs[..|cs| - 1]) + ConcernFlagsFor(cs[|cs| - 1])
  }

  function RedFlagsOf(d: FinancialData, cs: seq<QualityScore>): seq<RedFlag>
  {
    FixedFlags(d) + ConcernFlags(cs)
  }

  /** The loop counting the years whose revenue fell. */
  method DecliningYears(revenues: seq<real>) returns (n: nat)
    ensures n == Count(Adjacent(revenues), Declined)
  {
    n := 0;
    if |revenues| < 2 {
      return;
    }
    ghost var pairs := Adjacent(revenues);
    var i := 0;
    while i < |revenues| - 1
      invariant 0 <= i <= |revenues| - 1
      invariant n == Count(pairs[..i], Declined)
    {
      assert pairs[..i + 1][..i] == pairs[..i];
      assert pairs[..i + 1][i] == (revenues[i], revenues[i + 1]);
      if revenues[i] < revenues[i + 1] {
        n := n + 1;
      }
      i := i + 1;
    }
    assert pairs[..|revenues| - 1] == pairs;
  }

  /** The loop over the low-scoring categories. */
  method AddConcernFlags(flags: seq<RedFlag>, cs: seq<QualityScore>) returns (r: seq<RedFlag>)
    ensures r == flags + ConcernFlags(cs)
  {
    r := flags;
    var i := 0;
    while i < |cs|
      invariant 0 <= i <= |cs|
      invariant r == flags + ConcernFlags(cs[..i])
    {
      ConcernFlagsStep(cs, i);
      ghost var before := r;
      r := AddCategoryConcerns(r, cs[i]);
      assert before + ConcernFlagsFor(cs[i]) == flags + (ConcernFlags(cs[..i]) + ConcernFlagsFor(cs[i]));
      i := i + 1;
    }
    assert cs[..|cs|] == cs;
  }

  lemma ConcernFlagsStep(cs: seq<QualityScore>, i: nat)
    requires i < |cs|
    ensures ConcernFlags(cs[..i + 1]) == ConcernFlags(cs[..i]) + ConcernFlagsFor(cs[i])
  {
    assert cs[..i + 1][..i] == cs[..i];
  }

  /** The body of the loop: one flag for each of the first two concerns of
      a category scored below 4, none for any other category. */
  method AddCategoryConcerns(flags: seq<RedFlag>, q: QualityScore) returns (r: seq<RedFlag>)
    ensures r == flags + ConcernFlagsFor(q)
  {
    r := flags;
    if q.score >= 4.0 {
      assert ConcernFlagsFor(q) == [];
      return;
    }
    var first := Take(q.concerns, 2);
    var j := 0;
    while j < |first|
      invariant 0 <= j <= |first|
      invariant r == flags + ConcernFlagsFor(q)[..j]
    {
      assert ConcernFlagsFor(q)[..j + 1] == ConcernFlagsFor(q)[..j] + [ConcernFlag(q.category, first[j])];
      r := r + [ConcernFlag(q.category, first[j])];
      j := j + 1;
    }
    assert ConcernFlagsFor(q)[..j] == ConcernFlagsFor(q);
  }


  method CheckRevenueDecline(d: FinancialData, flags: seq<RedFlag>) returns (r: seq<RedFlag>)
    ensures r == flags + GrowthFlag(d)
  {
    r := flags;
    if d.revenue != [] && |d.revenue| >= 3 {
      var decliningYears := DecliningYears(Values(d.revenue));
      if decliningYears >= 2 {
        r := r + [RevenueDeclineFlag];
      }
    }
  }

  method CheckUnprofitable(d: FinancialData, flags: seq<RedFlag>) returns (r: seq<RedFlag>)
    ensures r == flags + ProfitabilityFlag(d)
  {
    r := flags;
    if d.net_income != [] {
      var profits := Values(d.net_income);
      if All(profits, IsNegative) {
        r := r + [UnprofitableFlag];
      }
    }
  }

  method CheckDebt(d: FinancialData, flags: seq<RedFlag>) returns (r: seq<RedFlag>)
    ensures r == flags + DebtFlag(d)
  {
    r := flags;
    if d.debt_to_equity != [] {
      var deValues := Values(d.debt_to_equity);
      if deValues != [] && deValues[0] > 2.0 {
        r := r + [HighDebtFlag(deValues[0])];
      }
    }
  }

  method CheckNegativeCashFlow(d: FinancialData, flags: seq<RedFlag>) returns (r: seq<RedFlag>)
    ensures r == flags + CashFlag(d)
  {
    r := flags;
    if d.operating_cash_flow != [] {
      var ocfValues := Values(d.operating_cash_flow);
      var negativeOcf := Count(ocfValues, IsNegative);
      if (negativeOcf as real) >= (|ocfValues| as real) / 2.0 {
        r := r + [NegativeCashFlag];
      }
    }
  }

  method CheckEarningsQuality(d: FinancialData, flags: seq<RedFlag>) returns (r: seq<RedFlag>)
    ensures r == flags + EarningsFlag(d)
  {
    r := flags;
    if d.net_income != [] && d.operating_cash_flow != [] {
      var concernYears := CountPairs(Values(d.net_income), Values(d.operating_cash_flow), IncomeFarExceedsCash);
      if concernYears >= 2 {
        r := r + [IncomeOverCashFlag];
      }
    }
  }

  method IdentifyRedFlags(d: FinancialData, cs: seq<QualityScore>) returns (flags: seq<RedFlag>)
    ensures flags == RedFlagsOf(d, cs)
  {
    var f1 := CheckRevenueDecline(d, []);
    var f2 := CheckUnprofitable(d, f1);
    var f3 := CheckDebt(d, f2);
    var f4 := CheckNegativeCashFlow(d, f3);
    var f5 := CheckEarningsQuality(d, f4);
    ghost var g, pr, de, c, e := GrowthFlag(d), ProfitabilityFlag(d), DebtFlag(d), CashFlag(d), EarningsFlag(d);
    assert f5 == [] + g + pr + de + c + e;
    assert [] + g == g;
    flags := AddConcernFlags(f5, cs);
  }

  /** Every concern flag is Medium and carries one of the first two concerns
      of a category scored below 4. */
  lemma {:induction false} ConcernFlagsSound(cs: seq<QualityScore>)
    ensures forall k :: 0 <= k < |ConcernFlags(cs)| ==>
      ConcernFlags(cs)[k].severity == "Medium" &&
      exists i, j :: 0 <= i < |cs| && 0 <= j < 2 && j < |cs[i].concerns| && cs[i].score < 4.0
                     && ConcernFlags(cs)[k] == ConcernFlag(cs[i].category, cs[i].concerns[j])
  {
    if cs != [] {
      var n := |cs| - 1;
      var prefix, q := cs[..n], cs[n];
      ConcernFlagsSound(prefix);
      var front: seq<RedFlag>, tail: seq<RedFlag> := ConcernFlags(prefix), ConcernFlagsFor(q);
      var all: seq<RedFlag> := front + tail;
      assert ConcernFlags(cs) == all;
      forall k | 0 <= k < |all|
        ensures all[k].severity == "Medium"
        ensures exists i, j :: 0 <= i < |cs| && 0 <= j < 2 && j < |cs[i].concerns| && cs[i].score < 4.0
                     && all[k] == ConcernFlag(cs[i].category, cs[i].concerns[j])
      {
        if k < |front| {
          var i, j :| 0 <= i < |prefix| && 0 <= j < 2 && j < |prefix[i].concerns| && prefix[i].score < 4.0
                     && front[k] == ConcernFlag(prefix[i].category, prefix[i].concerns[j]);
          assert cs[i] == prefix[i];
        } else {
          var j := k - |front|;
          assert tail[j] == ConcernFlag(q.category, q.concerns[j]);
        }
      }
    }
  }

  /** Each of the first two concerns of a category scored below 4 is flagged. */
  lemma {:induction false} ConcernFlagsComplete(cs: seq<QualityScore>)
    ensures forall i, j :: 0 <= i < |cs| && 0 <= j < 2 && j < |cs[i].concerns| && cs[i].score < 4.0 ==>
      ConcernFlag(cs[i].category, cs[i].concerns[j]) in ConcernFlags(cs)
  {
    if cs != [] {
      var n := |cs| - 1;
      var prefix, q := cs[..n], cs[n];
      ConcernFlagsComplete(prefix);
      var front: seq<RedFlag>, tail: seq<RedFlag> := ConcernFlags(prefix), ConcernFlagsFor(q);
      var all: seq<RedFlag> := front + tail;
      assert ConcernFlags(cs) == all;
      forall i, j | 0 <= i < |cs| && 0 <= j < 2 && j < |cs[i].concerns| && cs[i].score < 4.0
        ensures ConcernFlag(cs[i].category, cs[i].concerns[j]) in all
      {
        if i < n {
          assert cs[i] == prefix[i];
          assert ConcernFlag(cs[i].category, cs[i].concerns[j]) in front;
        } else {
          assert tail[j] == ConcernFlag(q.category, q.concerns[j]);
        }
      }
    }
  }


  lemma {:induction false} ConcernFlagsMedium(cs: seq<QualityScore>)
    ensures forall f :: f in ConcernFlags(cs) ==> f.severity == "Medium"
  {
    if cs != [] {
      ConcernFlagsMedium(cs[..|cs| - 1]);
    }
  }

  lemma {:induction false} ConcernFlagsAvoid(cs: seq<QualityScore>, name: string)
    requires forall i :: 0 <= i < |cs| ==> cs[i].category != name
    ensures forall f :: f in ConcernFlags(cs) ==> f.category != name
  {
    if cs != [] {
      ConcernFlagsAvoid(cs[..|cs| - 1], name);
    }
  }

  /** The category and severity of each check's flag, and the debt flag's
      wording. */
  lemma GrowthFlagShape(d: FinancialData)
    ensures forall f :: f in GrowthFlag(d) ==> f.category == "Growth" && f.severity == "High"
  {
  }

  lemma ProfitabilityFlagShape(d: FinancialData)
    ensures forall f :: f in ProfitabilityFlag(d) ==> f.category == "Profitability" && f.severity == "High"
  {
  }

  lemma DebtFlagShape(d: FinancialData)
    ensures forall f :: f in DebtFlag(d) ==>
      f.category == "Financial Health" && d.debt_to_equity != [] && f.severity == DebtSeverity(First(d.debt_to_equity))
      && f.description == "High debt-to-equity ratio of " + F2(First(d.debt_to_equity))
  {
  }

  lemma CashFlagShape(d: FinancialData)
    ensures forall f :: f in CashFlag(d) ==> f.category == "Cash Management" && f.severity == "High"
  {
  }

  lemma EarningsFlagShape(d: FinancialData)
    ensures forall f :: f in EarningsFlag(d) ==> f.category == "Earnings Quality" && f.severity == "Medium"
  {
  }

  /** The category and severity of each check's flag. */
  lemma FixedFlagShapes(d: FinancialData)
    ensures forall f :: f in GrowthFlag(d) ==> f.category == "Growth" && f.severity == "High"
    ensures forall f :: f in ProfitabilityFlag(d) ==> f.category == "Profitability" && f.severity == "High"
    ensures forall f :: f in DebtFlag(d) ==> f.category == "Financial Health"
    ensures forall f :: f in CashFlag(d) ==> f.category == "Cash Management" && f.severity == "High"
    ensures forall f :: f in EarningsFlag(d) ==> f.category == "Earnings Quality" && f.severity == "Medium"
  {
    GrowthFlagShape(d);
    ProfitabilityFlagShape(d);
    DebtFlagShape(d);
    CashFlagShape(d);
    EarningsFlagShape(d);
  }

  /** Some flag of the list has this category. */
  predicate HasFlag(fs: seq<RedFlag>, category: string)
  {
    exists f :: f in fs && f.category == category
  }

  /** Some High flag of the list has this category. */
  predicate HasHighFlag(fs: seq<RedFlag>, category: string)
  {
    exists f :: f in fs && f.severity == "High" && f.category == category
  }

  lemma HasFlagConcat(a: seq<RedFlag>, b: seq<RedFlag>, category: string)
    ensures HasFlag(a + b, category) <==> HasFlag(a, category) || HasFlag(b, category)
  {
    if HasFlag(a + b, category) {
      var f :| f in a + b && f.category == category;
      assert f in a || f in b;
    }
    if HasFlag(a, category) {
      var f :| f in a && f.category == category;
      assert f in a + b;
    }
    if HasFlag(b, category) {
      var f :| f in b && f.category == category;
      assert f in a + b;
    }
  }

  lemma HasHighFlagConcat(a: seq<RedFlag>, b: seq<RedFlag>, category: string)
    ensures HasHighFlag(a + b, category) <==> HasHighFlag(a, category) || HasHighFlag(b, category)
  {
    if HasHighFlag(a + b, category) {
      var f :| f in a + b && f.severity == "High" && f.category == category;
      assert f in a || f in b;
    }
    if HasHighFlag(a, category) {
      var f :| f in a && f.severity == "High" && f.category == category;
      assert f in a + b;
    }
    if HasHighFlag(b, category) {
      var f :| f in b && f.severity == "High" && f.category == category;
      assert f in a + b;
    }
  }

  /** Whether a High flag of a category is raised, split check by check. */
  lemma HighFlagSplit(d: FinancialData, cs: seq<QualityScore>, category: string)
    ensures HasHighFlag(RedFlagsOf(d, cs), category) <==>
      HasHighFlag(GrowthFlag(d), category) || HasHighFlag(ProfitabilityFlag(d), category)
      || HasHighFlag(DebtFlag(d), category) || HasHighFlag(CashFlag(d), category)
      || HasHighFlag(EarningsFlag(d), category) || HasHighFlag(ConcernFlags(cs), category)
  {
    var g, pr, de, c, e := GrowthFlag(d), ProfitabilityFlag(d), DebtFlag(d), CashFlag(d), EarningsFlag(d);
    HasHighFlagConcat(g, pr, category);
    HasHighFlagConcat(g + pr, de, category);
    HasHighFlagConcat(g + pr + de, c, category);
    HasHighFlagConcat(g + pr + de + c, e, category);
    HasHighFlagConcat(g + pr + de + c + e, ConcernFlags(cs), category);
  }

  /** Whether a flag of a category is raised, split check by check. */
  lemma FlagSplit(d: FinancialData, cs: seq<QualityScore>, category: string)
    ensures HasFlag(RedFlagsOf(d, cs), category) <==>
      HasFlag(GrowthFlag(d), category) || HasFlag(ProfitabilityFlag(d), category)
      || HasFlag(DebtFlag(d), category) || HasFlag(CashFlag(d), category)
      || HasFlag(EarningsFlag(d), category) || HasFlag(ConcernFlags(cs), category)
  {
    var g, pr, de, c, e := GrowthFlag(d), ProfitabilityFlag(d), DebtFlag(d), CashFlag(d), EarningsFlag(d);
    HasFlagConcat(g, pr, category);
    HasFlagConcat(g + pr, de, category);
    HasFlagConcat(g + pr + de, c, category);
    HasFlagConcat(g + pr + de + c, e, category);
    HasFlagConcat(g + pr + de + c + e, ConcernFlags(cs), category);
  }

  /** A High "Profitability" flag is raised exactly when net income is
      reported and negative in every year. */
  lemma UnprofitableFlagIff(d: FinancialData, cs: seq<QualityScore>)
    ensures HasHighFlag(RedFlagsOf(d, cs), "Profitability")
        <==> d.net_income != [] && All(Values(d.net_income), IsNegative)
  {
    HighFlagSplit(d, cs, "Profitability");
    ConcernFlagsMedium(cs);
    FixedFlagShapes(d);
    var pr := ProfitabilityFlag(d);
    if d.net_income != [] && All(Values(d.net_income), IsNegative) {
      assert pr[0] in pr;
    }
  }

  /** A High "Growth" flag is raised exactly when at least three revenue
      years are reported and revenue fell in at least two of them. */
  lemma RevenueDeclineFlagIff(d: FinancialData, cs: seq<QualityScore>)
    ensures HasHighFlag(RedFlagsOf(d, cs), "Growth")
        <==> |d.revenue| >= 3 && Count(Adjacent(Values(d.revenue)), Declined) >= 2
  {
    HighFlagSplit(d, cs, "Growth");
    ConcernFlagsMedium(cs);
    FixedFlagShapes(d);
    var g := GrowthFlag(d);
    if |d.revenue| >= 3 && Count(Adjacent(Values(d.revenue)), Declined) >= 2 {
      assert g[0] in g;
    }
  }

  /** With no category called "Financial Health", a flag of that category is
      raised exactly when the most recent debt-to-equity ratio exceeds 2. */
  lemma DebtFlagIff(d: FinancialData, cs: seq<QualityScore>)
    requires forall i :: 0 <= i < |cs| ==> cs[i].category != "Financial Health"
    ensures HasFlag(RedFlagsOf(d, cs), "Financial Health")
        <==> d.debt_to_equity != [] && First(d.debt_to_equity) > 2.0
  {
    FlagSplit(d, cs, "Financial Health");
    ConcernFlagsAvoid(cs, "Financial Health");
    FixedFlagShapes(d);
    var de := DebtFlag(d);
    if d.debt_to_equity != [] && First(d.debt_to_equity) > 2.0 {
      assert de[0] in de;
    }
  }

  /** Every "Financial Health" flag comes from the debt check: it is High
      exactly when the ratio exceeds 3 and states the ratio to two
      decimals. */
  lemma DebtFlagContent(d: FinancialData, cs: seq<QualityScore>)
    requires forall i :: 0 <= i < |cs| ==> cs[i].category != "Financial Health"
    ensures forall f :: f in RedFlagsOf(d, cs) && f.category == "Financial Health" ==>
      d.debt_to_equity != [] &&
      (f.severity == "High" <==> First(d.debt_to_equity) > 3.0) &&
      f.description == "High debt-to-equity ratio of " + F2(First(d.debt_to_equity))
  {
    ConcernFlagsAvoid(cs, "Financial Health");
    FixedFlagShapes(d);
    DebtFlagShape(d);
    forall f | f in RedFlagsOf(d, cs) && f.category == "Financial Health"
      ensures d.debt_to_equity != [] &&
        (f.severity == "High" <==> First(d.debt_to_equity) > 3.0) &&
        f.description == "High debt-to-equity ratio of " + F2(First(d.debt_to_equity))
    {
      var g, pr, de, c, e := GrowthFlag(d), ProfitabilityFlag(d), DebtFlag(d), CashFlag(d), EarningsFlag(d);
      assert RedFlagsOf(d, cs) == g + pr + de + c + e + ConcernFlags(cs);
      assert f in de;
      assert "Medium" != "High";
    }
  }

  // ------------------------------------------------------------- the report

  /** The seven category scores, in report order. */
  function ScoresOf(d: FinancialData, env: Env): (cs: seq<QualityScore>)
    ensures |cs| == 7
  {
    var all := AllCategories();
    seq(7, i requires 0 <= i < 7 => Assemble(all[i], RulesFor(all[i], d, env), d, env))
  }

  /** The i-th score is that of the i-th category, with its weight, and every
      score lies within [0, 10]. */
  lemma ScoresShape(d: FinancialData, env: Env)
    ensures forall i :: 0 <= i < 7 ==>
      ScoresOf(d, env)[i].category == CategoryName(AllCategories()[i])
      && ScoresOf(d, env)[i].weight == CategoryWeight(AllCategories()[i])
    ensures InRange(ScoresOf(d, env))
  {
    var cs, all := ScoresOf(d, env), AllCategories();
    forall i | 0 <= i < 7
      ensures cs[i].category == CategoryName(all[i]) && cs[i].weight == CategoryWeight(all[i])
      ensures 0.0 <= cs[i].score <= 10.0 && cs[i].weight >= 0.0
    {
      var q := Assemble(all[i], RulesFor(all[i], d, env), d, env);
      assert cs[i] == q;
    }
  }

  /** The headline metrics copied into the report, unchanged. */
  function MetricsOf(d: FinancialData): (m: MetricsSummary)
    ensures m.Snapshot? && m.revenue_trend == d.revenue && m.profit_trend == d.net_income
    ensures m.debt_to_equity == d.debt_to_equity && m.dividend_yield == d.dividend_yield
  {
    Snapshot(d.company_name, d.ticker, d.sector, d.industry, d.market_cap,
             d.pe_ratio, d.pb_ratio, d.dividend_yield,
             d.revenue, d.net_income, d.operating_margin, d.net_margin,
             d.roe, d.roce, d.roa, d.debt_to_equity, d.operating_cash_flow, d.free_cash_flow)
  }

  /** The report the rule-based analysis produces; the summaries stay empty. */
  function ReportOf(d: FinancialData, env: Env): QualityReport
  {
    var cs := ScoresOf(d, env);
    QualityReport(d.company_name, d.ticker, d.fetch_timestamp, d.years_analyzed,
                  OverallScoreOf(cs), cs, KeyStrengths(cs), RedFlagsOf(d, cs), "", "", "", MetricsOf(d))
  }

  /** The seven scorers, run in report order. */
  method ScoreAllCategories(d: FinancialData, env: Env) returns (scores: seq<QualityScore>)
    ensures scores == ScoresOf(d, env)
  {
    var categories := AllCategories();
    scores := [];
    for i := 0 to |categories|
      invariant |scores| == i
      invariant forall k :: 0 <= k < i ==> scores[k] == ScoresOf(d, env)[k]
    {
      var q := AnalyzeCategory(categories[i], d, env);
      scores := scores + [q];
    }
  }
  method Analyze(d: FinancialData, env: Env) returns (report: QualityReport)
    ensures report == ReportOf(d, env)
    ensures |report.category_scores| == 7 && 0.0 <= report.overall_score <= 10.0
  {
    var scores := ScoreAllCategories(d, env);
    ScoresShape(d, env);
    var overall := CalculateOverallScore(scores);
    var strengths := IdentifyKeyStrengths(scores);
    var flags := IdentifyRedFlags(d, scores);
    report := QualityReport(d.company_name, d.ticker, d.fetch_timestamp, d.years_analyzed,
                            overall, scores, strengths, flags, "", "", "", MetricsOf(d));
  }

  /** The composite of any report lies within [0, 10]. */
  lemma ReportScoreInRange(d: FinancialData, env: Env)
    ensures 0.0 <= ReportOf(d, env).overall_score <= 10.0
    ensures forall q :: q in ReportOf(d, env).category_scores ==> 0.0 <= q.score <= 10.0
  {
    ScoresShape(d, env);
    OverallScoreInRange(ScoresOf(d, env));
  }

  lemma WeightTotalOfSeven(cs: seq<QualityScore>)
    requires |cs| == 7
    ensures WeightTotal(cs) == cs[0].weight + cs[1].weight + cs[2].weight + cs[3].weight
                             + cs[4].weight + cs[5].weight + cs[6].weight
  {
    assert cs[..1][..0] == [];
    assert WeightTotal(cs[..1]) == cs[0].weight;
    assert cs[..2][..1] == cs[..1];
    assert WeightTotal(cs[..2]) == WeightTotal(cs[..1]) + cs[1].weight;
    assert cs[..3][..2] == cs[..2];
    assert WeightTotal(cs[..3]) == WeightTotal(cs[..2]) + cs[2].weight;
    assert cs[..4][..3] == cs[..3];
    assert WeightTotal(cs[..4]) == WeightTotal(cs[..3]) + cs[3].weight;
    assert cs[..5][..4] == cs[..4];
    assert WeightTotal(cs[..5]) == WeightTotal(cs[..4]) + cs[4].weight;
    assert cs[..6][..5] == cs[..5];
    assert WeightTotal(cs[..6]) == WeightTotal(cs[..5]) + cs[5].weight;
    assert cs[..7][..6] == cs[..6] && cs[..7] == cs;
  }

  /** The seven category weights sum to one. */
  lemma ReportWeightsSumToOne(d: FinancialData, env: Env)
    ensures WeightTotal(ReportOf(d, env).category_scores) == 1.0
  {
    ScoresWeightsSumToOne(d, env);
  }

  lemma ScoresWeightsSumToOne(d: FinancialData, env: Env)
    ensures WeightTotal(ScoresOf(d, env)) == 1.0
  {
    var cs, all := ScoresOf(d, env), AllCategories();
    ScoresShape(d, env);
    WeightTotalOfSeven(cs);
    assert cs[0].weight == CategoryWeight(all[0]) && cs[1].weight == CategoryWeight(all[1]);
    assert cs[2].weight == CategoryWeight(all[2]) && cs[3].weight == CategoryWeight(all[3]);
    assert cs[4].weight == CategoryWeight(all[4]) && cs[5].weight == CategoryWeight(all[5]);
    assert cs[6].weight == CategoryWeight(all[6]);
  }

  /** When every category has the same score, so does the weighted total,
      scaled by the total weight. */
  lemma {:induction false} UniformScores(cs: seq<QualityScore>, s: real)
    requires forall i :: 0 <= i < |cs| ==> cs[i].score == s
    ensures WeightedTotal(cs) == s * WeightTotal(cs)
  {
    if cs != [] {
      UniformScores(cs[..|cs| - 1], s);
    }
  }

  lemma FiveHasOneDecimal()
    ensures Round1(5.0) == 5.0
  {
    assert (5.0 * 10.0).Floor == 50;
  }

  /** Equal scores under a positive total weight give that score overall,
      when it has at most one decimal. */
  lemma UniformOverall(cs: seq<QualityScore>, s: real)
    requires forall i :: 0 <= i < |cs| ==> cs[i].score == s
    requires WeightTotal(cs) > 0.0 && Round1(s) == s
    ensures OverallScoreOf(cs) == s
  {
    UniformScores(cs, s);
    var w := WeightTotal(cs);
    ScaleBack(s, w);
  }

  /** Scaling by a positive weight and dividing by it again changes nothing. */
  lemma ScaleBack(s: real, w: real)
    requires w > 0.0
    ensures s * w / w == s
  {
    var x := s * w / w;
    assert x * w == s * w;
    assert (x - s) * w == 0.0;
  }

  lemma {:induction false} NoStrengths(xs: seq<QualityScore>)
    requires forall i :: 0 <= i < |xs| ==> xs[i].strengths == []
    ensures AllStrengths(xs) == []
  {
    if xs != [] {
      NoStrengths(xs[..|xs| - 1]);
    }
  }

  lemma {:induction false} NoConcernFlags(cs: seq<QualityScore>)
    requires forall i :: 0 <= i < |cs| ==> cs[i].score >= 4.0
    ensures ConcernFlags(cs) == []
  {
    if cs != [] {
      NoConcernFlags(cs[..|cs| - 1]);
    }
  }

  /** Categories without strengths give no key strength. */
  lemma NoKeyStrengths(cs: seq<QualityScore>)
    requires forall i :: 0 <= i < |cs| ==> cs[i].strengths == []
    ensures KeyStrengths(cs) == []
  {
    var sorted := SortByScore(cs);
    SortByScoreSpec(cs);
    forall k | 0 <= k < |sorted|
      ensures sorted[k].strengths == []
    {
      var order := SortOrder(cs, |cs|);
      assert order[k] in order;
    }
    NoStrengths(sorted);
  }

  /** A record with no series raises none of the five data-driven flags. */
  lemma NoSeriesNoFixedFlags(d: FinancialData)
    requires NoSeries(d)
    ensures FixedFlags(d) == []
  {
  }

  /** Without data every category scores 5.0 with no notes. */
  lemma EmptyRecordScores(d: FinancialData, env: Env)
    requires NoSeries(d) && d.dividend_yield == 0.0
    ensures forall i :: 0 <= i < |ScoresOf(d, env)| ==>
      ScoresOf(d, env)[i].score == 5.0 && ScoresOf(d, env)[i].strengths == [] && ScoresOf(d, env)[i].concerns == []
  {
    var cs, all := ScoresOf(d, env), AllCategories();
    forall i | 0 <= i < 7
      ensures cs[i].score == 5.0 && cs[i].strengths == [] && cs[i].concerns == []
    {
      EmptyCategory(all[i], d, env);
    }
  }

  /** Without data a category fires no rule and scores 5.0 with no notes. */
  lemma EmptyCategory(c: Category, d: FinancialData, env: Env)
    requires NoSeries(d) && d.dividend_yield == 0.0
    ensures var q := Assemble(c, RulesFor(c, d, env), d, env);
      q.score == 5.0 && q.strengths == [] && q.concerns == []
  {
    EmptyRecordFiresNothing(d, env);
  }

  /** Without data the composite is 5.0. */
  lemma EmptyRecordOverall(d: FinancialData, env: Env)
    requires NoSeries(d) && d.dividend_yield == 0.0
    ensures OverallScoreOf(ScoresOf(d, env)) == 5.0
  {
    var cs := ScoresOf(d, env);
    EmptyRecordScores(d, env);
    ScoresWeightsSumToOne(d, env);
    FiveHasOneDecimal();
    UniformOverall(cs, 5.0);
  }

  /** Without data no key strength is listed and no flag is raised. */
  lemma EmptyRecordQuiet(d: FinancialData, env: Env)
    requires NoSeries(d) && d.dividend_yield == 0.0
    ensures KeyStrengths(ScoresOf(d, env)) == []
    ensures RedFlagsOf(d, ScoresOf(d, env)) == []
  {
    EmptyRecordScores(d, env);
    QuietScores(d, ScoresOf(d, env));
  }

  /** Categories without strengths and none below 4 on a record without data
      give no key strength and no flag. */
  lemma QuietScores(d: FinancialData, cs: seq<QualityScore>)
    requires NoSeries(d)
    requires forall i :: 0 <= i < |cs| ==> cs[i].score == 5.0 && cs[i].strengths == []
    ensures KeyStrengths(cs) == []
    ensures RedFlagsOf(d, cs) == []
  {
    NoKeyStrengths(cs);
    NoSeriesNoFixedFlags(d);
    NoConcernFlags(cs);
  }

  /** A record with no series and no dividend scores 5.0 in every category
      and overall, with no key strength and no red flag. */
  lemma EmptyRecordReport(d: FinancialData, env: Env)
    requires NoSeries(d) && d.dividend_yield == 0.0
    ensures forall q :: q in ReportOf(d, env).category_scores ==> q.score == 5.0
    ensures ReportOf(d, env).overall_score == 5.0
    ensures ReportOf(d, env).key_strengths == []
    ensures ReportOf(d, env).red_flags == []
  {
    EmptyRecordScores(d, env);
    EmptyRecordOverall(d, env);
    EmptyRecordQuiet(d, env);
  }


  /** Every category name is longer than the category of any fixed flag, so
      no concern flag can be mistaken for one. */
  lemma CategoryNamesAreLong(c: Category)
    ensures |CategoryName(c)| > 16
  {
  }

  /** No category of a report is called "Financial Health", so the debt
      flag of a report is raised exactly when the latest debt-to-equity
      ratio exceeds 2, High exactly above 3, and states the ratio. */
  lemma ReportDebtFlag(d: FinancialData, env: Env)
    ensures HasFlag(ReportOf(d, env).red_flags, "Financial Health")
        <==> d.debt_to_equity != [] && First(d.debt_to_equity) > 2.0
    ensures forall f :: f in ReportOf(d, env).red_flags && f.category == "Financial Health" ==>
      d.debt_to_equity != [] &&
      (f.severity == "High" <==> First(d.debt_to_equity) > 3.0) &&
      f.description == "High debt-to-equity ratio of " + F2(First(d.debt_to_equity))
  {
    var cs := ScoresOf(d, env);
    ScoresShape(d, env);
    forall i | 0 <= i < |cs|
      ensures cs[i].category != "Financial Health"
    {
      CategoryNamesAreLong(AllCategories()[i]);
    }
    DebtFlagIff(d, cs);
    DebtFlagContent(d, cs);
  }
}
