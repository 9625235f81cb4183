/** The narrative parts of the institutional PDF report that are decided by
    numbers: its rating and assessment scales, the investment perspective,
    the category-score scan behind the gap and alignment sections, the red
    flag severity counts and the quantitative scoring table. */
module PdfReport {
  import opened Wrappers
  import opened Text
  import opened Numbers
  import opened Dicts
  import opened JsonModel
  import opened ReportTypes
  import opened ReportGenerator
  import Forensic

  // ------------------------------------------------------------ scales

  /** The overall rating names of the PDF report, lowest band first. */
  function PdfRatingNames(): (ns: seq<string>)
    ensures |ns| == 6
  {
    ["BELOW AVERAGE", "MODERATE", "ABOVE AVERAGE", "STRONG", "EXCELLENT", "EXCEPTIONAL"]
  }

  function PdfRatingText(score: real): (r: string)
    ensures r == PdfRatingNames()[ScoreBand(score)]
  {
    if score >= 8.0 then "EXCEPTIONAL"
    else if score >= 7.0 then "EXCELLENT"
    else if score >= 6.0 then "STRONG"
    else if score >= 5.0 then "ABOVE AVERAGE"
    else if score >= 4.0 then "MODERATE"
    else "BELOW AVERAGE"
  }

  /** The per-category assessment names, lowest band first. */
  function AssessmentNames(): (ns: seq<string>)
    ensures |ns| == 6
  {
    ["Weak", "Below Avg", "Average", "Above Avg", "Strong", "Excellent"]
  }

  function CategoryAssessment(score: real): (r: string)
    ensures r == AssessmentNames()[ScoreBand(score)]
  {
    if score >= 8.0 then "Excellent"
    else if score >= 7.0 then "Strong"
    else if score >= 6.0 then "Above Avg"
    else if score >= 5.0 then "Average"
    else if score >= 4.0 then "Below Avg"
    else "Weak"
  }

  /** The console rating, the PDF rating and the PDF category assessment
      cut the score range at the same points: the same word position on
      each scale means the same band. */
  lemma RatingScalesAgree(s: real, t: real)
    ensures PdfRatingText(s) == PdfRatingText(t) <==> RatingText(s) == RatingText(t)
    ensures CategoryAssessment(s) == CategoryAssessment(t) <==> RatingText(s) == RatingText(t)
  {
    RatingNamesDistinct();
    assert forall i, j :: 0 <= i < j < 6 ==> PdfRatingNames()[i] != PdfRatingNames()[j];
    assert forall i, j :: 0 <= i < j < 6 ==> AssessmentNames()[i] != AssessmentNames()[j];
  }

  // ------------------------------------------------------------ perspective

  /** How many of the thresholds 4.5, 5.5, 6.5 and 7.5 the overall score
      reaches. */
  function PerspectiveLevel(score: real): (l: nat)
    ensures l <= 4
    ensures l >= 1 <==> score >= 4.5
    ensures l >= 2 <==> score >= 5.5
    ensures l >= 3 <==> score >= 6.5
    ensures l >= 4 <==> score >= 7.5
  {
    if score >= 7.5 then 4
    else if score >= 6.5 then 3
    else if score >= 5.5 then 2
    else if score >= 4.5 then 1
    else 0
  }

  function PerspectiveNames(): (ns: seq<string>)
    ensures |ns| == 5
  {
    ["CAUTIOUS", "HOLD", "ACCUMULATE", "BUY", "STRONG BUY"]
  }

  /** The investment perspective and its outlook sentence. */
  function Perspective(score: real): (p: (string, string))
    ensures p.0 == PerspectiveNames()[PerspectiveLevel(score)]
  {
    if score >= 7.5 then ("STRONG BUY", "Exceptional quality metrics across all dimensions")
    else if score >= 6.5 then ("BUY", "Strong fundamentals with favorable quality indicators")
    else if score >= 5.5 then ("ACCUMULATE", "Above-average quality with selective strengths")
    else if score >= 4.5 then ("HOLD", "Mixed quality signals requiring monitoring")
    else ("CAUTIOUS", "Quality concerns warrant careful evaluation")
  }

  /** The perspective scale sits half a point below the rating scale, so a
      perspective always sits next to the rating printed beside it: STRONG
      BUY only with EXCELLENT or EXCEPTIONAL, CAUTIOUS only with MODERATE or
      BELOW AVERAGE. */
  lemma PerspectiveBesideRating(score: real)
    ensures PerspectiveLevel(score) <= ScoreBand(score) <= PerspectiveLevel(score) + 1
    ensures Perspective(score).0 == "STRONG BUY" ==> PdfRatingText(score) in {"EXCELLENT", "EXCEPTIONAL"}
    ensures Perspective(score).0 == "CAUTIOUS" ==> PdfRatingText(score) in {"MODERATE", "BELOW AVERAGE"}
  {
  }

  // ------------------------------------------------------------ category scan

  /** The scan of the category scores: the first score is taken from the
      last category whose name passes `isA`; the second from the last one
      that fails `isA` and passes `isB`; either stays 0.0 when no category
      qualifies. */
  function LastScores(cs: seq<QualityScore>, isA: string -> bool, isB: string -> bool): (real, real)
  {
    if cs == [] then (0.0, 0.0)
    else
      var prior := LastScores(cs[..|cs| - 1], isA, isB);
      var q := cs[|cs| - 1];
      if isA(q.category) then (q.score, prior.1)
      else if isB(q.category) then (prior.0, q.score)
      else prior
  }

  /** The loop itself: two variables overwritten as the list is walked. */
  method ScanScores(cs: seq<QualityScore>, isA: string -> bool, isB: string -> bool)
    returns (a: real, b: real)
    ensures (a, b) == LastScores(cs, isA, isB)
  {
    a, b := 0.0, 0.0;
    var i := 0;
    while i < |cs|
      invariant 0 <= i <= |cs|
      invariant (a, b) == LastScores(cs[..i], isA, isB)
    {
      assert cs[..i + 1][..i] == cs[..i];
      if isA(cs[i].category) {
        a := cs[i].score;
      } else if isB(cs[i].category) {
        b := cs[i].score;
      }
      i := i + 1;
    }
    assert cs[..i] == cs;
  }

  /** With no qualifying category the score stays at zero. */
  lemma {:induction false} LastScoresMissing(cs: seq<QualityScore>, isA: string -> bool, isB: string -> bool)
    ensures (forall k :: 0 <= k < |cs| ==> !isA(cs[k].category)) ==> LastScores(cs, isA, isB).0 == 0.0
    ensures (forall k :: 0 <= k < |cs| ==> isA(cs[k].category) || !isB(cs[k].category))
              ==> LastScores(cs, isA, isB).1 == 0.0
  {
    if cs != [] {
      LastScoresMissing(cs[..|cs| - 1], isA, isB);
    }
  }

  /** When exactly one category passes `isA` it supplies the first score. */
  lemma {:induction false} LastScoresFirst(cs: seq<QualityScore>, isA: string -> bool, isB: string -> bool, i: nat)
    requires i < |cs| && isA(cs[i].category)
    requires forall k :: 0 <= k < |cs| && k != i ==> !isA(cs[k].category)
    ensures LastScores(cs, isA, isB).0 == cs[i].score
  {
    var init := cs[..|cs| - 1];
    if i < |cs| - 1 {
      LastScoresFirst(init, isA, isB, i);
    } else {
      LastScoresMissing(init, isA, isB);
    }
  }

  /** When exactly one category fails `isA` and passes `isB` it supplies the
      second score. */
  lemma {:induction false} LastScoresSecond(cs: seq<QualityScore>, isA: string -> bool, isB: string -> bool, j: nat)
    requires j < |cs| && !isA(cs[j].category) && isB(cs[j].category)
    requires forall k :: 0 <= k < |cs| && k != j ==> isA(cs[k].category) || !isB(cs[k].category)
    ensures LastScores(cs, isA, isB).1 == cs[j].score
  {
    var init := cs[..|cs| - 1];
    if j < |cs| - 1 {
      LastScoresSecond(init, isA, isB, j);
    } else {
      LastScoresMissing(init, isA, isB);
    }
  }

  /** No position of `s` holds `c`. */
  predicate Lacks(s: string, c: char)
  {
    forall i :: 0 <= i < |s| ==> s[i] != c
  }

  /** A text lacking one of the characters of `sub` does not contain `sub`. */
  lemma AbsentCharNotContained(s: string, sub: string, k: nat)
    requires k < |sub| && Lacks(s, sub[k])
    ensures !Contains(s, sub)
  {
  }

  /** The earnings-quality test of the gap section. */
  predicate IsEarningsQuality(name: string)
  {
    Contains(name, "Earnings Quality") || Contains(name, "Quality")
  }

  predicate IsProfitability(name: string)
  {
    Contains(name, "Profitability")
  }

  /** The governance and growth tests of the alignment section. */
  predicate IsGovernance(name: string)
  {
    Contains(name, "Governance")
  }

  predicate IsGrowth(name: string)
  {
    Contains(name, "Growth")
  }

  lemma ContainsPrefix(sub: string, b: string)
    ensures Contains(sub + b, sub)
  {
    assert (sub + b)[0..|sub|] == sub;
    ContainsAt(sub + b, sub, 0);
  }

  lemma ContainsBetween(a: string, sub: string, b: string)
    ensures Contains(a + sub + b, sub)
  {
    assert (a + sub + b)[|a|..|a| + |sub|] == sub;
    ContainsAt(a + sub + b, sub, |a|);
  }

  /** A name without a capital Q fails the earnings-quality test. */
  lemma NotEarningsQuality(n: string)
    requires Lacks(n, 'Q')
    ensures !IsEarningsQuality(n)
  {
    AbsentCharNotContained(n, "Quality", 0);
    AbsentCharNotContained(n, "Earnings Quality", 9);
  }

  /** A name without `ch`, a character of `sub`, fails the test for `sub`. */
  lemma NotNamed(n: string, sub: string, k: nat, ch: char)
    requires k < |sub| && sub[k] == ch && Lacks(n, ch)
    ensures !Contains(n, sub)
  {
    AbsentCharNotContained(n, sub, k);
  }

  /** The outcomes of the four name tests (earnings quality, profitability,
      governance, growth) on a name, from the capitals it lacks. */
  lemma PassesNone(n: string)
    requires Lacks(n, 'Q') && Lacks(n, 'P') && Lacks(n, 'G')
    ensures !IsEarningsQuality(n) && !IsProfitability(n) && !IsGovernance(n) && !IsGrowth(n)
  {
    NotEarningsQuality(n);
    NotNamed(n, "Profitability", 0, 'P');
    NotNamed(n, "Governance", 0, 'G');
    NotNamed(n, "Growth", 0, 'G');
  }

  lemma PassesOnlyProfitability(n: string)
    requires IsProfitability(n) && Lacks(n, 'Q') && Lacks(n, 'G')
    ensures !IsEarningsQuality(n) && !IsGovernance(n) && !IsGrowth(n)
  {
    NotEarningsQuality(n);
    NotNamed(n, "Governance", 0, 'G');
    NotNamed(n, "Growth", 0, 'G');
  }

  lemma PassesOnlyGrowth(n: string)
    requires IsGrowth(n) && Lacks(n, 'Q') && Lacks(n, 'P') && Lacks(n, 'c')
    ensures !IsEarningsQuality(n) && !IsProfitability(n) && !IsGovernance(n)
  {
    NotEarningsQuality(n);
    NotNamed(n, "Profitability", 0, 'P');
    NotNamed(n, "Governance", 8, 'c');
  }

  lemma PassesOnlyEarningsQuality(n: string)
    requires IsEarningsQuality(n) && Lacks(n, 'P') && Lacks(n, 'G')
    ensures !IsProfitability(n) && !IsGovernance(n) && !IsGrowth(n)
  {
    NotNamed(n, "Profitability", 0, 'P');
    NotNamed(n, "Governance", 0, 'G');
    NotNamed(n, "Growth", 0, 'G');
  }

  lemma PassesOnlyGovernance(n: string)
    requires IsGovernance(n) && Lacks(n, 'Q') && Lacks(n, 'P') && Lacks(n, 'w')
    ensures !IsEarningsQuality(n) && !IsProfitability(n) && !IsGrowth(n)
  {
    NotEarningsQuality(n);
    NotNamed(n, "Profitability", 0, 'P');
    NotNamed(n, "Growth", 3, 'w');
  }

  /** How each category name fares under the four name tests. */
  lemma ProfitabilityNameTests()
    ensures var n := CategoryName(Profitability); !IsEarningsQuality(n) && IsProfitability(n) && !IsGovernance(n) && !IsGrowth(n)
  {
    ProfitabilityNamed();
    ProfitabilityNameLacks();
    PassesOnlyProfitability("Profitability & Margins");
  }

  lemma GrowthNameTests()
    ensures var n := CategoryName(Growth); !IsEarningsQuality(n) && !IsProfitability(n) && !IsGovernance(n) && IsGrowth(n)
  {
    GrowthNamed();
    GrowthNameLacks();
    PassesOnlyGrowth("Growth & Revenue Stability");
  }

  lemma FinancialHealthNameTests()
    ensures var n := CategoryName(FinancialHealth); !IsEarningsQuality(n) && !IsProfitability(n) && !IsGovernance(n) && !IsGrowth(n)
  {
    FinancialHealthNameLacks();
    PassesNone("Financial Health & Leverage");
  }

  lemma CashManagementNameTests()
    ensures var n := CategoryName(CashManagement); !IsEarningsQuality(n) && !IsProfitability(n) && !IsGovernance(n) && !IsGrowth(n)
  {
    CashManagementNameLacks();
    PassesNone("Cash Flow Management");
  }

  lemma CapitalEfficiencyNameTests()
    ensures var n := CategoryName(CapitalEfficiency); !IsEarningsQuality(n) && !IsProfitability(n) && !IsGovernance(n) && !IsGrowth(n)
  {
    CapitalEfficiencyNameLacks();
    PassesNone("Capital Efficiency & Returns");
  }

  lemma QualityOfEarningsNameTests()
    ensures var n := CategoryName(QualityOfEarnings); IsEarningsQuality(n) && !IsProfitability(n) && !IsGovernance(n) && !IsGrowth(n)
  {
    QualityNamed();
    QualityOfEarningsNameLacks();
    PassesOnlyEarningsQuality("Quality of Earnings");
  }

  lemma GovernanceNameTests()
    ensures var n := CategoryName(Governance); !IsEarningsQuality(n) && !IsProfitability(n) && IsGovernance(n) && !IsGrowth(n)
  {
    GovernanceNamed();
    GovernanceNameLacks();
    PassesOnlyGovernance("Management & Governance Indicators");
  }

  lemma ProfitabilityNameLacks()
    ensures Lacks("Profitability & Margins", 'Q') && Lacks("Profitability & Margins", 'G')
  {
    assert forall i :: 0 <= i < |"Profitability & Margins"| ==> "Profitability & Margins"[i] != 'Q' && "Profitability & Margins"[i] != 'G';
  }

  lemma GrowthNameLacks()
    ensures Lacks("Growth & Revenue Stability", 'Q') && Lacks("Growth & Revenue Stability", 'P') && Lacks("Growth & Revenue Stability", 'c')
  {
    assert forall i :: 0 <= i < |"Growth & Revenue Stability"| ==> "Growth & Revenue Stability"[i] != 'Q' && "Growth & Revenue Stability"[i] != 'P' && "Growth & Revenue Stability"[i] != 'c';
  }

  lemma FinancialHealthNameLacks()
    ensures Lacks("Financial Health & Leverage", 'Q') && Lacks("Financial Health & Leverage", 'P') && Lacks("Financial Health & Leverage", 'G')
  {
    assert forall i :: 0 <= i < |"Financial Health & Leverage"| ==> "Financial Health & Leverage"[i] != 'Q' && "Financial Health & Leverage"[i] != 'P' && "Financial Health & Leverage"[i] != 'G';
  }

  lemma CashManagementNameLacks()
    ensures Lacks("Cash Flow Management", 'Q') && Lacks("Cash Flow Management", 'P') && Lacks("Cash Flow Management", 'G')
  {
    assert forall i :: 0 <= i < |"Cash Flow Management"| ==> "Cash Flow Management"[i] != 'Q' && "Cash Flow Management"[i] != 'P' && "Cash Flow Management"[i] != 'G';
  }

  lemma CapitalEfficiencyNameLacks()
    ensures Lacks("Capital Efficiency & Returns", 'Q') && Lacks("Capital Efficiency & Returns", 'P') && Lacks("Capital Efficiency & Returns", 'G')
  {
    assert forall i :: 0 <= i < |"Capital Efficiency & Returns"| ==> "Capital Efficiency & Returns"[i] != 'Q' && "Capital Efficiency & Returns"[i] != 'P' && "Capital Efficiency & Returns"[i] != 'G';
  }

  lemma QualityOfEarningsNameLacks()
    ensures Lacks("Quality of Earnings", 'P') && Lacks("Quality of Earnings", 'G')
  {
    assert forall i :: 0 <= i < |"Quality of Earnings"| ==> "Quality of Earnings"[i] != 'P' && "Quality of Earnings"[i] != 'G';
  }

  lemma GovernanceNameLacks()
    ensures Lacks("Management & Governance Indicators", 'Q') && Lacks("Management & Governance Indicators", 'P') && Lacks("Management & Governance Indicators", 'w')
  {
    assert forall i :: 0 <= i < |"Management & Governance Indicators"| ==> "Management & Governance Indicators"[i] != 'Q' && "Management & Governance Indicators"[i] != 'P' && "Management & Governance Indicators"[i] != 'w';
  }

  lemma ProfitabilityNamed()
    ensures IsProfitability("Profitability & Margins")
  {
    assert "Profitability & Margins" == "Profitability" + " & Margins";
    ContainsPrefix("Profitability", " & Margins");
  }

  lemma GrowthNamed()
    ensures IsGrowth("Growth & Revenue Stability")
  {
    assert "Growth & Revenue Stability" == "Growth" + " & Revenue Stability";
    ContainsPrefix("Growth", " & Revenue Stability");
  }

  lemma QualityNamed()
    ensures IsEarningsQuality("Quality of Earnings")
  {
    assert "Quality of Earnings" == "Quality" + " of Earnings";
    ContainsPrefix("Quality", " of Earnings");
  }

  lemma GovernanceNamed()
    ensures IsGovernance("Management & Governance Indicators")
  {
    assert "Management & Governance Indicators" == "Management & " + "Governance" + " Indicators";
    ContainsBetween("Management & ", "Governance", " Indicators");
  }

  /** Of the seven category names only "Quality of Earnings" passes the
      earnings-quality test. */
  lemma EarningsQualityTestOnNames(c: Category)
    ensures IsEarningsQuality(CategoryName(c)) <==> c == QualityOfEarnings
  {
    match c
    case Profitability => ProfitabilityNameTests();
    case Growth => GrowthNameTests();
    case FinancialHealth => FinancialHealthNameTests();
    case CashManagement => CashManagementNameTests();
    case CapitalEfficiency => CapitalEfficiencyNameTests();
    case QualityOfEarnings => QualityOfEarningsNameTests();
    case Governance => GovernanceNameTests();
  }

  /** Of the seven category names only "Profitability & Margins" passes the
      profitability test. */
  lemma ProfitabilityTestOnNames(c: Category)
    ensures IsProfitability(CategoryName(c)) <==> c == Profitability
  {
    match c
    case Profitability => ProfitabilityNameTests();
    case Growth => GrowthNameTests();
    case FinancialHealth => FinancialHealthNameTests();
    case CashManagement => CashManagementNameTests();
    case CapitalEfficiency => CapitalEfficiencyNameTests();
    case QualityOfEarnings => QualityOfEarningsNameTests();
    case Governance => GovernanceNameTests();
  }

  /** Of the seven category names only the governance name passes the
      governance test. */
  lemma GovernanceTestOnNames(c: Category)
    ensures IsGovernance(CategoryName(c)) <==> c == Governance
  {
    match c
    case Profitability => ProfitabilityNameTests();
    case Growth => GrowthNameTests();
    case FinancialHealth => FinancialHealthNameTests();
    case CashManagement => CashManagementNameTests();
    case CapitalEfficiency => CapitalEfficiencyNameTests();
    case QualityOfEarnings => QualityOfEarningsNameTests();
    case Governance => GovernanceNameTests();
  }

  /** Of the seven category names only "Growth & Revenue Stability" passes
      the growth test. */
  lemma GrowthTestOnNames(c: Category)
    ensures IsGrowth(CategoryName(c)) <==> c == Growth
  {
    match c
    case Profitability => ProfitabilityNameTests();
    case Growth => GrowthNameTests();
    case FinancialHealth => FinancialHealthNameTests();
    case CashManagement => CashManagementNameTests();
    case CapitalEfficiency => CapitalEfficiencyNameTests();
    case QualityOfEarnings => QualityOfEarningsNameTests();
    case Governance => GovernanceNameTests();
  }

  /** The scores the gap section compares: (earnings quality, profitability). */
  function GapScores(cs: seq<QualityScore>): (real, real)
  {
    LastScores(cs, IsEarningsQuality, IsProfitability)
  }

  /** The scores the alignment section reads: (governance, growth). */
  function AlignmentScores(cs: seq<QualityScore>): (real, real)
  {
    LastScores(cs, IsGovernance, IsGrowth)
  }

  /** Category scores named after distinct categories, in any order. */
  predicate NamedAfter(cs: seq<QualityScore>, cats: seq<Category>)
  {
    |cats| == |cs|
    && (forall k :: 0 <= k < |cs| ==> cs[k].category == CategoryName(cats[k]))
    && (forall k, l :: 0 <= k < l < |cats| ==> cats[k] != cats[l])
  }

  /** On the report's own category names the scan finds the profitability
      and the earnings-quality scores, and 0.0 for one that is missing. */
  lemma GapPicksCategories(cs: seq<QualityScore>, cats: seq<Category>)
    requires NamedAfter(cs, cats)
    ensures forall j :: 0 <= j < |cats| && cats[j] == QualityOfEarnings ==> GapScores(cs).0 == cs[j].score
    ensures forall i :: 0 <= i < |cats| && cats[i] == Profitability ==> GapScores(cs).1 == cs[i].score
    ensures QualityOfEarnings !in cats ==> GapScores(cs).0 == 0.0
    ensures Profitability !in cats ==> GapScores(cs).1 == 0.0
  {
    forall k | 0 <= k < |cs| ensures IsEarningsQuality(cs[k].category) <==> cats[k] == QualityOfEarnings
                              ensures IsProfitability(cs[k].category) <==> cats[k] == Profitability {
      EarningsQualityTestOnNames(cats[k]);
      ProfitabilityTestOnNames(cats[k]);
    }
    forall j | 0 <= j < |cats| && cats[j] == QualityOfEarnings ensures GapScores(cs).0 == cs[j].score {
      LastScoresFirst(cs, IsEarningsQuality, IsProfitability, j);
    }
    forall i | 0 <= i < |cats| && cats[i] == Profitability ensures GapScores(cs).1 == cs[i].score {
      LastScoresSecond(cs, IsEarningsQuality, IsProfitability, i);
    }
    LastScoresMissing(cs, IsEarningsQuality, IsProfitability);
  }

  /** The same for the governance and growth scores of the alignment section. */
  lemma AlignmentPicksCategories(cs: seq<QualityScore>, cats: seq<Category>)
    requires NamedAfter(cs, cats)
    ensures forall j :: 0 <= j < |cats| && cats[j] == Governance ==> AlignmentScores(cs).0 == cs[j].score
    ensures forall i :: 0 <= i < |cats| && cats[i] == Growth ==> AlignmentScores(cs).1 == cs[i].score
    ensures Governance !in cats ==> AlignmentScores(cs).0 == 0.0
    ensures Growth !in cats ==> AlignmentScores(cs).1 == 0.0
  {
    forall k | 0 <= k < |cs| ensures IsGovernance(cs[k].category) <==> cats[k] == Governance
                              ensures !IsGovernance(cs[k].category) ==> (IsGrowth(cs[k].category) <==> cats[k] == Growth) {
      GovernanceTestOnNames(cats[k]);
      GrowthTestOnNames(cats[k]);
    }
    forall j | 0 <= j < |cats| && cats[j] == Governance ensures AlignmentScores(cs).0 == cs[j].score {
      LastScoresFirst(cs, IsGovernance, IsGrowth, j);
    }
    forall i | 0 <= i < |cats| && cats[i] == Growth ensures AlignmentScores(cs).1 == cs[i].score {
      LastScoresSecond(cs, IsGovernance, IsGrowth, i);
    }
    LastScoresMissing(cs, IsGovernance, IsGrowth);
  }

  /** On scores listed in the standard category order the gap section
      compares entries 5 and 0 and the alignment section reads entries 6
      and 1. */
  lemma StandardOrderScores(cs: seq<QualityScore>)
    requires |cs| == 7
    requires forall i :: 0 <= i < 7 ==> cs[i].category == CategoryName(AllCategories()[i])
    ensures GapScores(cs) == (cs[5].score, cs[0].score)
    ensures AlignmentScores(cs) == (cs[6].score, cs[1].score)
  {
    var cats := AllCategories();
    assert NamedAfter(cs, cats);
    GapPicksCategories(cs, cats);
    AlignmentPicksCategories(cs, cats);
  }

  /** On an AI-generated report (its categories are in the standard order)
      the gap section compares the earnings-quality and profitability
      entries, and the alignment section reads governance and growth. */
  lemma ForensicSectionScores(parsed: Option<Json>, name: string, years: int, date: string,
                              parse: string -> Option<real>, repr: Json -> string, r: QualityReport)
    requires Forensic.ForensicReport(parsed, name, years, date, parse, repr) == Ok(r)
    ensures |r.category_scores| == 7
    ensures GapScores(r.category_scores) == (r.category_scores[5].score, r.category_scores[0].score)
    ensures AlignmentScores(r.category_scores) == (r.category_scores[6].score, r.category_scores[1].score)
  {
    Forensic.ForensicCategories(parsed, name, years, date, parse, repr, r);
    StandardOrderScores(r.category_scores);
  }

  // ------------------------------------------------------------ gap and alignment

  /** The distance between the profitability and the earnings-quality score. */
  function Gap(earningsQuality: real, profitability: real): (g: real)
    ensures g >= 0.0
    ensures g < 1.0 <==> -1.0 < profitability - earningsQuality < 1.0
  {
    Abs(profitability - earningsQuality)
  }

  /** The gap does not depend on which score is the larger. */
  lemma GapSymmetric(a: real, b: real)
    ensures Gap(a, b) == Gap(b, a)
  {
  }

  function GapAssessment(gap: real): (a: string)
    ensures a == "minimal" <==> gap < 1.0
    ensures a == "moderate" <==> 1.0 <= gap < 2.0
    ensures a == "significant" <==> gap >= 2.0
  {
    if gap < 1.0 then "minimal" else if gap < 2.0 then "moderate" else "significant"
  }

  /** The gap verdict of a report. */
  function ReportGap(r: QualityReport): (a: string)
  {
    var (eq, prof) := GapScores(r.category_scores);
    GapAssessment(Gap(eq, prof))
  }

  /** The three words of the alignment paragraph. */
  function AlignmentWords(governance: real, growth: real): (w: (string, string, string))
    ensures w.2 == "effective" <==> governance + growth >= 12.0
  {
    (if governance >= 6.0 then "strong" else "moderate",
     if growth >= 6.0 then "robust" else "moderate",
     if governance + growth >= 12.0 then "effective" else "developing")
  }

  /** "effective" needs more than one good score: both at 6 or above is
      enough, and an effective alignment always has a strong governance or a
      robust growth score. */
  lemma AlignmentVerdict(governance: real, growth: real)
    ensures governance >= 6.0 && growth >= 6.0 ==> AlignmentWords(governance, growth).2 == "effective"
    ensures AlignmentWords(governance, growth).2 == "effective" ==>
              AlignmentWords(governance, growth).0 == "strong" || AlignmentWords(governance, growth).1 == "robust"
  {
  }

  // ------------------------------------------------------------ severity counts

  predicate IsHigh(f: RedFlag) { f.severity == "High" }
  predicate IsMedium(f: RedFlag) { f.severity == "Medium" }
  predicate IsLow(f: RedFlag) { f.severity == "Low" }
  predicate KnownSeverity(f: RedFlag) { f.severity in {"High", "Medium", "Low"} }

  /** The High, Medium and Low counts of the red-flag summary. */
  function SeverityCounts(fs: seq<RedFlag>): (c: (nat, nat, nat))
  {
    (Count(fs, IsHigh), Count(fs, IsMedium), Count(fs, IsLow))
  }

  /** The three counts add up to the number of flags exactly when every
      flag has one of the three severities. */
  lemma {:induction false} SeverityCountsTotal(fs: seq<RedFlag>)
    ensures SeverityCounts(fs).0 + SeverityCounts(fs).1 + SeverityCounts(fs).2 == |fs|
            <==> forall i :: 0 <= i < |fs| ==> KnownSeverity(fs[i])
  {
    if fs != [] {
      var init := fs[..|fs| - 1];
      SeverityCountsTotal(init);
      var c := SeverityCounts(init);
      assert c.0 + c.1 + c.2 <= |init| by { SeverityCountsBound(init); }
      assert forall i :: 0 <= i < |init| ==> init[i] == fs[i];
    }
  }

  lemma {:induction false} SeverityCountsBound(fs: seq<RedFlag>)
    ensures SeverityCounts(fs).0 + SeverityCounts(fs).1 + SeverityCounts(fs).2 <= |fs|
  {
    if fs != [] {
      SeverityCountsBound(fs[..|fs| - 1]);
    }
  }

  /** On an AI-generated report every flag is High or Medium, so its
      summary counts account for every flag. */
  lemma ForensicSeverityCounts(data: Dict<Json>, name: string, years: int, date: string,
                               parse: string -> Option<real>, repr: Json -> string, r: QualityReport)
    requires Forensic.ForensicReport(Some(JObj(data)), name, years, date, parse, repr) == Ok(r)
    ensures SeverityCounts(r.red_flags).0 + SeverityCounts(r.red_flags).1 + SeverityCounts(r.red_flags).2
              == |r.red_flags|
  {
    Forensic.ForensicFlagCount(data, name, years, date, parse, repr, r);
    var p := Forensic.SectionsOf(data).value;
    forall k | 0 <= k < |r.red_flags| ensures KnownSeverity(r.red_flags[k]) {
      if k < |p.critical| {
        Forensic.ForensicCriticalFlag(data, name, years, date, parse, repr, r, k);
      } else {
        Forensic.ForensicModerateFlag(data, name, years, date, parse, repr, r, k - |p.critical|);
      }
    }
    SeverityCountsTotal(r.red_flags);
  }

  // ------------------------------------------------------------ scoring table

  const TableHeader: seq<string> := ["Category", "Score", "Weight", "Weighted Score", "Assessment"]

  /** One category's row: score, weight in percent, score times weight, and
      the assessment word. */
  function CategoryTableRow(q: QualityScore): seq<string>
  {
    [q.category, FormatFixed(q.score, 1) + "/10", FormatFixed(q.weight * 100.0, 0) + "%",
     FormatFixed(Contribution(q), 2), CategoryAssessment(q.score)]
  }

  function OverallTableRow(overall: real): seq<string>
  {
    ["OVERALL QUALITY SCORE", FormatFixed(overall, 1) + "/10", "100%",
     FormatFixed(overall, 2), PdfRatingText(overall)]
  }

  function CategoryTableRows(cs: seq<QualityScore>): (rows: seq<seq<string>>)
    ensures |rows| == |cs|
  {
    seq(|cs|, i requires 0 <= i < |cs| => CategoryTableRow(cs[i]))
  }

  function ScoringTable(r: QualityReport): seq<seq<string>>
  {
    [TableHeader] + CategoryTableRows(r.category_scores) + [OverallTableRow(r.overall_score)]
  }

  /** `table_data` of the quantitative scoring section, built by appends. */
  method BuildScoringTable(r: QualityReport) returns (table: seq<seq<string>>)
    ensures table == ScoringTable(r)
  {
    table := [TableHeader];
    var cs := r.category_scores;
    var i := 0;
    while i < |cs|
      invariant 0 <= i <= |cs|
      invariant table == [TableHeader] + CategoryTableRows(cs[..i])
    {
      assert CategoryTableRows(cs[..i + 1]) == CategoryTableRows(cs[..i]) + [CategoryTableRow(cs[i])];
      table := table + [CategoryTableRow(cs[i])];
      i := i + 1;
    }
    assert cs[..i] == cs;
    table := table + [OverallTableRow(r.overall_score)];
  }

  /** The table is the header, one row per category and the overall row
      rated on the overall scale. */
  lemma ScoringTableEnds(r: QualityReport)
    ensures |ScoringTable(r)| == |r.category_scores| + 2
    ensures ScoringTable(r)[0] == TableHeader
    ensures ScoringTable(r)[|r.category_scores| + 1]
              == ["OVERALL QUALITY SCORE", FormatFixed(r.overall_score, 1) + "/10", "100%",
                  FormatFixed(r.overall_score, 2), PdfRatingNames()[ScoreBand(r.overall_score)]]
  {
  }

  /** Row `i + 1` is category `i` in report order: five cells whose weighted
      cell is score times weight and whose assessment is the score's band. */
  lemma ScoringTableRow(r: QualityReport, i: nat)
    requires i < |r.category_scores|
    ensures i + 1 < |ScoringTable(r)|
    ensures |ScoringTable(r)[i + 1]| == 5
    ensures ScoringTable(r)[i + 1][0] == r.category_scores[i].category
    ensures ScoringTable(r)[i + 1][3] == FormatFixed(Contribution(r.category_scores[i]), 2)
    ensures ScoringTable(r)[i + 1][4] == AssessmentNames()[ScoreBand(r.category_scores[i].score)]
  {
    ScoringTableAt(r, i);
    CategoryTableRowCells(r.category_scores[i]);
  }

  lemma MiddleAt<T>(h: T, xs: seq<T>, t: T, i: nat)
    requires i < |xs|
    ensures i + 1 < |[h] + xs + [t]| && ([h] + xs + [t])[i + 1] == xs[i]
  {
  }

  lemma ScoringTableAt(r: QualityReport, i: nat)
    requires i < |r.category_scores|
    ensures i + 1 < |ScoringTable(r)| && ScoringTable(r)[i + 1] == CategoryTableRow(r.category_scores[i])
  {
    MiddleAt(TableHeader, CategoryTableRows(r.category_scores), OverallTableRow(r.overall_score), i);
  }

  lemma CategoryTableRowCells(q: QualityScore)
    ensures |CategoryTableRow(q)| == 5 && CategoryTableRow(q)[0] == q.category
    ensures CategoryTableRow(q)[3] == FormatFixed(Contribution(q), 2)
    ensures CategoryTableRow(q)[4] == AssessmentNames()[ScoreBand(q.score)]
  {
    assert CategoryTableRow(q)[4] == CategoryAssessment(q.score);
  }
}
