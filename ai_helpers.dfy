/** The parts of the AI-enhanced analyzer that do not call a model: the
    basic management assessment, the trend label, the fallback thesis and
    risk texts, and the unwrapping of a fenced model answer. */
module AiHelpers {
  import opened Wrappers
  import opened Text
  import opened Numbers
  import opened Dicts
  import opened FinancialModel
  import opened ReportTypes

  // -------------------------------------------------- management assessment

  datatype ManagementAssessment = ManagementAssessment(
    guidance_vs_reality: Dict<string>,
    achievement_rating: string,
    narrative_consistency: string,
    accepts_mistakes: bool,
    external_blame_pattern: bool,
    business_visibility: string,
    clarity_score: int,
    provides_numbers: bool,
    vision_quality: string,
    long_term_focus: bool,
    strategic_initiatives: seq<string>,
    capital_allocation_rating: string,
    allocation_analysis: string,
    bad_acquisitions: seq<string>,
    communication_quality: string,
    transparency_rating: string,
    answers_tough_questions: bool,
    management_red_flags: seq<string>,
    management_score: real,
    management_category: string,
    detailed_analysis: string)

  /** A year whose revenue is above the year before it; pairs are
      (newer, older). */
  predicate Rose(p: (real, real)) { p.0 > p.1 }

  /** At least three revenue years, each above the one before it. */
  predicate RevenueRoseEveryYear(d: FinancialData)
  {
    |d.revenue| >= 3 && Count(Adjacent(Values(d.revenue)), Rose) == |d.revenue| - 1
  }

  /** Some key strength mentions cash, in any letter case. */
  predicate MentionsCash(ks: seq<string>)
  {
    exists i :: 0 <= i < |ks| && Contains(Lower(ks[i]), "cash")
  }

  function PerformanceAdjustment(overall: real): real
  {
    if overall >= 7.0 then 2.0 else if overall < 5.0 then -1.0 else 0.0
  }

  /** The basic management score: 5 adjusted for the overall score, steady
      growth and cash strengths, held within [1, 10]. */
  function ManagementScoreOf(d: FinancialData, overall: real, ks: seq<string>): real
  {
    Clamp(5.0 + PerformanceAdjustment(overall)
              + (if RevenueRoseEveryYear(d) then 1.0 else 0.0)
              + (if MentionsCash(ks) then 0.5 else 0.0), 1.0, 10.0)
  }

  function ManagementBand(score: real): string
  {
    if score >= 8.0 then "Excellent" else if score >= 6.0 then "Good" else if score >= 4.0 then "Average" else "Weak"
  }

  /** The assessment the analyzer falls back to without a model; the
      narrative text is `describe(score, category, overall)`. */
  function BasicAssessmentOf(d: FinancialData, overall: real, ks: seq<string>,
                             describe: (real, string, real) -> string): ManagementAssessment
  {
    var score := ManagementScoreOf(d, overall, ks);
    var category := ManagementBand(score);
    ManagementAssessment([], "Analysis based on financial metrics only", "Medium", false, false,
                         "Medium", Trunc(score), false, "Average", false, [], "Average",
                         "Based on financial metrics - detailed analysis requires AI", [],
                         "Average", "Medium", false, [], score, category, describe(score, category, overall))
  }

  /** The number of years whose revenue rose. */
  method CountRisingYears(revenues: seq<real>) returns (n: nat)
    ensures n == Count(Adjacent(revenues), Rose)
  {
    n := 0;
    if |revenues| < 2 {
      return;
    }
    ghost var pairs := Adjacent(revenues);
    var i := 0;
    while i < |revenues| - 1
      invariant 0 <= i <= |revenues| - 1
      invariant n == Count(pairs[..i], Rose)
    {
      assert pairs[..i + 1][..i] == pairs[..i];
      assert pairs[..i + 1][i] == (revenues[i], revenues[i + 1]);
      if revenues[i] > revenues[i + 1] {
        n := n + 1;
      }
      i := i + 1;
    }
    assert pairs[..|revenues| - 1] == pairs;
  }

  /** Whether some key strength mentions cash, stopping at the first. */
  method AnyMentionsCash(ks: seq<string>) returns (found: bool)
    ensures found == MentionsCash(ks)
  {
    found := false;
    var i := 0;
    while i < |ks| && !found
      invariant 0 <= i <= |ks|
      invariant found == exists k :: 0 <= k < i && Contains(Lower(ks[k]), "cash")
    {
      if Contains(Lower(ks[i]), "cash") {
        found := true;
      }
      i := i + 1;
    }
  }

  /** The score steps of the basic assessment. */
  method BasicManagementScore(d: FinancialData, report: QualityReport) returns (score: real)
    ensures score == ManagementScoreOf(d, report.overall_score, report.key_strengths)
  {
    score := 5.0;
    if report.overall_score >= 7.0 {
      score := score + 2.0;
    } else if report.overall_score < 5.0 {
      score := score - 1.0;
    }
    if d.revenue != [] && |d.revenue| >= 3 {
      var revenues := Values(d.revenue);
      var positiveGrowth := CountRisingYears(revenues);
      if positiveGrowth == |revenues| - 1 {
        score := score + 1.0;
      }
    }
    assert score == 5.0 + PerformanceAdjustment(report.overall_score) + (if RevenueRoseEveryYear(d) then 1.0 else 0.0);
    var cash := AnyMentionsCash(report.key_strengths);
    if cash {
      score := score + 0.5;
    }
    score := Clamp(score, 1.0, 10.0);
  }

  method GenerateBasicManagementAssessment(d: FinancialData, report: QualityReport,
                                           describe: (real, string, real) -> string)
    returns (m: ManagementAssessment)
    ensures m == BasicAssessmentOf(d, report.overall_score, report.key_strengths, describe)
  {
    var score := BasicManagementScore(d, report);
    var category: string;
    if score >= 8.0 {
      category := "Excellent";
    } else if score >= 6.0 {
      category := "Good";
    } else if score >= 4.0 {
      category := "Average";
    } else {
      category := "Weak";
    }
    assert category == ManagementBand(score);
    m := ManagementAssessment([], "Analysis based on financial metrics only", "Medium", false, false,
                              "Medium", Trunc(score), false, "Average", false, [], "Average",
                              "Based on financial metrics - detailed analysis requires AI", [],
                              "Average", "Medium", false, [], score, category,
                              describe(score, category, report.overall_score));
  }

  /** The adjustments keep the score within [4, 8.5], so the clamp to
      [1, 10] never changes it. */
  lemma ManagementScoreRange(d: FinancialData, overall: real, ks: seq<string>)
    ensures 4.0 <= ManagementScoreOf(d, overall, ks) <= 8.5
    ensures ManagementScoreOf(d, overall, ks) == 5.0 + PerformanceAdjustment(overall)
              + (if RevenueRoseEveryYear(d) then 1.0 else 0.0) + (if MentionsCash(ks) then 0.5 else 0.0)
  {
  }

  /** The basic assessment never reaches the "Weak" band, and its clarity
      score lies in [4, 8]. */
  lemma ManagementNeverWeak(d: FinancialData, overall: real, ks: seq<string>,
                            describe: (real, string, real) -> string)
    ensures BasicAssessmentOf(d, overall, ks, describe).management_category != "Weak"
    ensures 4 <= BasicAssessmentOf(d, overall, ks, describe).clarity_score <= 8
  {
    ManagementScoreRange(d, overall, ks);
  }

  /** "Excellent" takes both a strong overall score and revenue rising every
      year; a cash strength alone cannot lift a score there. */
  lemma ManagementExcellentIff(d: FinancialData, overall: real, ks: seq<string>)
    ensures ManagementBand(ManagementScoreOf(d, overall, ks)) == "Excellent"
        <==> overall >= 7.0 && RevenueRoseEveryYear(d)
  {
    ManagementScoreRange(d, overall, ks);
  }

  /** "Good" is exactly one of the two big adjustments without the other. */
  lemma ManagementGoodIff(d: FinancialData, overall: real, ks: seq<string>)
    ensures ManagementBand(ManagementScoreOf(d, overall, ks)) == "Good"
        <==> (overall >= 7.0 && !RevenueRoseEveryYear(d)) || (5.0 <= overall < 7.0 && RevenueRoseEveryYear(d))
  {
    ManagementScoreRange(d, overall, ks);
  }

  // ------------------------------------------------------------------ trend

  /** Compares the most recent value with the oldest one. */
  function AnalyzeTrend(s: Series): string
  {
    if |s| < 2 then "Insufficient data"
    else
      var first, last := s[0].1, s[|s| - 1].1;
      if first > last * 1.1 then "Improving"
      else if first < last * 0.9 then "Declining"
      else "Stable"
  }

  /** Over a positive oldest value the label reads the ratio of the newest
      to the oldest value: above 1.1 improving, below 0.9 declining. */
  lemma TrendByRatio(s: Series)
    requires |s| >= 2 && s[|s| - 1].1 > 0.0
    ensures AnalyzeTrend(s) == "Improving" <==> s[0].1 / s[|s| - 1].1 > 1.1
    ensures AnalyzeTrend(s) == "Declining" <==> s[0].1 / s[|s| - 1].1 < 0.9
    ensures AnalyzeTrend(s) == "Stable" <==> 0.9 <= s[0].1 / s[|s| - 1].1 <= 1.1
  {
    var first, last := s[0].1, s[|s| - 1].1;
    RatioCompare(first, last, 1.1);
    RatioCompare(first, last, 0.9);
  }

  /** Comparing with a multiple of a positive base is comparing the ratio. */
  lemma RatioCompare(x: real, base: real, k: real)
    requires base > 0.0
    ensures x > base * k <==> x / base > k
    ensures x < base * k <==> x / base < k
  {
    var q := x / base;
    assert x == q * base;
    assert x - base * k == (q - k) * base;
    if q > k {
      assert (q - k) * base > 0.0;
    } else if q < k {
      assert (k - q) * base > 0.0;
    }
  }

  /** Over a negative oldest value the thresholds swap sides: a loss that
      deepened from 10 to 10.5 reads as improving. */
  lemma DeeperLossReadsImproving()
    ensures AnalyzeTrend([("2024", -10.5), ("2020", -10.0)]) == "Improving"
  {
  }

  // --------------------------------------------------------- fallback texts

  function QualityLevel(overall: real): string
  {
    if overall >= 7.0 then "high" else if overall >= 5.0 then "moderate" else "concerning"
  }

  function ThesisOpening(name: string, overall: real): string
  {
    name + " demonstrates " + QualityLevel(overall)
  }

  function ThesisClosing(): (s: string)
    ensures s != [] && s[|s| - 1] == '.'
  {
    "/10.\nInvestors should consider the identified strengths and red flags in their analysis.\n"
    + "Further due diligence recommended on specific concerns identified in this report."
  }

  /** The three sentences of the fallback thesis; `repr` renders the score. */
  function ThesisLines(name: string, overall: real, repr: real -> string): string
  {
    ThesisOpening(name, overall) + (" quality characteristics with a score of " + repr(overall) + ThesisClosing())
  }

  function BasicThesis(report: QualityReport, repr: real -> string): string
  {
    Strip("\n" + ThesisLines(report.company_name, report.overall_score, repr) + "\n")
  }

  /** The quality level is a monotone three-way band of the score. */
  lemma QualityLevelBands(a: real, b: real)
    ensures QualityLevel(a) in {"high", "moderate", "concerning"}
    ensures QualityLevel(a) == "high" <==> a >= 7.0
    ensures QualityLevel(a) == "concerning" <==> a < 5.0
    ensures a <= b && QualityLevel(a) == "high" ==> QualityLevel(b) == "high"
    ensures a <= b && QualityLevel(b) == "concerning" ==> QualityLevel(a) == "concerning"
  {
  }

  /** For a company name that starts with a non-blank character the thesis
      is its three sentences, opening with the name and the quality level. */
  lemma BasicThesisText(report: QualityReport, repr: real -> string)
    requires report.company_name != [] && !IsSpaceChar(report.company_name[0])
    ensures BasicThesis(report, repr) == ThesisLines(report.company_name, report.overall_score, repr)
    ensures StartsWith(BasicThesis(report, repr), ThesisOpening(report.company_name, report.overall_score))
  {
    var p := ThesisOpening(report.company_name, report.overall_score);
    var q := " quality characteristics with a score of " + repr(report.overall_score) + ThesisClosing();
    assert p[0] == report.company_name[0];
    Ends(p, q);
    Ends(" quality characteristics with a score of " + repr(report.overall_score), ThesisClosing());
    StripFramed(p + q);
    assert (p + q)[..|p|] == p;
  }

  /** `f"- {rf.description} ({rf.severity} severity)"` */
  function RiskLine(f: RedFlag): string
  {
    "- " + f.description + " (" + f.severity + " severity)"
  }

  /** One line for each of the first five flags. */
  function RiskLines(flags: seq<RedFlag>): (r: seq<string>)
    ensures |r| == if |flags| < 5 then |flags| else 5
    ensures forall k :: 0 <= k < |r| ==> r[k] == RiskLine(flags[k])
  {
    var first := Take(flags, 5);
    seq(|first|, k requires 0 <= k < |first| => RiskLine(first[k]))
  }

  function RiskBody(flags: seq<RedFlag>): string
  {
    var lines := RiskLines(flags);
    if lines == [] then "- No critical red flags identified" else Join(lines, "\n")
  }

  function RiskClosing(): (s: string)
    ensures s != [] && s[|s| - 1] == '.'
  {
    "\n\nMonitor these factors as they may impact future performance and investment returns."
  }

  function RiskText(flags: seq<RedFlag>): string
  {
    "Key risks identified:\n" + (RiskBody(flags) + RiskClosing())
  }

  function BasicRisks(report: QualityReport): string
  {
    Strip("\n" + RiskText(report.red_flags) + "\n")
  }

  /** The fallback risk text lists the first five flags, one per line, or
      says there are none. */
  lemma BasicRisksText(report: QualityReport)
    ensures BasicRisks(report) == RiskText(report.red_flags)
    ensures report.red_flags == [] ==> RiskBody(report.red_flags) == "- No critical red flags identified"
    ensures report.red_flags != [] ==> RiskBody(report.red_flags) == Join(RiskLines(report.red_flags), "\n")
  {
    var a, b := "Key risks identified:\n", RiskBody(report.red_flags) + RiskClosing();
    Ends(a, b);
    Ends(RiskBody(report.red_flags), RiskClosing());
    StripFramed(a + b);
  }

  /** The first and last characters of a concatenation. */
  lemma Ends(a: string, b: string)
    requires a != [] && b != []
    ensures (a + b)[0] == a[0] && (a + b)[|a + b| - 1] == b[|b| - 1]
  {
  }

  // ------------------------------------------------------ fenced answers

  /** `s.split(sep)[1]`: the text between the first and the second `sep`. */
  function SecondPart(s: string, sep: string): (r: string)
    requires |sep| > 0 && Contains(s, sep)
  {
    var i := IndexOf(s, sep).value;
    Before(s[i + |sep|..], sep)
  }

  /** Unwraps a model answer from a ```` ```json ```` or plain ```` ``` ````
      fence; an answer without a fence is kept. */
  function StripFences(s: string): string
  {
    if Contains(s, "```json") then Strip(Before(SecondPart(s, "```json"), "```"))
    else if Contains(s, "```") then Strip(Before(SecondPart(s, "```"), "```"))
    else s
  }

  lemma StrippedPieceHasNoFence(x: string)
    ensures !Contains(Strip(Before(x, "```")), "```")
  {
    BeforeHasNoSep(x, "```");
    StripKeepsAbsence(Before(x, "```"), "```");
  }

  /** The unwrapped answer never holds a fence, and an answer without one is
      unchanged. */
  lemma StripFencesRemovesFences(s: string)
    ensures !Contains(StripFences(s), "```")
    ensures !Contains(s, "```") ==> StripFences(s) == s
  {
    if Contains(s, "```json") {
      var j := IndexOf(s, "```json").value;
      assert s[j..j + 3] == s[j..j + 7][..3] == "```";
      ContainsAt(s, "```", j);
      StrippedPieceHasNoFence(SecondPart(s, "```json"));
    } else if Contains(s, "```") {
      StrippedPieceHasNoFence(SecondPart(s, "```"));
    }
  }

  /** Where `sub` opens `t` and its first character is not in `b`, the first
      `sub` of `b + t` is at `|b|`. */
  lemma FirstAfterPlain(b: string, t: string, sub: string)
    requires sub != [] && sub[0] !in b && StartsWith(t, sub)
    ensures IndexOf(b + t, sub) == Some(|b|)
  {
    var s := b + t;
    assert s[|b|..] == t;
    var r := IndexOf(s, sub);
    assert r.Some?;
    assert s[r.value..][0] == sub[0];
    assert s[r.value] == sub[0];
  }

  /** A plain text followed by a bare fence holds no ```` ```json ````. */
  lemma NoJsonFence(b: string)
    requires '`' !in b
    ensures !Contains(b + "```", "```json")
  {
    var s := b + "```";
    forall j | 0 <= j <= |s|
      ensures !StartsWith(s[j..], "```json")
    {
      if j + 7 <= |s| {
        assert s[j] == b[j];
        assert s[j..][0] == s[j];
      }
    }
  }

  /** An answer wrapped as ```` ```json<body>``` ```` is unwrapped to its
      stripped body. */
  lemma UnwrapFencedAnswer(body: string)
    requires '`' !in body
    ensures StripFences("```json" + body + "```") == Strip(body)
  {
    var s := "```json" + body + "```";
    assert StartsWith(s, "```json");
    assert IndexOf(s, "```json") == Some(0);
    assert s[7..] == body + "```";
    NoJsonFence(body);
    assert SecondPart(s, "```json") == body + "```";
    FirstAfterPlain(body, "```", "```");
    assert (body + "```")[..|body|] == body;
  }
}
