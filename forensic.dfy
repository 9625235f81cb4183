/** The forensic analyzer's deterministic parts: the cut applied to the
    report text before it goes into the prompt, and the mapping of the
    model's JSON answer onto a quality report. */
module Forensic {
  import opened Wrappers
  import opened Text
  import opened Dicts
  import opened JsonModel
  import opened ReportTypes
  import PdfParser

  // ------------------------------------------------------------ truncation

  const MaxTextLength := 50000
  const TruncationMarker := "\n\n[Document truncated for processing...]"

  /** The text sent to the model: at most 50000 characters of the report,
      marked when something was cut. */
  function TruncateForPrompt(t: string): (r: string)
    ensures |r| <= MaxTextLength + |TruncationMarker|
    ensures |t| <= MaxTextLength ==> r == t
    ensures |t| > MaxTextLength ==> |r| == MaxTextLength + |TruncationMarker|
    ensures |t| > MaxTextLength ==> r[..MaxTextLength] == t[..MaxTextLength] && r[MaxTextLength..] == TruncationMarker
    ensures forall i :: 0 <= i < |r| && i < |t| && i < MaxTextLength ==> r[i] == t[i]
  {
    if |t| > MaxTextLength then t[..MaxTextLength] + TruncationMarker else t
  }

  // -------------------------------------------------------- category scores

  /** Where one category's score and explanation sit in the answer: the
      sub-score key under "quantitative_scoring", the section and key of the
      explanation, and whether the explanation is cut to 200 characters. */
  datatype CategorySource = CategorySource(cat: Category, scoreKey: string, section: string, textKey: string, cut: bool)

  /** The answer's fields for one category. */
  function SourceOf(c: Category): (s: CategorySource)
    ensures s.cat == c
  {
    match c
    case Profitability => CategorySource(c, "earnings_quality", "earnings_quality_metrics", "cfo_pat_ratio", false)
    case Growth => CategorySource(c, "strategy_clarity", "multi_year_trends", "revenue_growth_sustainability", false)
    case FinancialHealth => CategorySource(c, "balance_sheet_integrity", "multi_year_trends", "leverage_trend", false)
    case CashManagement => CategorySource(c, "capital_allocation_discipline", "capital_allocation", "analysis", true)
    case CapitalEfficiency => CategorySource(c, "execution_consistency", "multi_year_trends", "roce_trend", false)
    case QualityOfEarnings => CategorySource(c, "earnings_quality", "earnings_quality_metrics", "working_capital_trend", false)
    case Governance => CategorySource(c, "governance_quality", "governance_transparency", "analysis", true)
  }

  /** The seven categories' sources, in the analyzer's order. */
  function CategorySources(): (cs: seq<CategorySource>)
    ensures |cs| == 7
    ensures forall i :: 0 <= i < 7 ==> cs[i] == SourceOf(AllCategories()[i])
  {
    seq(7, i requires 0 <= i < 7 => SourceOf(AllCategories()[i]))
  }

  /** `float(scoring.get(key, 0))`, `None` when it raises. */
  function SubScore(scoring: Dict<Json>, key: string, parse: string -> Option<real>): Option<real>
  {
    FloatOf(PdfParser.Field(scoring, key, JNum(0.0)), parse)
  }

  /** An explanation field: a string (cut to 200 characters where the source
      slices it); a list slices to a list, kept here as ""; slicing any other
      value raises. */
  function Explanation(data: Dict<Json>, s: CategorySource): Option<string>
  {
    var sec := PdfParser.Field(data, s.section, JObj([]));
    if !sec.JObj? then None
    else
      var e := PdfParser.Field(sec.fields, s.textKey, JStr(""));
      if !s.cut then Some(TextOf(e))
      else if e.JStr? then Some(Take(e.s, 200))
      else if e.JArr? then Some("")
      else None
  }

  function CategoryScoreOf(data: Dict<Json>, scoring: Dict<Json>, s: CategorySource, parse: string -> Option<real>)
    : Option<QualityScore>
  {
    var v := SubScore(scoring, s.scoreKey, parse);
    var e := Explanation(data, s);
    if v.None? || e.None? then None
    else Some(QualityScore(CategoryName(s.cat), v.value * 5.0, CategoryWeight(s.cat), [], [], e.value))
  }

  /** The category list, `None` when building any entry raises. */
  function ScoresFor(data: Dict<Json>, scoring: Dict<Json>, ss: seq<CategorySource>, parse: string -> Option<real>)
    : (r: Option<seq<QualityScore>>)
    ensures r.Some? ==> |r.value| == |ss|
    decreases |ss|
  {
    if ss == [] then Some([])
    else
      var head := CategoryScoreOf(data, scoring, ss[0], parse);
      var tail := ScoresFor(data, scoring, ss[1..], parse);
      if head.None? || tail.None? then None
      else Some([head.value] + tail.value)
  }

  /** Entry `i` of a built list is the entry built from source `i`. */
  lemma {:induction false} ScoresForEntry(data: Dict<Json>, scoring: Dict<Json>, ss: seq<CategorySource>,
                                          parse: string -> Option<real>, i: nat)
    requires ScoresFor(data, scoring, ss, parse).Some? && i < |ss|
    ensures i < |ScoresFor(data, scoring, ss, parse).value|
    ensures Some(ScoresFor(data, scoring, ss, parse).value[i]) == CategoryScoreOf(data, scoring, ss[i], parse)
    decreases |ss|
  {
    if i > 0 {
      ScoresForEntry(data, scoring, ss[1..], parse, i - 1);
      assert ss[1..][i - 1] == ss[i];
    }
  }

  /** The list is built when every entry is. */
  lemma {:induction false} ScoresForBuilt(data: Dict<Json>, scoring: Dict<Json>, ss: seq<CategorySource>,
                                          parse: string -> Option<real>)
    requires forall i :: 0 <= i < |ss| ==> CategoryScoreOf(data, scoring, ss[i], parse).Some?
    ensures ScoresFor(data, scoring, ss, parse).Some?
    decreases |ss|
  {
    if ss != [] {
      assert forall i :: 0 <= i < |ss[1..]| ==> ss[1..][i] == ss[i + 1];
      ScoresForBuilt(data, scoring, ss[1..], parse);
    }
  }

  // -------------------------------------------------------------- red flags

  /** A critical entry: an object's fields, defaulting as the source does;
      anything else raises on `.get`. */
  function CriticalFlag(j: Json): Option<RedFlag>
  {
    if j.JObj? then Some(FlagFrom("High", j.fields)) else None
  }

  function FlagFrom(severity: string, fs: Dict<Json>): RedFlag
  {
    RedFlag(severity,
      TextOf(PdfParser.Field(fs, "category", JStr("General"))),
      TextOf(PdfParser.Field(fs, "description", JStr(""))),
      TextOf(PdfParser.Field(fs, "impact", JStr(""))),
      TextOf(PdfParser.Field(fs, "recommendation", JStr(""))))
  }

  /** `str(v)`: a string itself, any other value through `repr`. */
  function StrOf(j: Json, repr: Json -> string): string
  {
    if j.JStr? then j.s else repr(j)
  }

  /** A moderate entry: an object's fields, or a general flag describing a
      plain value. */
  function ModerateFlag(j: Json, repr: Json -> string): RedFlag
  {
    if j.JObj? then FlagFrom("Medium", j.fields)
    else RedFlag("Medium", "General", StrOf(j, repr), "Requires monitoring", "Further investigation recommended")
  }

  function CriticalFlags(items: seq<Json>): (r: Option<seq<RedFlag>>)
    ensures r.Some? <==> forall i :: 0 <= i < |items| ==> items[i].JObj?
    ensures r.Some? ==> |r.value| == |items| && forall i :: 0 <= i < |items| ==> Some(r.value[i]) == CriticalFlag(items[i])
  {
    if forall i :: 0 <= i < |items| ==> items[i].JObj?
    then Some(seq(|items|, i requires 0 <= i < |items| => FlagFrom("High", items[i].fields)))
    else None
  }

  function ModerateFlags(items: seq<Json>, repr: Json -> string): (r: seq<RedFlag>)
    ensures |r| == |items| && forall i :: 0 <= i < |items| ==> r[i] == ModerateFlag(items[i], repr)
  {
    seq(|items|, i requires 0 <= i < |items| => ModerateFlag(items[i], repr))
  }

  // ------------------------------------------------------------ the report

  /** The sections the mapping reads with `.get` or iterates over. */
  datatype Sections = Sections(scoring: Dict<Json>, flags: Dict<Json>, verdict: Dict<Json>,
                               critical: seq<Json>, moderate: seq<Json>)

  /** `None` when a section read with `.get` is not an object or a flag list
      cannot be iterated. */
  function SectionsOf(data: Dict<Json>): Option<Sections>
  {
    var scoring := PdfParser.Field(data, "quantitative_scoring", JObj([]));
    var flags := PdfParser.Field(data, "red_flags", JObj([]));
    var verdict := PdfParser.Field(data, "final_verdict", JObj([]));
    if !scoring.JObj? || !flags.JObj? || !verdict.JObj? then None
    else
      var critical := Items(PdfParser.Field(flags.fields, "critical", JArr([])));
      var moderate := Items(PdfParser.Field(flags.fields, "moderate", JArr([])));
      if critical.Err? || moderate.Err? then None
      else Some(Sections(scoring.fields, flags.fields, verdict.fields, critical.value, moderate.value))
  }

  /** The items of a strengths list, as text. */
  function StringsOf(j: Json, repr: Json -> string): (r: seq<string>)
    ensures j.JArr? ==> |r| == |j.items| && forall i :: 0 <= i < |j.items| ==> r[i] == StrOf(j.items[i], repr)
  {
    if j.JArr? then seq(|j.items|, i requires 0 <= i < |j.items| => StrOf(j.items[i], repr)) else []
  }

  /** The top-level strengths when truthy, else those under "red_flags". */
  function KeyStrengthsValue(data: Dict<Json>, flags: Dict<Json>): Json
  {
    var top := PdfParser.Field(data, "key_strengths", JArr([]));
    if Truthy(top) then top else PdfParser.Field(flags, "strengths", JArr([]))
  }

  /** The metrics of a forensic report: the answer's verdict, earnings
      quality, multi-year trends and execution sections, each `{}` when
      absent. */
  function ForensicMetrics(data: Dict<Json>): MetricsSummary
  {
    ForensicSections(PdfParser.Field(data, "final_verdict", JObj([])),
                     PdfParser.Field(data, "earnings_quality_metrics", JObj([])),
                     PdfParser.Field(data, "multi_year_trends", JObj([])),
                     PdfParser.Field(data, "execution_vs_narrative", JObj([])))
  }

  const DecodeError := "Failed to parse analysis JSON"
  const ShapeError := "analysis JSON has an unexpected shape"

  /** The report `_parse_analysis_to_report` builds; `parsed` is the result
      of `json.loads` (`None` when it raises), `date` today's date, `repr`
      Python's `str` on non-string values. */
  function ForensicReport(parsed: Option<Json>, name: string, years: int, date: string,
                          parse: string -> Option<real>, repr: Json -> string): Result<QualityReport>
  {
    if parsed.None? then Err(DecodeError)
    else if !parsed.value.JObj? then Err(ShapeError)
    else
      var data := parsed.value.fields;
      var sections := SectionsOf(data);
      if sections.None? then Err(ShapeError)
      else
        var p := sections.value;
        var overall := SubScore(p.scoring, "normalized_score", parse);
        var scores := ScoresFor(data, p.scoring, CategorySources(), parse);
        var critical := CriticalFlags(p.critical);
        if overall.None? || scores.None? || critical.None? then Err(ShapeError)
        else
          Ok(QualityReport(name, PdfParser.UnderscoreTicker(name), date, years, overall.value, scores.value,
                           StringsOf(KeyStrengthsValue(data, p.flags), repr),
                           critical.value + ModerateFlags(p.moderate, repr),
                           TextOf(PdfParser.Field(data, "executive_summary", JStr(""))),
                           TextOf(PdfParser.Field(p.verdict, "investment_perspective", JStr(""))),
                           TextOf(PdfParser.Field(p.verdict, "summary", JStr(""))),
                           ForensicMetrics(data)))
  }

  /** `_parse_analysis_to_report`, with its two flag loops. */
  method ParseAnalysisToReport(parsed: Option<Json>, name: string, years: int, date: string,
                               parse: string -> Option<real>, repr: Json -> string)
    returns (r: Result<QualityReport>)
    ensures r == ForensicReport(parsed, name, years, date, parse, repr)
  {
    if parsed.None? {
      return Err(DecodeError);
    }
    if !parsed.value.JObj? {
      return Err(ShapeError);
    }
    var data := parsed.value.fields;
    var sections := SectionsOf(data);
    if sections.None? {
      return Err(ShapeError);
    }
    var p := sections.value;
    var overall := SubScore(p.scoring, "normalized_score", parse);
    var scores := ScoresFor(data, p.scoring, CategorySources(), parse);
    if overall.None? || scores.None? {
      return Err(ShapeError);
    }
    var critical := CollectCritical(p.critical);
    if critical.None? {
      return Err(ShapeError);
    }
    var flags := AppendModerate(critical.value, p.moderate, repr);
    var strengths := StringsOf(KeyStrengthsValue(data, p.flags), repr);
    r := Ok(QualityReport(name, PdfParser.UnderscoreTicker(name), date, years, overall.value, scores.value,
                          strengths, flags,
                          TextOf(PdfParser.Field(data, "executive_summary", JStr(""))),
                          TextOf(PdfParser.Field(p.verdict, "investment_perspective", JStr(""))),
                          TextOf(PdfParser.Field(p.verdict, "summary", JStr(""))),
                          ForensicMetrics(data)));
  }

  /** The loop over "critical" entries; an entry that is not an object
      raises. */
  method CollectCritical(items: seq<Json>) returns (r: Option<seq<RedFlag>>)
    ensures r == CriticalFlags(items)
  {
    var flags: seq<RedFlag> := [];
    var i := 0;
    while i < |items|
      invariant 0 <= i <= |items| && |flags| == i
      invariant forall j :: 0 <= j < i ==> items[j].JObj? && flags[j] == FlagFrom("High", items[j].fields)
    {
      var flag := items[i];
      if !flag.JObj? {
        return None;
      }
      flags := flags + [FlagFrom("High", flag.fields)];
      i := i + 1;
    }
    assert CriticalFlags(items).Some?;
    assert flags == CriticalFlags(items).value;
    r := Some(flags);
  }

  /** The loop over "moderate" entries, appending after the critical ones. */
  method AppendModerate(start: seq<RedFlag>, items: seq<Json>, repr: Json -> string) returns (flags: seq<RedFlag>)
    ensures flags == start + ModerateFlags(items, repr)
  {
    flags := start;
    var i := 0;
    while i < |items|
      invariant 0 <= i <= |items| && |flags| == |start| + i
      invariant flags[..|start|] == start
      invariant forall j :: 0 <= j < i ==> flags[|start| + j] == ModerateFlag(items[j], repr)
    {
      var flag := items[i];
      if flag.JObj? {
        flags := flags + [FlagFrom("Medium", flag.fields)];
      } else {
        flags := flags + [RedFlag("Medium", "General", StrOf(flag, repr), "Requires monitoring", "Further investigation recommended")];
      }
      i := i + 1;
    }
  }

  // ----------------------------------------------------- report properties

  /** A built category entry: the category's name and weight, five times the
      sub-score, no strengths or concerns, and a cut explanation where the
      source slices it. */
  lemma CategoryScoreParts(data: Dict<Json>, scoring: Dict<Json>, s: CategorySource, parse: string -> Option<real>)
    requires CategoryScoreOf(data, scoring, s, parse).Some?
    ensures SubScore(scoring, s.scoreKey, parse).Some?
    ensures CategoryScoreOf(data, scoring, s, parse).value.score == 5.0 * SubScore(scoring, s.scoreKey, parse).value
    ensures CategoryScoreOf(data, scoring, s, parse).value.category == CategoryName(s.cat)
    ensures CategoryScoreOf(data, scoring, s, parse).value.weight == CategoryWeight(s.cat)
    ensures CategoryScoreOf(data, scoring, s, parse).value.strengths == []
    ensures CategoryScoreOf(data, scoring, s, parse).value.concerns == []
    ensures s.cut ==> |CategoryScoreOf(data, scoring, s, parse).value.explanation| <= 200
  {
  }

  /** Entry `i` of the seven-category list, as `CategoryScoreParts` gives
      it for source `i`. */
  lemma EntryParts(data: Dict<Json>, scoring: Dict<Json>, cs: seq<QualityScore>, parse: string -> Option<real>, i: nat)
    requires ScoresFor(data, scoring, CategorySources(), parse) == Some(cs) && i < 7
    ensures |cs| == 7
    ensures SubScore(scoring, CategorySources()[i].scoreKey, parse).Some?
    ensures cs[i].score == 5.0 * SubScore(scoring, CategorySources()[i].scoreKey, parse).value
    ensures cs[i].category == CategoryName(AllCategories()[i]) && cs[i].weight == CategoryWeight(AllCategories()[i])
    ensures cs[i].strengths == [] && cs[i].concerns == []
    ensures CategorySources()[i].cut ==> |cs[i].explanation| <= 200
  {
    var src := CategorySources();
    ScoresForEntry(data, scoring, src, parse, i);
    CategoryScoreParts(data, scoring, src[i], parse);
  }

  /** The category list and the overall score of an accepted answer. */
  lemma ForensicScoreList(data: Dict<Json>, name: string, years: int, date: string,
                          parse: string -> Option<real>, repr: Json -> string, r: QualityReport)
    requires ForensicReport(Some(JObj(data)), name, years, date, parse, repr) == Ok(r)
    ensures SectionsOf(data).Some? && SectionsOf(data).value.scoring == ScoringOf(data)
    ensures ScoresFor(data, ScoringOf(data), CategorySources(), parse) == Some(r.category_scores)
    ensures SubScore(ScoringOf(data), "normalized_score", parse) == Some(r.overall_score)
  {
  }

  /** The seven categories come in the analyzer's order with its names and
      weights and no strengths or concerns. */
  lemma ForensicCategories(parsed: Option<Json>, name: string, years: int, date: string,
                           parse: string -> Option<real>, repr: Json -> string, r: QualityReport)
    requires ForensicReport(parsed, name, years, date, parse, repr) == Ok(r)
    ensures |r.category_scores| == 7
    ensures forall i :: 0 <= i < 7 ==>
              r.category_scores[i].category == CategoryName(AllCategories()[i])
              && r.category_scores[i].weight == CategoryWeight(AllCategories()[i])
              && r.category_scores[i].strengths == [] && r.category_scores[i].concerns == []
  {
    assert parsed.Some? && parsed.value.JObj?;
    var data := parsed.value.fields;
    ForensicScoreList(data, name, years, date, parse, repr, r);
    var sc := ScoringOf(data);
    var cs := r.category_scores;
    forall i | 0 <= i < 7
      ensures cs[i].category == CategoryName(AllCategories()[i]) && cs[i].weight == CategoryWeight(AllCategories()[i])
      ensures cs[i].strengths == [] && cs[i].concerns == []
    {
      EntryParts(data, sc, cs, parse, i);
    }
  }

  /** Profitability and Quality of Earnings read the same sub-score, so
      their scores agree. */
  lemma ForensicSharedScore(data: Dict<Json>, name: string, years: int, date: string,
                            parse: string -> Option<real>, repr: Json -> string, r: QualityReport)
    requires ForensicReport(Some(JObj(data)), name, years, date, parse, repr) == Ok(r)
    ensures |r.category_scores| == 7
    ensures r.category_scores[0].score == r.category_scores[5].score
  {
    ForensicScoreList(data, name, years, date, parse, repr, r);
    SharedEntries(data, ScoringOf(data), r.category_scores, parse);
  }

  lemma SharedEntries(data: Dict<Json>, scoring: Dict<Json>, cs: seq<QualityScore>, parse: string -> Option<real>)
    requires ScoresFor(data, scoring, CategorySources(), parse) == Some(cs)
    ensures |cs| == 7 && cs[0].score == cs[5].score
  {
    EntryParts(data, scoring, cs, parse, 0);
    EntryParts(data, scoring, cs, parse, 5);
    assert SourceOf(Profitability).scoreKey == SourceOf(QualityOfEarnings).scoreKey;
  }

  /** The Cash Flow and Governance explanations hold at most 200 characters. */
  lemma ForensicCutExplanations(data: Dict<Json>, name: string, years: int, date: string,
                                parse: string -> Option<real>, repr: Json -> string, r: QualityReport)
    requires ForensicReport(Some(JObj(data)), name, years, date, parse, repr) == Ok(r)
    ensures |r.category_scores| == 7
    ensures |r.category_scores[3].explanation| <= 200 && |r.category_scores[6].explanation| <= 200
  {
    ForensicScoreList(data, name, years, date, parse, repr, r);
    CutEntries(data, ScoringOf(data), r.category_scores, parse);
  }

  lemma CutEntries(data: Dict<Json>, scoring: Dict<Json>, cs: seq<QualityScore>, parse: string -> Option<real>)
    requires ScoresFor(data, scoring, CategorySources(), parse) == Some(cs)
    ensures |cs| == 7 && |cs[3].explanation| <= 200 && |cs[6].explanation| <= 200
  {
    EntryParts(data, scoring, cs, parse, 3);
    EntryParts(data, scoring, cs, parse, 6);
  }

  /** The "quantitative_scoring" object of an answer. */
  function ScoringOf(data: Dict<Json>): Dict<Json>
  {
    var sc := PdfParser.Field(data, "quantitative_scoring", JObj([]));
    if sc.JObj? then sc.fields else []
  }

  /** Each category score is five times its 0-2 sub-score, with no clamping,
      and 0 when the sub-score is absent. */
  lemma ForensicScores(data: Dict<Json>, name: string, years: int, date: string,
                       parse: string -> Option<real>, repr: Json -> string, r: QualityReport, i: nat)
    requires i < 7 && ForensicReport(Some(JObj(data)), name, years, date, parse, repr) == Ok(r)
    ensures SubScore(ScoringOf(data), CategorySources()[i].scoreKey, parse).Some?
    ensures i < |r.category_scores|
    ensures r.category_scores[i].score == 5.0 * SubScore(ScoringOf(data), CategorySources()[i].scoreKey, parse).value
    ensures !HasKey(ScoringOf(data), CategorySources()[i].scoreKey) ==> r.category_scores[i].score == 0.0
  {
    ForensicScoreList(data, name, years, date, parse, repr, r);
    EntryParts(data, ScoringOf(data), r.category_scores, parse, i);
  }

  /** The overall score is the answer's normalized score, 0 when absent,
      whatever the category scores are. */
  lemma ForensicOverall(data: Dict<Json>, name: string, years: int, date: string,
                        parse: string -> Option<real>, repr: Json -> string, r: QualityReport)
    requires ForensicReport(Some(JObj(data)), name, years, date, parse, repr) == Ok(r)
    ensures SubScore(ScoringOf(data), "normalized_score", parse) == Some(r.overall_score)
    ensures !HasKey(ScoringOf(data), "normalized_score") ==> r.overall_score == 0.0
  {
    ForensicScoreList(data, name, years, date, parse, repr, r);
  }

  /** A sub-score above 2 gives a category score above 10. */
  lemma ForensicScoresAreNotClamped(data: Dict<Json>, name: string, years: int, date: string,
                                    parse: string -> Option<real>, repr: Json -> string, r: QualityReport)
    requires ForensicReport(Some(JObj(data)), name, years, date, parse, repr) == Ok(r)
    requires HasKey(ScoringOf(data), "earnings_quality") && Get(ScoringOf(data), "earnings_quality") == JNum(3.0)
    ensures |r.category_scores| == 7 && r.category_scores[0].score == 15.0
  {
    ForensicScores(data, name, years, date, parse, repr, r, 0);
  }

  /** The flag list of an accepted answer. */
  lemma ForensicFlagParts(data: Dict<Json>, name: string, years: int, date: string,
                          parse: string -> Option<real>, repr: Json -> string, r: QualityReport)
    requires ForensicReport(Some(JObj(data)), name, years, date, parse, repr) == Ok(r)
    ensures SectionsOf(data).Some? && CriticalFlags(SectionsOf(data).value.critical).Some?
    ensures r.red_flags == CriticalFlags(SectionsOf(data).value.critical).value
                           + ModerateFlags(SectionsOf(data).value.moderate, repr)
  {
  }

  /** There is one flag per critical and per moderate entry. */
  lemma ForensicFlagCount(data: Dict<Json>, name: string, years: int, date: string,
                          parse: string -> Option<real>, repr: Json -> string, r: QualityReport)
    requires ForensicReport(Some(JObj(data)), name, years, date, parse, repr) == Ok(r)
    ensures SectionsOf(data).Some?
    ensures |r.red_flags| == |SectionsOf(data).value.critical| + |SectionsOf(data).value.moderate|
  {
    ForensicFlagParts(data, name, years, date, parse, repr, r);
  }

  /** The critical entries come first, each an object, as High flags in
      input order. */
  lemma ForensicCriticalFlag(data: Dict<Json>, name: string, years: int, date: string,
                             parse: string -> Option<real>, repr: Json -> string, r: QualityReport, i: nat)
    requires ForensicReport(Some(JObj(data)), name, years, date, parse, repr) == Ok(r)
    requires SectionsOf(data).Some? && i < |SectionsOf(data).value.critical|
    ensures SectionsOf(data).value.critical[i].JObj?
    ensures i < |r.red_flags| && r.red_flags[i] == FlagFrom("High", SectionsOf(data).value.critical[i].fields)
    ensures r.red_flags[i].severity == "High"
  {
    ForensicFlagParts(data, name, years, date, parse, repr, r);
    var p := SectionsOf(data).value;
    var crit := CriticalFlags(p.critical).value;
    assert Some(crit[i]) == CriticalFlag(p.critical[i]);
  }

  /** The moderate entries follow as Medium flags in input order; one that
      is not an object becomes a General flag with fixed impact and
      recommendation. */
  lemma ForensicModerateFlag(data: Dict<Json>, name: string, years: int, date: string,
                             parse: string -> Option<real>, repr: Json -> string, r: QualityReport, i: nat)
    requires ForensicReport(Some(JObj(data)), name, years, date, parse, repr) == Ok(r)
    requires SectionsOf(data).Some? && i < |SectionsOf(data).value.moderate|
    ensures |SectionsOf(data).value.critical| + i < |r.red_flags|
    ensures r.red_flags[|SectionsOf(data).value.critical| + i].severity == "Medium"
    ensures !SectionsOf(data).value.moderate[i].JObj? ==>
              r.red_flags[|SectionsOf(data).value.critical| + i]
                == RedFlag("Medium", "General", StrOf(SectionsOf(data).value.moderate[i], repr),
                           "Requires monitoring", "Further investigation recommended")
  {
    ForensicFlagParts(data, name, years, date, parse, repr, r);
    var p := SectionsOf(data).value;
    ModerateAfterCritical(CriticalFlags(p.critical).value, p.moderate, repr, i);
  }

  /** Indexing past the critical flags lands on the moderate ones. */
  lemma ModerateAfterCritical(crit: seq<RedFlag>, items: seq<Json>, repr: Json -> string, i: nat)
    requires i < |items|
    ensures |crit| + i < |crit + ModerateFlags(items, repr)|
    ensures (crit + ModerateFlags(items, repr))[|crit| + i] == ModerateFlag(items[i], repr)
  {
  }

  /** A critical entry that is not an object fails the mapping. */
  lemma PlainCriticalEntryFails(data: Dict<Json>, name: string, years: int, date: string,
                                parse: string -> Option<real>, repr: Json -> string, i: nat)
    requires SectionsOf(data).Some? && i < |SectionsOf(data).value.critical|
    requires !SectionsOf(data).value.critical[i].JObj?
    ensures ForensicReport(Some(JObj(data)), name, years, date, parse, repr) == Err(ShapeError)
  {
  }

  /** The key strengths are the top-level list when it is truthy, else the
      list under "red_flags"; name, ticker and years come from the caller. */
  lemma ForensicStrengths(data: Dict<Json>, name: string, years: int, date: string,
                          parse: string -> Option<real>, repr: Json -> string, r: QualityReport)
    requires ForensicReport(Some(JObj(data)), name, years, date, parse, repr) == Ok(r)
    ensures SectionsOf(data).Some?
    ensures Truthy(PdfParser.Field(data, "key_strengths", JArr([]))) ==>
              r.key_strengths == StringsOf(PdfParser.Field(data, "key_strengths", JArr([])), repr)
    ensures !Truthy(PdfParser.Field(data, "key_strengths", JArr([]))) ==>
              r.key_strengths == StringsOf(PdfParser.Field(SectionsOf(data).value.flags, "strengths", JArr([])), repr)
    ensures r.company_name == name && r.ticker == PdfParser.UnderscoreTicker(name) && r.years_analyzed == years
  {
  }

  /** The report's metrics are the answer's four sections, read with
      `.get(key, {})`: the verdict (an object, since the report reads its
      texts), the earnings-quality metrics, the multi-year trends and the
      execution check, each `{}` when the answer lacks it. */
  lemma ForensicMetricsSections(data: Dict<Json>, name: string, years: int, date: string,
                                parse: string -> Option<real>, repr: Json -> string, r: QualityReport)
    requires ForensicReport(Some(JObj(data)), name, years, date, parse, repr) == Ok(r)
    ensures r.metrics_summary.ForensicSections?
    ensures r.metrics_summary.forensic_analysis == PdfParser.Field(data, "final_verdict", JObj([]))
    ensures r.metrics_summary.forensic_analysis.JObj?
    ensures r.metrics_summary.earnings_quality == PdfParser.Field(data, "earnings_quality_metrics", JObj([]))
    ensures r.metrics_summary.multi_year_trends == PdfParser.Field(data, "multi_year_trends", JObj([]))
    ensures r.metrics_summary.execution_validation == PdfParser.Field(data, "execution_vs_narrative", JObj([]))
    ensures !HasKey(data, "multi_year_trends") ==> r.metrics_summary.multi_year_trends == JObj([])
    ensures HasKey(data, "earnings_quality_metrics") ==>
              r.metrics_summary.earnings_quality == Get(data, "earnings_quality_metrics")
  {
  }

  /** A strengths list made only of strings is kept as it is. */
  lemma StringsOfTexts(j: Json, repr: Json -> string)
    requires j.JArr? && forall i :: 0 <= i < |j.items| ==> j.items[i].JStr?
    ensures |StringsOf(j, repr)| == |j.items|
    ensures forall i :: 0 <= i < |j.items| ==> StringsOf(j, repr)[i] == j.items[i].s
  {
  }

  /** An answer that does not decode, or is not an object, gives no report. */
  lemma ForensicDecodeErrors(j: Json, name: string, years: int, date: string,
                             parse: string -> Option<real>, repr: Json -> string)
    ensures ForensicReport(None, name, years, date, parse, repr) == Err(DecodeError)
    ensures !j.JObj? ==> ForensicReport(Some(j), name, years, date, parse, repr) == Err(ShapeError)
  {
  }
}
