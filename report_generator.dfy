/** The console and Markdown renderer of a quality report: the score bands
    and colours, the ten-cell score bar, the Markdown document built line by
    line, and the choice of output format when a report is saved. */
module ReportGenerator {
  import opened Wrappers
  import opened Text
  import opened Numbers
  import opened ReportTypes

  // ------------------------------------------------------------ score bands

  /** How many of the thresholds 4, 5, 6, 7 and 8 a score reaches. Every
      six-way rating scale of the two renderers is this band under a name. */
  function ScoreBand(score: real): (b: nat)
    ensures b <= 5
    ensures b >= 1 <==> score >= 4.0
    ensures b >= 2 <==> score >= 5.0
    ensures b >= 3 <==> score >= 6.0
    ensures b >= 4 <==> score >= 7.0
    ensures b >= 5 <==> score >= 8.0
  {
    if score >= 8.0 then 5
    else if score >= 7.0 then 4
    else if score >= 6.0 then 3
    else if score >= 5.0 then 2
    else if score >= 4.0 then 1
    else 0
  }

  /** A higher score never lands in a lower band. */
  lemma ScoreBandMonotone(s: real, t: real)
    requires s <= t
    ensures ScoreBand(s) <= ScoreBand(t)
  {
  }

  /** The console rating names, lowest band first. */
  function RatingNames(): (ns: seq<string>)
    ensures |ns| == 6
  {
    ["Weak", "Fair", "Moderate", "Good", "Strong", "Excellent"]
  }

  /** The rating word shown beside a category score. */
  function RatingText(score: real): (r: string)
    ensures r == RatingNames()[ScoreBand(score)]
    ensures r in RatingNames()
  {
    if score >= 8.0 then "Excellent"
    else if score >= 7.0 then "Strong"
    else if score >= 6.0 then "Good"
    else if score >= 5.0 then "Moderate"
    else if score >= 4.0 then "Fair"
    else "Weak"
  }

  /** The position of a rating word on its scale (the inverse of indexing
      the scale). */
  function RatingRank(r: string): (k: nat)
    ensures r in RatingNames() ==> k < 6 && RatingNames()[k] == r
  {
    if r == "Weak" then 0
    else if r == "Fair" then 1
    else if r == "Moderate" then 2
    else if r == "Good" then 3
    else if r == "Strong" then 4
    else 5
  }

  /** The rating never decreases as the score grows. */
  lemma RatingTextMonotone(s: real, t: real)
    requires s <= t
    ensures RatingRank(RatingText(s)) <= RatingRank(RatingText(t))
  {
    ScoreBandMonotone(s, t);
    RatingNamesDistinct();
  }

  lemma RatingNamesDistinct()
    ensures forall i, j :: 0 <= i < j < 6 ==> RatingNames()[i] != RatingNames()[j]
  {
  }

  /** The colour of a category score. */
  function ScoreColor(score: real): (c: string)
    ensures c == "green" <==> score >= 7.0
    ensures c == "yellow" <==> 5.0 <= score < 7.0
    ensures c == "red" <==> score < 5.0
  {
    if score >= 7.0 then "green"
    else if score >= 5.0 then "yellow"
    else "red"
  }

  /** The colour and verdict of the overall-score panel. */
  function PanelBand(score: real): (r: (string, string))
  {
    if score >= 7.0 then ("green", "STRONG")
    else if score >= 5.0 then ("yellow", "MODERATE")
    else ("red", "WEAK")
  }

  /** The verdict in the Markdown heading of the overall score. */
  function MarkdownRating(score: real): (r: string)
  {
    if score >= 7.0 then "Strong" else if score >= 5.0 then "Moderate" else "Weak"
  }

  /** The panel uses the category colour scale, and its verdict, the
      Markdown verdict and the colour name the same band. */
  lemma PanelAgreesWithScoreColor(score: real)
    ensures PanelBand(score).0 == ScoreColor(score)
    ensures PanelBand(score).1 == "STRONG" <==> MarkdownRating(score) == "Strong"
    ensures PanelBand(score).1 == "MODERATE" <==> MarkdownRating(score) == "Moderate"
    ensures PanelBand(score).1 == "WEAK" <==> MarkdownRating(score) == "Weak"
    ensures MarkdownRating(score) == "Strong" <==> ScoreBand(score) >= 4
    ensures MarkdownRating(score) == "Weak" <==> ScoreBand(score) <= 1
  {
  }

  /** The filled and the empty cell of the score bar, as the source file
      stores them: each is three characters, the UTF-8 bytes of the block
      glyphs U+2588 and U+2591 read once more as Windows-1252 text. */
  const FullCell: string := "\U{E2}\U{2013}\U{2C6}"
  const EmptyCell: string := "\U{E2}\U{2013}\U{2018}"

  /** Cell `i` of a bar built from three-character cells. */
  function CellAt(bar: string, i: int): string
    requires 0 <= i && 3 * i + 3 <= |bar|
  {
    bar[3 * i..3 * i + 3]
  }

  /** `cell * n` for a three-character cell; Python gives "" for `n <= 0`. */
  function Cells(cell: string, n: int): (r: string)
    requires |cell| == 3
    ensures |r| == 3 * (if n <= 0 then 0 else n)
    ensures forall i :: 0 <= i < n ==> CellAt(r, i) == cell
    decreases if n <= 0 then 0 else n
  {
    if n <= 0 then ""
    else
      var prefix := Cells(cell, n - 1);
      var r := prefix + cell;
      assert forall i :: 0 <= i < n - 1 ==> CellAt(r, i) == CellAt(prefix, i);
      assert CellAt(r, n - 1) == cell;
      r
  }

  /** `int(score)` filled cells followed by `10 - int(score)` empty ones; a
      score in [0, 10] gives ten cells of three characters each. */
  function MiniBar(score: real): (r: string)
    ensures 0.0 <= score <= 10.0 ==> |r| == 30
    ensures 0.0 <= score <= 10.0 ==>
              forall i :: 0 <= i < 10 ==> (CellAt(r, i) == FullCell <==> (i as real) < score.Floor as real)
    ensures 0.0 <= score <= 10.0 ==> forall i :: 0 <= i < 10 ==> CellAt(r, i) in {FullCell, EmptyCell}
    ensures score >= 10.0 ==> forall i :: 0 <= i < |r| / 3 ==> CellAt(r, i) == FullCell
    ensures score < 1.0 ==> forall i :: 0 <= i < |r| / 3 ==> CellAt(r, i) == EmptyCell
  {
    var filled := Trunc(score);
    var full := Cells(FullCell, filled);
    var empty := Cells(EmptyCell, 10 - filled);
    var r := full + empty;
    var f := if filled <= 0 then 0 else filled;
    var e := if 10 - filled <= 0 then 0 else 10 - filled;
    assert |r| == 3 * (f + e);
    assert FullCell != EmptyCell by { assert FullCell[2] != EmptyCell[2]; }
    assert forall i :: 0 <= i < f ==> CellAt(r, i) == FullCell by {
      forall i | 0 <= i < f ensures CellAt(r, i) == FullCell {
        assert CellAt(r, i) == CellAt(full, i);
      }
    }
    assert forall i :: f <= i < f + e ==> CellAt(r, i) == EmptyCell by {
      forall i | f <= i < f + e ensures CellAt(r, i) == EmptyCell {
        assert CellAt(r, i) == CellAt(empty, i - f);
      }
    }
    r
  }

  /** The colour of a red flag's severity; anything unknown is white. */
  function SeverityColor(severity: string): (c: string)
    ensures severity == "High" ==> c == "red"
    ensures severity == "Medium" ==> c == "yellow"
    ensures severity == "Low" ==> c == "blue"
    ensures severity !in {"High", "Medium", "Low"} ==> c == "white"
  {
    if severity == "High" then "red"
    else if severity == "Medium" then "yellow"
    else if severity == "Low" then "blue"
    else "white"
  }

  // ------------------------------------------------------------ Markdown

  /** At most this many key strengths are listed. */
  const MaxStrengths := 8
  const NoFlagsLine := "No significant red flags identified."

  function HeaderLines(r: QualityReport, floatStr: real -> string): (ls: seq<string>)
    ensures |ls| == 5
  {
    ["# Quality Management Analysis Report",
     "\n**Company:** " + r.company_name + " (" + r.ticker + ")",
     "**Analysis Date:** " + Take(r.analysis_date, 10),
     "**Years Analyzed:** " + IntToString(r.years_analyzed),
     "\n## Overall Quality Score: " + floatStr(r.overall_score) + "/10 (" + MarkdownRating(r.overall_score) + ")"]
  }

  /** A section that is present only when its text is not empty. */
  function OptionalSection(heading: string, text: string): (ls: seq<string>)
    ensures |ls| == if text == "" then 0 else 1
  {
    if text == "" then [] else [SectionLine(heading, text)]
  }

  function SectionLine(heading: string, text: string): string
  {
    "\n## " + heading + "\n\n" + text
  }

  /** A table row: the category, the score to one decimal out of 10 and
      the rating word. */
  function CategoryRow(q: QualityScore): string
  {
    "| " + q.category + " | " + FormatFixed(q.score, 1) + "/10 | " + RatingText(q.score) + " |"
  }

  const CategoryTableHead: seq<string> :=
    ["\n## Category Scores\n", "| Category | Score | Rating |", "|----------|-------|--------|"]

  function CategoryRows(cs: seq<QualityScore>): (ls: seq<string>)
    ensures |ls| == |cs|
  {
    seq(|cs|, i requires 0 <= i < |cs| => CategoryRow(cs[i]))
  }

  /** Entry `i` (from zero) of the numbered strengths list. */
  function StrengthLine(i: nat, s: string): string
  {
    NatToString(i + 1) + ". " + s
  }

  function StrengthLines(ks: seq<string>): (ls: seq<string>)
  {
    var top := Take(ks, MaxStrengths);
    seq(|top|, i requires 0 <= i < |top| => StrengthLine(i, top[i]))
  }

  function FlagBlock(f: RedFlag): seq<string>
  {
    ["\n### [" + f.severity + "] " + f.description,
     "- **Category:** " + f.category,
     "- **Impact:** " + f.impact,
     "- **Recommendation:** " + f.recommendation]
  }

  function FlagBlocks(fs: seq<RedFlag>): (ls: seq<string>)
  {
    if fs == [] then [] else FlagBlocks(fs[..|fs| - 1]) + FlagBlock(fs[|fs| - 1])
  }

  function FlagSection(fs: seq<RedFlag>): seq<string>
  {
    ["\n## Red Flags & Concerns\n"] + (if fs == [] then [NoFlagsLine] else FlagBlocks(fs))
  }

  /** The document's lines in order; the document is these joined by
      newlines. */
  function MarkdownLines(r: QualityReport, floatStr: real -> string): seq<string>
  {
    TopLines(r, floatStr) + (CategoryRows(r.category_scores) + BottomLines(r))
  }

  /** The header, the optional summary and the table head. */
  function TopLines(r: QualityReport, floatStr: real -> string): (ls: seq<string>)
    ensures |ls| == CategoryStart(r)
  {
    HeaderLines(r, floatStr) + OptionalSection("Executive Summary", r.executive_summary) + CategoryTableHead
  }

  /** Where the category table rows start. */
  function CategoryStart(r: QualityReport): nat
  {
    5 + (if r.executive_summary == "" then 0 else 1) + 3
  }

  function StrengthSection(ks: seq<string>): seq<string>
  {
    ["\n## Key Strengths\n"] + StrengthLines(ks)
  }

  function ClosingLines(r: QualityReport): seq<string>
  {
    OptionalSection("Investment Thesis", r.investment_thesis) + OptionalSection("Risk Assessment", r.risk_assessment)
  }

  /** The strengths, the red flags and the two optional closing sections. */
  function BottomLines(r: QualityReport): seq<string>
  {
    StrengthSection(r.key_strengths) + (FlagSection(r.red_flags) + ClosingLines(r))
  }

  lemma Regroup(a: seq<string>, b: seq<string>, c: seq<string>, d: seq<string>, e: seq<string>)
    ensures a + b + c + d + e == a + (b + (c + (d + e)))
  {
  }

  /** `to_markdown`: appends the lines one section at a time and joins them. */
  method ToMarkdown(r: QualityReport, floatStr: real -> string) returns (text: string)
    ensures text == Join(MarkdownLines(r, floatStr), "\n")
  {
    var md := HeaderLines(r, floatStr);
    if r.executive_summary != "" {
      md := md + [SectionLine("Executive Summary", r.executive_summary)];
    }
    md := md + CategoryTableHead;
    assert md == TopLines(r, floatStr);
    md := AppendCategoryRows(md, r.category_scores);
    md := AppendStrengths(md, r.key_strengths);
    md := AppendFlagSection(md, r.red_flags);
    md := AppendClosing(md, r);
    Regroup(TopLines(r, floatStr), CategoryRows(r.category_scores), StrengthSection(r.key_strengths),
            FlagSection(r.red_flags), ClosingLines(r));
    text := Join(md, "\n");
  }

  /** The table loop: one row per category score. */
  method AppendCategoryRows(md: seq<string>, cs: seq<QualityScore>) returns (out: seq<string>)
    ensures out == md + CategoryRows(cs)
  {
    out := md;
    var i := 0;
    while i < |cs|
      invariant 0 <= i <= |cs|
      invariant out == md + CategoryRows(cs[..i])
    {
      assert CategoryRows(cs[..i + 1]) == CategoryRows(cs[..i]) + [CategoryRow(cs[i])];
      out := out + [CategoryRow(cs[i])];
      i := i + 1;
    }
    assert cs[..i] == cs;
  }

  /** The strengths heading and the numbered loop over the first eight. */
  method AppendStrengths(md: seq<string>, ks: seq<string>) returns (out: seq<string>)
    ensures out == md + StrengthSection(ks)
  {
    out := md + ["\n## Key Strengths\n"];
    var top := Take(ks, MaxStrengths);
    var k := 0;
    while k < |top|
      invariant 0 <= k <= |top|
      invariant out == md + ["\n## Key Strengths\n"] + StrengthLines(top[..k])
    {
      assert StrengthLines(top[..k + 1]) == StrengthLines(top[..k]) + [StrengthLine(k, top[k])];
      out := out + [StrengthLine(k, top[k])];
      k := k + 1;
    }
    assert top[..k] == top;
    assert StrengthLines(top) == StrengthLines(ks);
  }

  /** The red-flag heading, then four lines per flag or the "none" line. */
  method AppendFlagSection(md: seq<string>, fs: seq<RedFlag>) returns (out: seq<string>)
    ensures out == md + FlagSection(fs)
  {
    out := md + ["\n## Red Flags & Concerns\n"];
    if fs != [] {
      var j := 0;
      while j < |fs|
        invariant 0 <= j <= |fs|
        invariant out == md + ["\n## Red Flags & Concerns\n"] + FlagBlocks(fs[..j])
      {
        assert fs[..j + 1][..j] == fs[..j];
        out := out + FlagBlock(fs[j]);
        j := j + 1;
      }
      assert fs[..j] == fs;
    } else {
      out := out + [NoFlagsLine];
    }
  }

  /** The investment thesis and risk sections, each only when non-empty. */
  method AppendClosing(md: seq<string>, r: QualityReport) returns (out: seq<string>)
    ensures out == md + ClosingLines(r)
  {
    out := md;
    if r.investment_thesis != "" {
      out := out + [SectionLine("Investment Thesis", r.investment_thesis)];
    }
    assert out == md + OptionalSection("Investment Thesis", r.investment_thesis);
    if r.risk_assessment != "" {
      out := out + [SectionLine("Risk Assessment", r.risk_assessment)];
    }
  }

  // ------------------------------------------------------------ Markdown properties

  lemma {:induction false} FlagBlocksLength(fs: seq<RedFlag>)
    ensures |FlagBlocks(fs)| == 4 * |fs|
  {
    if fs != [] {
      FlagBlocksLength(fs[..|fs| - 1]);
    }
  }

  /** Flag `i` occupies lines `4 i` to `4 i + 3` of the flag blocks. */
  lemma {:induction false} FlagBlocksAt(fs: seq<RedFlag>, i: nat)
    requires i < |fs|
    ensures |FlagBlocks(fs)| == 4 * |fs|
    ensures FlagBlocks(fs)[4 * i .. 4 * i + 4] == FlagBlock(fs[i])
  {
    FlagBlocksLength(fs);
    var init := fs[..|fs| - 1];
    FlagBlocksLength(init);
    if i < |fs| - 1 {
      FlagBlocksAt(init, i);
      assert init[i] == fs[i];
    }
  }

  /** Where the strengths list starts. */
  function StrengthStart(r: QualityReport): nat
  {
    CategoryStart(r) + |r.category_scores| + 1
  }

  /** The table header sits two lines above the first category row. */
  lemma MarkdownTableHead(r: QualityReport, floatStr: real -> string)
    ensures CategoryStart(r) <= |MarkdownLines(r, floatStr)|
    ensures MarkdownLines(r, floatStr)[CategoryStart(r) - 2] == "| Category | Score | Rating |"
  {
    var top := TopLines(r, floatStr);
    assert top[CategoryStart(r) - 2] == CategoryTableHead[1];
  }

  /** The document has one table row per category, in report order, right
      after the table header; each carries the category name, the score
      and its rating word. */
  lemma MarkdownCategoryRows(r: QualityReport, floatStr: real -> string, i: nat)
    requires i < |r.category_scores|
    ensures CategoryStart(r) + i < |MarkdownLines(r, floatStr)|
    ensures MarkdownLines(r, floatStr)[CategoryStart(r) + i] == CategoryRow(r.category_scores[i])
  {
    var rest := CategoryRows(r.category_scores) + BottomLines(r);
    assert rest[i] == CategoryRow(r.category_scores[i]);
  }

  /** The strengths list holds the first eight strengths (all of them when
      there are fewer), numbered from 1 in order. */
  lemma MarkdownStrengths(r: QualityReport, floatStr: real -> string)
    ensures |StrengthLines(r.key_strengths)| == if |r.key_strengths| <= 8 then |r.key_strengths| else 8
    ensures StrengthStart(r) + |StrengthLines(r.key_strengths)| <= |MarkdownLines(r, floatStr)|
    ensures MarkdownLines(r, floatStr)[StrengthStart(r) - 1] == "\n## Key Strengths\n"
    ensures forall i :: 0 <= i < |StrengthLines(r.key_strengths)| ==>
              MarkdownLines(r, floatStr)[StrengthStart(r) + i] == NatToString(i + 1) + ". " + r.key_strengths[i]
  {
    var pre := TopLines(r, floatStr) + CategoryRows(r.category_scores);
    var post := FlagSection(r.red_flags) + ClosingLines(r);
    MarkdownSplit(r, floatStr);
    StrengthsWithin(pre, r.key_strengths, post);
  }

  /** The document cut around the strengths section. */
  lemma MarkdownSplit(r: QualityReport, floatStr: real -> string)
    ensures MarkdownLines(r, floatStr) == (TopLines(r, floatStr) + CategoryRows(r.category_scores)) +
              (StrengthSection(r.key_strengths) + (FlagSection(r.red_flags) + ClosingLines(r)))
    ensures |TopLines(r, floatStr) + CategoryRows(r.category_scores)| + 1 == StrengthStart(r)
  {
  }

  /** The strengths section placed after any lines `pre`: its heading, then
      at most eight numbered strengths in order. */
  lemma StrengthsWithin(pre: seq<string>, ks: seq<string>, post: seq<string>)
    ensures |StrengthLines(ks)| == if |ks| <= 8 then |ks| else 8
    ensures |pre| + 1 + |StrengthLines(ks)| <= |pre + (StrengthSection(ks) + post)|
    ensures (pre + (StrengthSection(ks) + post))[|pre|] == "\n## Key Strengths\n"
    ensures forall i :: 0 <= i < |StrengthLines(ks)| ==>
              (pre + (StrengthSection(ks) + post))[|pre| + 1 + i] == NatToString(i + 1) + ". " + ks[i]
  {
    var ss := StrengthSection(ks);
    var ls := pre + (ss + post);
    var top := Take(ks, MaxStrengths);
    forall i | 0 <= i < |StrengthLines(ks)|
      ensures ls[|pre| + 1 + i] == NatToString(i + 1) + ". " + ks[i]
    {
      assert ls[|pre| + 1 + i] == ss[1 + i] == StrengthLines(ks)[i] == StrengthLine(i, top[i]);
    }
  }

  /** A line that cannot be the "no red flags" line: it is empty or starts
      with another character. */
  predicate NotNoFlags(line: string)
  {
    line == [] || line[0] != 'N'
  }

  lemma NatToStringStart(n: nat)
    ensures NatToString(n)[0] != 'N'
  {
  }

  predicate NoneIsNoFlags(ls: seq<string>)
  {
    forall k :: 0 <= k < |ls| ==> NotNoFlags(ls[k])
  }

  lemma NoneIsNoFlagsConcat(a: seq<string>, b: seq<string>)
    requires NoneIsNoFlags(a) && NoneIsNoFlags(b)
    ensures NoneIsNoFlags(a + b)
  {
  }

  lemma StrengthsAreNotNoFlags(ks: seq<string>)
    ensures NoneIsNoFlags(StrengthSection(ks))
  {
    var strengths := StrengthLines(ks);
    forall k | 0 <= k < |strengths| ensures NotNoFlags(strengths[k]) {
      NatToStringStart(k + 1);
      assert strengths[k] == NatToString(k + 1) + ". " + Take(ks, MaxStrengths)[k];
    }
    NoneIsNoFlagsConcat(["\n## Key Strengths\n"], strengths);
  }

  lemma FlagBlocksAreNotNoFlags(fs: seq<RedFlag>)
    requires fs != []
    ensures NoneIsNoFlags(FlagSection(fs))
  {
    var blocks := FlagBlocks(fs);
    FlagBlocksLength(fs);
    forall k | 0 <= k < |blocks| ensures NotNoFlags(blocks[k]) {
      var i := k / 4;
      FlagBlocksAt(fs, i);
      assert blocks[k] == FlagBlock(fs[i])[k - 4 * i];
    }
    NoneIsNoFlagsConcat(["\n## Red Flags & Concerns\n"], blocks);
  }

  lemma TopIsNotNoFlags(r: QualityReport, floatStr: real -> string)
    ensures NoneIsNoFlags(TopLines(r, floatStr))
    ensures NoneIsNoFlags(CategoryRows(r.category_scores))
    ensures NoneIsNoFlags(ClosingLines(r))
  {
  }

  /** Every line other than the "no red flags" line starts with a different
      character, so not even a flag or a strength can spell that line. */
  lemma OnlyNoFlagsLineStartsWithN(r: QualityReport, floatStr: real -> string)
    requires r.red_flags != []
    ensures NoneIsNoFlags(MarkdownLines(r, floatStr))
  {
    TopIsNotNoFlags(r, floatStr);
    StrengthsAreNotNoFlags(r.key_strengths);
    FlagBlocksAreNotNoFlags(r.red_flags);
    NoneIsNoFlagsConcat(FlagSection(r.red_flags), ClosingLines(r));
    NoneIsNoFlagsConcat(StrengthSection(r.key_strengths), FlagSection(r.red_flags) + ClosingLines(r));
    NoneIsNoFlagsConcat(CategoryRows(r.category_scores), BottomLines(r));
    NoneIsNoFlagsConcat(TopLines(r, floatStr), CategoryRows(r.category_scores) + BottomLines(r));
  }

  /** The "no red flags" line appears exactly when the report has no flags. */
  lemma MarkdownNoFlagsLine(r: QualityReport, floatStr: real -> string)
    ensures NoFlagsLine in MarkdownLines(r, floatStr) <==> r.red_flags == []
  {
    var ls := MarkdownLines(r, floatStr);
    if r.red_flags == [] {
      var pre := TopLines(r, floatStr) + CategoryRows(r.category_scores) + StrengthSection(r.key_strengths);
      var fl := FlagSection(r.red_flags);
      assert ls == pre + (fl + ClosingLines(r));
      assert fl[1] == NoFlagsLine;
      assert ls[|pre| + 1] == NoFlagsLine;
    } else {
      OnlyNoFlagsLineStartsWithN(r, floatStr);
      assert NoFlagsLine[0] == 'N';
    }
  }

  /** How long the document is: five header lines, the optional sections,
      the table, the strengths, and four lines per flag (one line when there
      are none). */
  lemma MarkdownLineCount(r: QualityReport, floatStr: real -> string)
    ensures |MarkdownLines(r, floatStr)|
              == 5 + (if r.executive_summary == "" then 0 else 1)
                 + 3 + |r.category_scores|
                 + 1 + (if |r.key_strengths| <= 8 then |r.key_strengths| else 8)
                 + 1 + (if r.red_flags == [] then 1 else 4 * |r.red_flags|)
                 + (if r.investment_thesis == "" then 0 else 1)
                 + (if r.risk_assessment == "" then 0 else 1)
  {
    FlagBlocksLength(r.red_flags);
  }

  // ------------------------------------------------------------ saving

  datatype Format = JsonFormat | MarkdownFormat

  /** The format names `save_report` accepts. */
  function FormatOf(format: string): (r: Result<Format>)
    ensures r == Ok(JsonFormat) <==> format == "json"
    ensures r == Ok(MarkdownFormat) <==> format == "md" || format == "markdown"
    ensures r.Err? ==> r.error == "Unsupported format: " + format
  {
    if format == "json" then Ok(JsonFormat)
    else if format == "md" || format == "markdown" then Ok(MarkdownFormat)
    else Err("Unsupported format: " + format)
  }

  /** What `save_report` writes: the JSON text or the Markdown document; an
      unknown format raises before anything is written. */
  function SaveContent(r: QualityReport, format: string, floatStr: real -> string,
                       toJson: QualityReport -> string): (c: Result<string>)
    ensures c.Ok? <==> format in {"json", "md", "markdown"}
    ensures format == "json" ==> c == Ok(toJson(r))
    ensures format in {"md", "markdown"} ==> c == Ok(Join(MarkdownLines(r, floatStr), "\n"))
    ensures c.Err? ==> c == Err("Unsupported format: " + format)
  {
    match FormatOf(format)
    case Ok(JsonFormat) => Ok(toJson(r))
    case Ok(MarkdownFormat) => Ok(Join(MarkdownLines(r, floatStr), "\n"))
    case Err(e) => Err(e)
  }
}
