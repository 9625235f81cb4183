# Equity quality analyzer — a verified Dafny model

This project models the deterministic core of a stock-quality research tool.
The tool gathers several years of financial statements for a listed company,
scores the company in seven categories, and writes a report.

**Scoring.** The quality analyzer (`src/analyzer.py`) has seven category scorers:
Profitability, Growth, Financial Health, Cash Flow Management, Quality of Earnings,
Capital Efficiency and Governance. Each scorer:

- starts at 5.0;
- applies threshold ladders over series averages, first-versus-last trends and per-year counts;
- collects strengths and concerns;
- clamps the result to [0, 10].

Only the composite score is rounded to one decimal.

The analyzer then computes:

- the weighted composite score;
- at most eight key strengths, taken from the categories in descending score order;
- the red flags: fixed rules for losses, debt and revenue declines, plus the first concerns of weak categories.

**Fallback helpers.** When no language model is available, the AI-enhanced
analyzer falls back on a few helpers, which are modelled: the basic management
assessment, the trend reading, the thesis and risk texts, and the stripping of
code fences from a model answer.

**Data fetching** (`src/data_fetcher.py`):

- the Yahoo ticker candidates and the candidate loop;
- market detection and adapter reordering;
- the multi-source first-usable-result fallback and search de-duplication;
- Screener table-cell extraction and value parsing, plus search-result parsing;
- the Yahoo ratio derivation;
- the fetcher factory;
- the company-name validation ladder, ending in a static table of Indian companies.

**Annual-report parsing** (`src/pdf_parser.py`):

- ratios, growth rates and the conversion of extracted JSON to float series;
- the choice of company name and ticker;
- the length guard;
- the merge of several reports.

**Forensic mapping** (`src/forensic_analyzer.py`): the mapping from a language-model
JSON answer to a quality report, and the truncation of the report text in the prompt.

**Reports.** The console and Markdown report helpers (`src/report_generator.py`)
and the PDF report helpers (`src/pdf_report_generator.py`) supply:

- rating and colour bands;
- the mini score bar;
- the Markdown document structure;
- the save-format dispatch;
- the investment-perspective bands;
- the profit-versus-earnings gap;
- severity counts;
- the scoring table;
- the strategic-alignment verdict.

Files and modules:

| file | module | contents |
|---|---|---|
| `wrappers.dfy`, `numbers.dfy`, `text.dfy`, `dicts.dfy`, `json.dfy` | `Wrappers`, `Numbers`, `Text`, `Dicts`, `JsonModel` | Option/Result, rounding and formatting, ASCII string helpers, insertion-ordered dictionaries, parsed JSON |
| `financial_data.dfy`, `report_types.dfy` | `FinancialModel`, `ReportTypes` | the financial record, category scores, red flags and the quality report |
| `scoring.dfy` | `Scoring` | the seven category scorers, as methods over rule tables |
| `analyzer.dfy` | `Analyzer` | `analyze`: composite score, key strengths, red flags |
| `ai_helpers.dfy` | `AiHelpers` | the non-AI fallbacks of the AI-enhanced analyzer |
| `data_fetcher.dfy` | `DataFetcher` | ticker resolution, adapters, search, Screener tables, Yahoo ratios, name validation |
| `pdf_parser.dfy` | `PdfParser` | annual-report ratios, growth, float conversion, name choice, merge |
| `forensic.dfy` | `Forensic` | the JSON-to-report mapping and prompt truncation |
| `report_generator.dfy`, `pdf_report.dfy` | `ReportGenerator`, `PdfReport` | report bands and document structure |

**Modelling choices.**

- A series (a Python dict from year label to value) is an insertion-ordered
  list of `(label, value)` pairs with distinct labels. Setting a key replaces
  its value in place or appends a new pair, as a Python dict does. The analyzer
  reads the first value as the most recent, as the code does.
- Numbers are exact reals.
- The category scorers, the analyzer's accumulation loops, the fetch loops,
  the Screener table fill, the search de-duplication and the ratio derivations
  are methods with loops. Each is proved against a specification function, and
  the properties are proved about that function.
- A fractional power has no counterpart over the reals, so the CAGR is an
  uninterpreted parameter. The coefficient-of-variation thresholds are stated
  exactly through the variance, relying on the positive-average guard.
- Network calls, language-model answers, `float()` string parsing, `str(x)`
  renderings and explanation texts are function parameters.

**Where the model follows the code against the tool's documented behaviour.**

- With operating margins 22 and 18, the documented example expects the strength
  to mention 22.0%. The code averages the margins, so the note reads
  "Healthy operating margin of 20.0%" (`Scoring.ProfitabilityExample`).
- Name validation is documented as rejecting an echo of the query regardless of
  case. The code compares the upper-cased result name with the query as typed,
  so a lower-case query whose answer merely echoes it in upper case is accepted
  (`DataFetcher.EchoTestIsCaseSensitive`, `DataFetcher.LowerCaseQueryIsEchoAccepted`).
- The three Indian-ticker sets in `src/data_fetcher.py` differ. Market detection
  and Yahoo ticker resolution therefore disagree on a ticker such as ADANIENT,
  and the model keeps that disagreement.

## Model

| member | source | states |
|---|---|---|
| Scoring.TotalDelta | src/analyzer.py:175-231 | no fired rule adds nothing; one fired rule adds exactly its own change to the base score |
| Scoring.StrengthsOf | src/analyzer.py:176-229 | no fired rule gives no strength; one fired rule gives its note when that note is a strength |
| Scoring.ConcernsOf | src/analyzer.py:177-229 | no fired rule gives no concern; one fired rule gives its note when that note is a concern |
| Scoring.TotalDeltaConcat | src/analyzer.py:175-231 | the score changes of two rule tables run one after the other add up |
| Scoring.StrengthsConcat | src/analyzer.py:176-229 | the strengths of two tables run in sequence are the first table's followed by the second's |
| Scoring.ConcernsConcat | src/analyzer.py:177-229 | the concerns of two tables run in sequence are the first table's followed by the second's |
| Scoring.ApplyNothing | src/analyzer.py:175-177 | running an empty rule table leaves score, strengths and concerns unchanged |
| Scoring.ApplyStrength | src/analyzer.py:184-186 | one fired rule with a strength adds its change to the score and appends the strength, leaving the concerns alone |
| Scoring.ApplyConcern | src/analyzer.py:190-192 | one fired rule with a concern adds its change to the score and appends the concern, leaving the strengths alone |
| Scoring.ApplyConcat | src/analyzer.py:179-229 | running two tables one after the other is running their concatenation |
| Scoring.Finish | src/analyzer.py:231-269 | the finished score names the category, carries its fixed weight, and is clamped into [0, 10] |
| Scoring.Assemble | src/analyzer.py:175-269 | a category score is 5 plus the fired changes when that lies in [0, 10] and clamped otherwise; its strengths and concerns are the fired notes in table order; no fired rule gives exactly 5 with no notes |
| Scoring.ScoreOperatingMarginLevel | src/analyzer.py:180-195 | the average operating margin adds +2 above 20, +1 above 15, -2 below 5, -1 below 10, each with its note, as the margin-level table says |
| Scoring.ScoreOperatingMarginTrend | src/analyzer.py:197-204 | with two or more margins, newest above oldest adds +0.5 and newest below 90% of oldest costs 0.5, as the trend table says |
| Scoring.ScoreNetMargins | src/analyzer.py:206-216 | an average net margin above 15 adds +1, one below 0 costs 2 with the loss concern |
| Scoring.ScoreRoe | src/analyzer.py:218-229 | an average ROE above 20 adds +1, one below 10 costs 0.5, with the average in the note |
| Scoring.AnalyzeProfitability | src/analyzer.py:173-269 | the profitability score is the assembly of the margin-level, margin-trend, net-margin and ROE tables, clamped into [0, 10] |
| Scoring.GrowthRatesOf | src/analyzer.py:302-306 | there is at most one growth rate per neighbouring pair of revenues |
| Scoring.ScoreRevenueCagr | src/analyzer.py:278-299 | with two or more revenues and a positive oldest one, the revenue CAGR adds +2 above 20, +1 above 10, -2 below 0, -0.5 below 5 |
| Scoring.GrowthRatesStep | src/analyzer.py:303-306 | one more pair extends the growth rates by that pair's rate exactly when its older revenue is positive |
| Scoring.YearOnYearGrowth | src/analyzer.py:302-306 | the loop collects the year-on-year growth of each neighbouring pair with a positive older revenue, in series order |
| Scoring.ScoreRevenueConsistency | src/analyzer.py:301-315 | all growth rates positive adds +1 with a strength; fewer than half positive only records the "Inconsistent revenue growth" concern and leaves the score |
| Scoring.ScoreProfitGrowth | src/analyzer.py:317-331 | with two or more profits, both ends positive, a profit CAGR above 25 adds +1 and one below -10 costs 1.5 |
| Scoring.AnalyzeGrowth | src/analyzer.py:271-380 | the growth score is the assembly of the revenue-CAGR, consistency and profit-CAGR tables, clamped into [0, 10] |
| Scoring.ScoreDebtToEquity | src/analyzer.py:388-406 | an average debt-to-equity below 0.3 adds +2, below 0.5 +1, above 1.5 costs 2, above 1 costs 1 |
| Scoring.ScoreLeverageTrend | src/analyzer.py:408-411 | the latest ratio above 1.3 times the oldest costs 0.5 |
| Scoring.ScoreInterestCoverage | src/analyzer.py:413-426 | an average coverage above 10 adds +1, below 2 costs 2, below 3 costs 1 |
| Scoring.ScoreCurrentRatio | src/analyzer.py:429-439 | an average current ratio above 2 adds +0.5, below 1 costs 1.5 |
| Scoring.ScoreMinimalDebt | src/analyzer.py:442-449 | a latest debt of zero, or below a tenth of a positive latest equity, adds +1 |
| Scoring.AnalyzeFinancialHealth | src/analyzer.py:382-492 | the financial-health score is the assembly of the leverage, leverage-trend, coverage, current-ratio and minimal-debt tables, clamped |
| Scoring.CountPairs | src/analyzer.py:528-533 | the loop counts exactly the pairs, over the years both series cover, that satisfy the test |
| Scoring.ScoreOcfConsistency | src/analyzer.py:500-511 | every cash flow positive adds +2; fewer than half positive costs 2 |
| Scoring.ScoreOcfTrend | src/analyzer.py:514-520 | the latest cash flow above 1.5 times the oldest adds +0.5; below 0.7 times only records the "Declining operating cash flow" concern and leaves the score |
| Scoring.CompareIncomeWithCash | src/analyzer.py:527-540 | cash flow above a positive income in every shared year adds +1; fewer than half such years, with all incomes positive, costs 1 |
| Scoring.ScoreOcfVersusIncome | src/analyzer.py:522-540 | with both series present the comparison of income with cash flow applies; otherwise nothing fires |
| Scoring.ScoreFcfConsistency | src/analyzer.py:542-553 | every free cash flow positive adds +1; none positive costs 1 |
| Scoring.AnalyzeCashManagement | src/analyzer.py:494-598 | the cash-management score is the assembly of its four tables, clamped |
| Scoring.TurnoversOf | src/analyzer.py:645-652 | there is at most one turnover per revenue year |
| Scoring.ScoreRoce | src/analyzer.py:606-629 | an average ROCE above 20 adds +2, above 15 +1, below 8 costs 1.5, below 10 costs 0.5; three or more values all above 15 add +0.5 |
| Scoring.ScoreRoa | src/analyzer.py:631-642 | an average ROA above 10 adds +1, below 3 costs 1 |
| Scoring.AssetTurnovers | src/analyzer.py:645-652 | the loop collects revenue over positive total assets for each year both series report |
| Scoring.ScoreAssetTurnover | src/analyzer.py:644-659 | an average turnover above 1.5 only records a high-turnover strength, below 0.3 only a low-utilisation concern; neither changes the score |
| Scoring.NoTurnovers | src/analyzer.py:645-647 | without revenue or without assets no turnover is computed |
| Scoring.AnalyzeCapitalEfficiency | src/analyzer.py:600-707 | the capital-efficiency score is the assembly of the ROCE, ROA and turnover tables, clamped |
| Scoring.AccrualTotals | src/analyzer.py:721-730 | the loop sums income minus cash flow, and cash flow, over the shared years with positive income |
| Scoring.ScoreAccruals | src/analyzer.py:715-743 | with positive summed cash flow, a negative accrual ratio adds +2, above 0.5 costs 2, above 0.3 costs 1 |
| Scoring.ScoreEarningsStability | src/analyzer.py:745-760 | with three or more profits and a positive average, a coefficient of variation below 0.2 adds +1 and above 0.5 costs 1 |
| Scoring.ScoreMarginStability | src/analyzer.py:762-771 | a margin range below 3 adds +0.5 with a strength; above 10 only records the volatile-margins concern and leaves the score |
| Scoring.AnalyzeEarningsQuality | src/analyzer.py:709-822 | the earnings-quality score is the assembly of the accrual, stability and margin-range tables, clamped |
| Scoring.ScoreDividendPolicy | src/analyzer.py:830-836 | a dividend yield above 2 adds +1 with a strength; above 0.5 only records the "Maintains dividend payments" strength and leaves the score |
| Scoring.ScoreReporting | src/analyzer.py:838-841 | revenue for at least the analysed number of years adds +0.5 |
| Scoring.ScoreFcfDiscipline | src/analyzer.py:843-850 | every free cash flow positive adds +1 |
| Scoring.ScoreAggressiveAccounting | src/analyzer.py:852-866 | two or more years where positive income exceeds 1.5 times positive cash flow cost 1 |
| Scoring.AnalyzeGovernance | src/analyzer.py:824-913 | the governance score is the assembly of the dividend, reporting, discipline and accounting tables, clamped |
| Scoring.AnalyzeCategory | src/analyzer.py:150-157 | running the scorer of one category gives that category's name, weight and a score in [0, 10] from its table |
| Scoring.EmptyRecordFiresNothing | src/analyzer.py:175-866 | a record without any series and without a dividend fires no rule, in every category |
| Scoring.OcfConsistencyIff | src/analyzer.py:501-508 | the +2 for cash flow fires exactly when the series is present and every year is positive |
| Scoring.FcfNegativeIff | src/analyzer.py:543-552 | the free-cash-flow penalty fires exactly when the series is present and no year is positive |
| Scoring.CoefficientOfVariation | src/analyzer.py:750-759 | the variance tests of the model agree with the source's coefficient-of-variation thresholds 0.2 and 0.5 |
| Scoring.ExampleMarginLevel | src/analyzer.py:184-189 | margins of 22 and 18 average 20.0 and earn the healthy-margin strength |
| Scoring.ExampleOtherRules | src/analyzer.py:197-229 | with those margins, a net margin of 16 and an ROE of 25, the trend, net-margin and ROE tables add 0.5, 1 and 1 |
| Scoring.ProfitabilityExample | src/analyzer.py:173-231 | that record scores 8.5 for profitability and its first strength is the healthy-margin note |
| Analyzer.WeightedTotalBounds | src/analyzer.py:917-923 | for scores within [0, 10] the weighted total lies between 0 and ten times the total weight |
| Analyzer.OverallScoreInRange | src/analyzer.py:915-926 | for category scores within [0, 10] the weighted composite lies within [0, 10] |
| Analyzer.CalculateOverallScore | src/analyzer.py:915-926 | the summing loop returns the weighted mean rounded to one decimal, or 5.0 without weight, and stays in [0, 10] for in-range scores |
| Analyzer.SortByScore | src/analyzer.py:933 | the sorted scores are the input scores taken in the stable descending order |
| Analyzer.SortByScoreSpec | src/analyzer.py:933 | the sort order is a permutation of the indices, the sorted scores descend, and equal scores keep their original order (Python's stable sort) |
| Analyzer.Tagged | src/analyzer.py:935-937 | each strength of a category is tagged with that category's name, one tag per strength |
| Analyzer.SourcesSpec | src/analyzer.py:935-937 | every collected strength is the tagged strength of the category and position it came from, taken category by category |
| Analyzer.KeyStrengthsTagged | src/analyzer.py:928-939 | at most eight key strengths, each the tagged strength of some category |
| Analyzer.KeyStrengthsOrdered | src/analyzer.py:928-939 | key strengths come from categories in descending score order, and among equal scores in the original category order |
| Analyzer.IdentifyKeyStrengths | src/analyzer.py:928-939 | the nested loop over the sorted scores returns exactly the first eight tagged strengths |
| Analyzer.ConcernFlagsFor | src/analyzer.py:1024-1033 | a category contributes at most two concern flags |
| Analyzer.ConcernFlags | src/analyzer.py:1023-1033 | the low-score loop contributes at most two flags per category |
| Analyzer.DecliningYears | src/analyzer.py:948-952 | the loop counts exactly the neighbouring revenue pairs whose newer value is below the older one |
| Analyzer.AddConcernFlags | src/analyzer.py:1023-1033 | the loop appends, in category order, the concern flags of each low-scoring category |
| Analyzer.ConcernFlagsStep | src/analyzer.py:1024-1033 | one more category extends the concern flags by that category's flags |
| Analyzer.AddCategoryConcerns | src/analyzer.py:1024-1033 | a category scored below 4 appends one Medium flag per concern among its first two; any other category appends none |
| Analyzer.CheckRevenueDecline | src/analyzer.py:947-962 | with three or more revenues and two or more declining years a High Growth flag is appended |
| Analyzer.CheckUnprofitable | src/analyzer.py:964-974 | a reported net income negative in every year appends a High Profitability flag |
| Analyzer.CheckDebt | src/analyzer.py:976-987 | a latest debt-to-equity above 2 appends a Financial Health flag, High above 3 and Medium otherwise |
| Analyzer.CheckNegativeCashFlow | src/analyzer.py:989-1001 | at least half the cash-flow years negative appends a High Cash Management flag |
| Analyzer.CheckEarningsQuality | src/analyzer.py:1003-1021 | two or more shared years with positive income above twice positive cash flow append a Medium Earnings Quality flag |
| Analyzer.IdentifyRedFlags | src/analyzer.py:941-1035 | the flags are the five data checks in order followed by the low-score concern flags |
| Analyzer.ConcernFlagsSound | src/analyzer.py:1023-1033 | every concern flag is Medium and carries one of the first two concerns of a category scored below 4, under that category |
| Analyzer.ConcernFlagsComplete | src/analyzer.py:1023-1033 | each of the first two concerns of every category scored below 4 is flagged |
| Analyzer.ConcernFlagsMedium | src/analyzer.py:1026 | every concern flag has severity Medium |
| Analyzer.ConcernFlagsAvoid | src/analyzer.py:1027 | a concern flag carries the category of the score it came from, so no flag names a category absent from the scores |
| Analyzer.GrowthFlagShape | src/analyzer.py:955-957 | the revenue-decline flag is High and filed under Growth |
| Analyzer.ProfitabilityFlagShape | src/analyzer.py:967-969 | the unprofitability flag is High and filed under Profitability |
| Analyzer.DebtFlagShape | src/analyzer.py:978-983 | the debt flag is filed under Financial Health, its severity follows the latest ratio, and its text states that ratio to two decimals |
| Analyzer.CashFlagShape | src/analyzer.py:994-996 | the cash-flow flag is High and filed under Cash Management |
| Analyzer.EarningsFlagShape | src/analyzer.py:1014-1016 | the earnings-quality flag is Medium and filed under Earnings Quality |
| Analyzer.FixedFlagShapes | src/analyzer.py:947-1021 | the category and severity of each of the five data-driven flags |
| Analyzer.HighFlagSplit | src/analyzer.py:941-1035 | a High flag of a category is raised exactly when one of the six checks raises it |
| Analyzer.FlagSplit | src/analyzer.py:941-1035 | a flag of a category is raised exactly when one of the six checks raises it |
| Analyzer.UnprofitableFlagIff | src/analyzer.py:964-974 | a High Profitability flag is raised exactly when net income is reported and negative in every year |
| Analyzer.RevenueDeclineFlagIff | src/analyzer.py:947-962 | a High Growth flag is raised exactly when at least three revenue years are reported and revenue fell in at least two neighbouring pairs |
| Analyzer.DebtFlagIff | src/analyzer.py:976-987 | when no score is called Financial Health, a flag of that category is raised exactly when the latest debt-to-equity exceeds 2 |
| Analyzer.DebtFlagContent | src/analyzer.py:976-987 | every Financial Health flag is High exactly when the latest ratio exceeds 3 and states that ratio to two decimals |
| Analyzer.ScoresOf | src/analyzer.py:150-157 | a report holds exactly seven category scores |
| Analyzer.ScoresShape | src/analyzer.py:150-157 | the i-th score is that of the i-th category with its weight, and every score lies in [0, 10] |
| Analyzer.MetricsOf | src/analyzer.py:1037-1073 | the metrics summary copies the revenue, profit, leverage series and the dividend yield unchanged |
| Analyzer.ScoreAllCategories | src/analyzer.py:150-157 | the seven scorers run in report order and their scores are appended in that order |
| Analyzer.Analyze | src/analyzer.py:139-171 | the report is the seven scores, their composite, key strengths, red flags and metrics; it has seven scores and a composite in [0, 10] |
| Analyzer.ReportScoreInRange | src/analyzer.py:159-160 | every report's composite and every category score lie within [0, 10] |
| Analyzer.ReportWeightsSumToOne | src/analyzer.py:150-157 | the seven category weights of a report sum to one |
| Analyzer.ScoresWeightsSumToOne | src/analyzer.py:150-157 | the weights of the seven scores sum to one |
| Analyzer.UniformScores | src/analyzer.py:919-921 | when every category has the same score the weighted total is that score times the total weight |
| Analyzer.UniformOverall | src/analyzer.py:915-926 | equal scores with one decimal under a positive total weight give that score overall |
| Analyzer.NoKeyStrengths | src/analyzer.py:928-939 | categories without strengths give no key strength |
| Analyzer.NoSeriesNoFixedFlags | src/analyzer.py:947-1021 | a record with no series raises none of the five data-driven flags |
| Analyzer.EmptyRecordScores | src/analyzer.py:150-157 | without data every category scores 5.0 with no notes |
| Analyzer.EmptyCategory | src/analyzer.py:175-231 | without data a category fires no rule and scores 5.0 with no notes |
| Analyzer.EmptyRecordOverall | src/analyzer.py:915-926 | without data the composite is 5.0 |
| Analyzer.EmptyRecordQuiet | src/analyzer.py:928-1035 | without data no key strength is listed and no red flag is raised |
| Analyzer.QuietScores | src/analyzer.py:928-1035 | scores of 5.0 without strengths on a record without series give no key strength and no flag |
| Analyzer.EmptyRecordReport | src/analyzer.py:139-171 | a record without series or dividend scores 5.0 everywhere and overall, with no key strength and no red flag |
| Analyzer.ReportDebtFlag | src/analyzer.py:976-987 | in a full report a Financial Health flag is raised exactly when the latest debt-to-equity exceeds 2, is High exactly above 3, and states the ratio |
| AiHelpers.CountRisingYears | src/analyzer.py:1489-1491 | the loop counts exactly the neighbouring revenue pairs whose newer value exceeds the older one |
| AiHelpers.AnyMentionsCash | src/analyzer.py:1494-1495 | the search answers whether some key strength mentions "cash" in any letter case |
| AiHelpers.BasicManagementScore | src/analyzer.py:1477-1497 | the score steps give 5 plus the performance adjustment, +1 for revenue rising every year, +0.5 for a cash strength, clamped into [1, 10] |
| AiHelpers.GenerateBasicManagementAssessment | src/analyzer.py:1475-1536 | the basic assessment carries that score, its band and its truncated clarity score, with the fixed ratings |
| AiHelpers.ManagementScoreRange | src/analyzer.py:1477-1497 | the adjustments keep the score within [4, 8.5], so the clamp to [1, 10] never changes it |
| AiHelpers.ManagementNeverWeak | src/analyzer.py:1499-1507 | the basic assessment never falls in the Weak band and its clarity score lies in [4, 8] |
| AiHelpers.ManagementExcellentIff | src/analyzer.py:1480-1500 | the Excellent band is reached exactly with an overall score of at least 7 and revenue rising every year |
| AiHelpers.ManagementGoodIff | src/analyzer.py:1480-1502 | the Good band is reached exactly with one of the two big adjustments and not the other |
| AiHelpers.TrendByRatio | src/analyzer.py:1438-1449 | over a positive oldest value the trend is Improving above ratio 1.1, Declining below 0.9 and Stable between |
| AiHelpers.DeeperLossReadsImproving | src/analyzer.py:1444-1446 | over a negative oldest value the thresholds swap sides: a loss deepening from 10 to 10.5 reads Improving |
| AiHelpers.QualityLevelBands | src/analyzer.py:1237 | the quality level is high from 7, concerning below 5, moderate between, and monotone in the score |
| AiHelpers.BasicThesisText | src/analyzer.py:1235-1242 | for a name starting with a non-blank character the fallback thesis is its three sentences and opens with the name and the quality level |
| AiHelpers.RiskLines | src/analyzer.py:1246 | one risk line per flag, for the first five flags |
| AiHelpers.BasicRisksText | src/analyzer.py:1244-1252 | the fallback risk text lists the first five flags one per line, or says no critical red flag was found |
| AiHelpers.StripFencesRemovesFences | src/analyzer.py:1353-1356 | the unwrapped answer never holds a code fence, and an answer without one is left unchanged |
| AiHelpers.UnwrapFencedAnswer | src/analyzer.py:1353-1354 | an answer wrapped in a json fence unwraps to its stripped body |
| DataFetcher.ResolveTicker | src/data_fetcher.py:373-391 | the candidate symbols are exactly those of the resolution rule `Candidates` over the Yahoo ticker set |
| DataFetcher.ResolveNormalized | src/data_fetcher.py:376-391 | the appending loop yields the candidate list for a normalised ticker and a known-ticker set |
| DataFetcher.CandidatesShape | src/data_fetcher.py:358-391 | the list is never empty and ends with the normalised input; a dotted input is tried alone; a known dot-free Indian ticker T gives [T.NS, T.BO, T]; any other input gives [T] |
| DataFetcher.DotOfSuffix | src/data_fetcher.py:380 | the ".NS"/".BO" tests are subsumed by the plain dot test |
| DataFetcher.DetectMarket | src/data_fetcher.py:720-732 | the market is "india" or "global", and "india" exactly when the normalised input carries an exchange suffix or is in the 29-ticker detection set |
| DataFetcher.MultiSourceTickersAreKnown | src/data_fetcher.py:358-367 | the detection set (lines 709-715) is contained in the Yahoo set and holds no dotted ticker |
| DataFetcher.DetectedIndiaTriesExchangeFirst | src/data_fetcher.py:373-391 | whenever the market is detected as Indian, the first Yahoo symbol tried carries an Indian exchange suffix (detection lines 720-732) |
| DataFetcher.CapitalWordIsNormal | src/data_fetcher.py:375 | a word of capital letters is unchanged by upper-casing and trimming |
| DataFetcher.AdanientIsKnown | src/data_fetcher.py:358-367 | ADANIENT is in the Yahoo ticker set |
| DataFetcher.AdanientIsNotDetected | src/data_fetcher.py:709-715 | ADANIENT is not in the detection set |
| DataFetcher.AdanientDisagreement | src/data_fetcher.py:358-391 | for ADANIENT the Yahoo adapter tries the NSE, the BSE, then the bare symbol, while market detection (lines 720-732) calls it global |
| DataFetcher.AdanientCandidates | src/data_fetcher.py:373-391 | ADANIENT is resolved to [ADANIENT.NS, ADANIENT.BO, ADANIENT] |
| DataFetcher.AdanientMarket | src/data_fetcher.py:720-732 | ADANIENT is detected as global |
| DataFetcher.KnownTickerCandidates | src/data_fetcher.py:373-391 | a normal dot-free ticker of the Yahoo set is tried on the NSE, then the BSE, then bare |
| DataFetcher.KnownCandidatesFor | src/data_fetcher.py:383-391 | a known dot-free ticker is tried on the NSE, then the BSE, then bare, for any known set |
| DataFetcher.UnlistedTickerMarket | src/data_fetcher.py:720-732 | a normal dot-free ticker outside the detection set is global |
| DataFetcher.FirstUsable | src/data_fetcher.py:749-757 | a result exists iff some attempt returned a record with revenue or net income; it is that attempt's record unchanged and no earlier attempt qualified |
| Dicts.MapList | src/data_fetcher.py:749-755 | one result per item, in item order: the adapter attempts of the fetch loop, and likewise the per-path parse outcomes of `parse_multiple_reports` |
| DataFetcher.FetchFirst | src/data_fetcher.py:749-757 | the fallback loop with early return gives the first usable result, skipping raised attempts, or None |
| DataFetcher.YahooFetch | src/data_fetcher.py:442-455 | the Yahoo adapter returns the first usable result over its symbol candidates, in order |
| DataFetcher.Only | src/data_fetcher.py:743-745 | a list comprehension filter keeps only adapters passing the test and is no longer than its input |
| DataFetcher.IndiaOrderIsPermutation | src/data_fetcher.py:741-745 | the India order (Yahoo, then Screener, then the rest) is a permutation of the configured adapters |
| DataFetcher.MultiSourceFetch | src/data_fetcher.py:734-757 | the result is the first usable answer over the reordered adapters, and the order is a permutation of the configured list |
| DataFetcher.AllFetchers | src/data_fetcher.py:692-703 | Screener comes first and always; Yahoo is present iff its library is installed; FMP is present iff a non-empty key is given |
| DataFetcher.IndiaOrderOfAllFetchers | src/data_fetcher.py:692-747 | with every source available, an Indian identifier is tried on Yahoo, then Screener, then FMP |
| DataFetcher.OnlyOfThree | src/data_fetcher.py:743-745 | each of the three filters picks exactly its one adapter out of Screener, Yahoo and FMP |
| DataFetcher.CreateFetcher | src/data_fetcher.py:673-690 | "india" gives Screener; "us"/"global" with a key gives FMP; every other case gives Yahoo, which fails exactly when its library is missing |
| DataFetcher.Dedup | src/data_fetcher.py:759-775 | no two kept results share (lower-cased name, upper-cased ticker), every kept result is an input result, and every input key is represented |
| DataFetcher.DedupStep | src/data_fetcher.py:767-771 | appending one result keeps it exactly when its key is unseen |
| DataFetcher.UnseenStep | src/data_fetcher.py:767-771 | one step of the inner loop keeps the result list and the seen set in step with the de-duplication of everything read so far |
| DataFetcher.DedupKeepsFirstSeen | src/data_fetcher.py:759-775 | every kept result is the first input result with its key (first-seen order) |
| DataFetcher.Answers | src/data_fetcher.py:763-773 | there is at most one answer per adapter: adapters whose search raised contribute none |
| DataFetcher.SearchAll | src/data_fetcher.py:759-775 | the search loop returns the de-duplication of all adapters' answers concatenated in adapter order |
| DataFetcher.AddUnseen | src/data_fetcher.py:765-771 | the inner loop extends the result list to the de-duplication of everything read so far, with the seen set equal to its keys |
| DataFetcher.ScreenerTicker | src/data_fetcher.py:176-182 | the ticker is non-empty iff the URL's non-empty segments start with "company" and have a second one; it has no lower-case letter or slash |
| DataFetcher.ScreenerMatches | src/data_fetcher.py:175-184 | each kept match is some item's name with its URL ticker, and its ticker is neither empty nor CONSOLIDATED/STANDALONE |
| DataFetcher.ParseScreenerSearch | src/data_fetcher.py:172-185 | the parsing loop keeps the qualifying matches among the first ten items, so at most ten |
| DataFetcher.LastN | src/data_fetcher.py:252 | `[-n:]` gives the last n items (all when fewer) for positive n, everything for n = 0 |
| DataFetcher.AfterFirst | src/data_fetcher.py:251 | dropping the first header cell leaves one fewer, none from an empty header |
| DataFetcher.StripAll | src/data_fetcher.py:252 | every label is the stripped cell text at its position |
| DataFetcher.StripKeepsNoSeparators | src/data_fetcher.py:268 | stripping cannot bring back a comma or a percent sign |
| DataFetcher.ReplaceKeepsNoSeparators | src/data_fetcher.py:268 | removing a non-empty pattern cannot bring back a comma or a percent sign |
| DataFetcher.Cleaned | src/data_fetcher.py:268 | the cleaned cell has no comma and no percent sign |
| DataFetcher.CellValues | src/data_fetcher.py:262-271 | each cell's number is the parse of its cleaned text, in order |
| DataFetcher.RowDataSize | src/data_fetcher.py:264-271 | a row gives no more entries than there are year labels |
| DataFetcher.RowDataKeys | src/data_fetcher.py:264-271 | every key of a row's data is a year label |
| DataFetcher.RowDataCell | src/data_fetcher.py:264-271 | with distinct labels, year j has an entry iff cell j exists and holds a number, and then the entry is that number; blank, dash and unparsable cells are absent rather than zero |
| DataFetcher.BlankCellHasNoValue | src/data_fetcher.py:268-270 | an empty or "-" cell after cleaning has no number |
| DataFetcher.FirstRow | src/data_fetcher.py:257-273 | a found row position lies within the body |
| DataFetcher.FirstWhereSpec | src/data_fetcher.py:258-273 | the item found passes the test and no earlier one does; when none is found, no item passes |
| DataFetcher.FirstRowSpec | src/data_fetcher.py:258-273 | the row used is the first whose lower-cased label contains the lower-cased metric; when none is found, no row matches |
| DataFetcher.ExtractTableData | src/data_fetcher.py:236-276 | the method computes the table-data function `TableData` |
| DataFetcher.FindRow | src/data_fetcher.py:258-273 | the row loop with `break` finds the first matching row |
| DataFetcher.FillRow | src/data_fetcher.py:264-271 | the year loop records, per label, the number of the cell at its position |
| DataFetcher.TableDataBounds | src/data_fetcher.py:236-276 | every key is among the last `years` header labels, so at most `years` entries for positive `years` |
| DataFetcher.MissingTableGivesNothing | src/data_fetcher.py:240-254 | a missing section, table, header or body gives an empty result |
| DataFetcher.ZeroYearsKeepsAllColumns | src/data_fetcher.py:251-252 | with `years` 0 the slice `[-0:]` keeps every header label |
| DataFetcher.ParsedText | src/data_fetcher.py:343-349 | the text handed to `float` has no comma or percent sign |
| DataFetcher.PlainValueParsesAsItself | src/data_fetcher.py:343-352 | a plain number without separators, "Cr" or outer blanks reaches `float` unchanged; an unparsable text reads as 0.0 |
| DataFetcher.YahooCalculateRatios | src/data_fetcher.py:546-572 | the one-pass method returns exactly the record of the ratio specification `YahooRatios` |
| DataFetcher.RatioStep | src/data_fetcher.py:548-572 | one year of one ratio extends the fill of the earlier years by that year |
| DataFetcher.RatioFill | src/data_fetcher.py:546-572 | a year gains or changes its ratio iff it is a revenue year with both operands and a non-zero denominator, then it is numerator over denominator times the scale; every other entry is kept |
| DataFetcher.YahooReturnOnEquity | src/data_fetcher.py:549-551 | ROE is net income over equity times 100 for a revenue year with non-zero equity, and the input series are untouched |
| DataFetcher.YahooDebtToEquity | src/data_fetcher.py:559-561 | debt to equity is the unscaled quotient of debt over equity |
| DataFetcher.YahooNetMargin | src/data_fetcher.py:569-572 | net margin is net income over revenue times 100; a zero-revenue year gains none |
| DataFetcher.YahooRatiosOnlyRevenueYears | src/data_fetcher.py:548 | a year outside the revenue series gains no new ratio of any of the five kinds |
| DataFetcher.Invalid | src/data_fetcher.py:794-803 | an invalid answer has no matches, no best match and the given error |
| DataFetcher.Accepted | src/data_fetcher.py:842-845 | an accepted answer is valid with the given matches, the first as best match |
| DataFetcher.QueryVariants | src/data_fetcher.py:827-833 | the query comes first; a second variant, base + ".NS", exists only for a ticker-shaped known Indian query without suffix |
| DataFetcher.FirstAccepted | src/data_fetcher.py:837-845 | an answer exists iff some variant's search answered matches naming a real company (an upper-cased name unlike the query, the variant and the bare query), and it is that answer |
| DataFetcher.FirstProfile | src/data_fetcher.py:864-882 | a profile match has a non-empty company name whose upper-cased form differs from the query |
| DataFetcher.StaticFallback | src/data_fetcher.py:886-953 | the table step is valid iff the query is ticker-shaped and its bare form is listed |
| DataFetcher.StaticHit | src/data_fetcher.py:939-946 | a table hit names the listed company under base + ".NS" unless the query already carried a suffix |
| DataFetcher.StaticMiss | src/data_fetcher.py:948-953 | a miss reports "Ticker ... not found" for ticker-shaped input and "No matching companies found" otherwise |
| DataFetcher.OnlineAnswer | src/data_fetcher.py:835-884 | an online answer is never empty, and none exists without an FMP key or the Yahoo library |
| DataFetcher.Validate | src/data_fetcher.py:778-960 | every answer is well formed (valid iff no error; valid answers have the first match as best); a blank input is invalid with the empty-name error |
| DataFetcher.SearchAnswerWins | src/data_fetcher.py:835-845 | an accepted FMP search answer is the validation's answer, its first match is the best, and it names a real company |
| DataFetcher.OfflineUsesStaticTable | src/data_fetcher.py:886-953 | offline, the answer is valid iff the query is ticker-shaped and listed, with the NSE symbol unless suffixed |
| DataFetcher.AmpersandIsNotTickerShaped | src/data_fetcher.py:809-813 | "M&M" does not look like a ticker |
| DataFetcher.AmpersandTickerNeverReachesTable | src/data_fetcher.py:886-953 | offline, "M&M" is rejected as a name not found although the table lists it |
| DataFetcher.MahindraIsListed | src/data_fetcher.py:930 | the static table lists M&M |
| DataFetcher.OfflineMiss | src/data_fetcher.py:948-953 | offline, a plain name is reported as not found |
| DataFetcher.LowerCaseQueryIsPlain | src/data_fetcher.py:809-833 | a trimmed query starting with a lower-case letter is not ticker-shaped and has a single variant |
| DataFetcher.UpperChangesLowerCase | src/data_fetcher.py:841 | a query starting with a lower-case letter changes when upper-cased |
| DataFetcher.EchoTestIsCaseSensitive | src/data_fetcher.py:841-845 | a lower-case name query whose search merely echoes it in upper case is accepted, since the test compares with the raw query |
| DataFetcher.EchoAnswerAccepted | src/data_fetcher.py:837-845 | the upper-case echo of a lower-case query passes the company-name test |
| DataFetcher.EchoIsOnlineAnswer | src/data_fetcher.py:835-845 | with a key, an accepted FMP answer is the online answer |
| DataFetcher.LowerCaseQueryIsEchoAccepted | src/data_fetcher.py:809-833 | "infy" is a plain, unsuffixed, non-ticker query that changes under upper-casing |
| PdfParser.SortDescSpec | src/pdf_parser.py:233 | sorting distinct year labels in reverse gives a strictly descending list holding exactly those labels |
| PdfParser.YearsDesc | src/pdf_parser.py:233 | the reverse-sorted year list is a strictly descending permutation of the series' keys |
| PdfParser.YearsAreKeys | src/pdf_parser.py:233-236 | every listed year is a key of the series, so the lookups in the growth loop cannot fail |
| PdfParser.YearsDescAdjacent | src/pdf_parser.py:234-236 | two neighbours of the descending list have no key of the series strictly between them |
| PdfParser.GrowthFillOutside | src/pdf_parser.py:234-239 | a year the first n iterations never visit keeps its old growth entry, or its absence |
| PdfParser.GrowthFillAt | src/pdf_parser.py:234-239 | the year of pair i gets that pair's growth, or keeps its old entry when the older value is zero |
| PdfParser.GrowthFillIdempotent | src/pdf_parser.py:232-250 | running the pairs again over their own result changes nothing |
| PdfParser.GrowthOfIdempotent | src/pdf_parser.py:232-250 | a second growth pass over the same series rewrites identical values, which is what the nesting of the growth loops inside the year loop relies on |
| PdfParser.GrowthOfPair | src/pdf_parser.py:233-239 | each year but the smallest gets its growth over the next smaller year, in percent, when that year's value is non-zero |
| PdfParser.SmallestYearHasNoGrowth | src/pdf_parser.py:233-239 | the smallest year label is below every other year and never receives a growth entry of its own |
| PdfParser.GrowthPass | src/pdf_parser.py:233-239 | one growth loop over the reverse-sorted years computes the growth series of the specification function |
| PdfParser.GrowthStep | src/pdf_parser.py:235-239 | the loop body for pair i fills exactly pair i's growth entry |
| PdfParser.RoceStep | src/pdf_parser.py:212-216 | one ROCE step fills the year's return on capital employed when the three operands exist and capital employed is non-zero |
| PdfParser.CalculateRatios | src/pdf_parser.py:198-250 | the ratio pass leaves exactly the record of the ratio specification function |
| PdfParser.RatioPass | src/pdf_parser.py:200-250 | the loop over revenue years fills ROE, ROA, ROCE, debt-to-equity and both margins for each year where operands exist and divisors are non-zero, and each growth series when revenue is present |
| PdfParser.RatioRound | src/pdf_parser.py:201-216 | one revenue year of the pass extends all six ratio fills of the earlier years by that year |
| PdfParser.GrowthAgain | src/pdf_parser.py:232-250 | a growth pass over a series that may already hold its growth entries gives the same result as the first pass |
| PdfParser.RoceFill | src/pdf_parser.py:212-216 | the ROCE series gains an entry exactly for the listed years with operands and non-zero capital employed, valued operating income over capital employed in percent; other years keep theirs |
| PdfParser.PdfReturnOnCapital | src/pdf_parser.py:200-216 | the record's ROCE after the pass holds the old entries and one per revenue year with operands, computed as operating income over equity plus debt |
| PdfParser.PdfRatiosMatchYahoo | src/pdf_parser.py:200-230 | the five ratios the PDF parser shares with the Yahoo adapter come out the same, and the extracted series are untouched |
| PdfParser.ProfitGrowthIgnoresRevenueYears | src/pdf_parser.py:242-250 | profit growth is filled only when revenue is present and then does not depend on the revenue years |
| PdfParser.FloatOrZero | src/pdf_parser.py:192-195 | a value that converts gives its number; one that raises gives 0.0 |
| PdfParser.FloatDict | src/pdf_parser.py:188-196 | the converted dictionary has the same keys in the same order, each value converted or 0.0 |
| PdfParser.FloatDictGet | src/pdf_parser.py:188-196 | looked up by key, the converted dictionary has exactly the input's keys and each key's converted value |
| PdfParser.ConvertToFloatDict | src/pdf_parser.py:188-196 | the conversion loop returns the converted dictionary |
| PdfParser.ChooseName | src/pdf_parser.py:143-149 | a truthy non-string extracted name raises; a non-blank user name wins; with no user name the extracted name is used |
| PdfParser.BlankUserNameAgainstPlaceholder | src/pdf_parser.py:145-149 | a user name of blanks wins over a placeholder extracted name but loses to a real one |
| PdfParser.UnderscoreTicker | src/pdf_parser.py:154 | the ticker is the name upper-cased with every space replaced by an underscore |
| PdfParser.TickerFor | src/pdf_parser.py:154 | an empty name gives the ticker UNKNOWN, any other the underscored name |
| PdfParser.RecordFromJson | src/pdf_parser.py:142-180 | the record is built exactly when the answer is an object, the name choice succeeds and every series and scalar converts; otherwise the extraction error |
| PdfParser.RecordUsesUserName | src/pdf_parser.py:149-155 | a non-blank user name names the record and gives its ticker and year count |
| PdfParser.RecordWithoutName | src/pdf_parser.py:143-154 | with no name from either side the record's ticker is UNKNOWN |
| PdfParser.RecordRevenue | src/pdf_parser.py:161 | a revenue field that is not an object fails the parse; an absent one gives an empty series; otherwise the series has the field's keys and converted values |
| PdfParser.UnparsableMarketCapFails | src/pdf_parser.py:176 | a market cap the string parser rejects fails the whole parse |
| PdfParser.ParseFinancialData | src/pdf_parser.py:140-186 | the built record then passes through the ratio calculation; the parse fails exactly when building the record fails |
| PdfParser.ParseAnnualReport | src/pdf_parser.py:252-279 | text shorter than 100 characters is rejected with its message; a failed model answer gives the extraction error; otherwise the record with its ratios |
| PdfParser.ParseMultipleReports | src/pdf_parser.py:281-341 | the combined record merges the parsed reports in path order and then gets its ratios; its name, underscored ticker and year count come from the caller |
| PdfParser.MergeKeepsIdentity | src/pdf_parser.py:308-336 | merging never touches the name, ticker or year count |
| PdfParser.FieldOfReports | src/pdf_parser.py:313-323 | one merged series per report, empty for a report that failed |
| PdfParser.MergeReportField | src/pdf_parser.py:313-323 | merging one report updates each merged series with the report's series |
| PdfParser.MergeAllField | src/pdf_parser.py:308-336 | each merged series is the union of the reports' series taken in path order |
| PdfParser.UnionOfKeys | src/pdf_parser.py:313-323 | a year is in the union exactly when it is in the start or in some report |
| PdfParser.UnionOfLatest | src/pdf_parser.py:313-323 | a year takes its value from the last report that has it |
| PdfParser.UnionOfUntouched | src/pdf_parser.py:313-323 | a year no report has keeps the start's entry |
| PdfParser.StartIsEmpty | src/pdf_parser.py:300-306 | the combined record starts with every merged series empty |
| PdfParser.MergedSeriesKeys | src/pdf_parser.py:308-336 | from an empty start a merged series holds exactly the years some parsed report has |
| PdfParser.MergedSeriesLatest | src/pdf_parser.py:308-336 | each year of a merged series carries the value of the last parsed report that has it |
| PdfParser.FirstWithSector | src/pdf_parser.py:326 | the first parsed report with a non-empty sector, if any |
| PdfParser.LastParsed | src/pdf_parser.py:308-334 | the last report that parsed, if any |
| PdfParser.MergeReportFacts | src/pdf_parser.py:326-331 | merging a report copies its company facts exactly when the combined sector is still empty |
| PdfParser.MergedCompanyFacts | src/pdf_parser.py:308-336 | the company facts come from the first report with a sector; if none has one, from the last parsed report; with none parsed they stay |
| Forensic.TruncateForPrompt | src/forensic_analyzer.py:62-65 | a report text of at most 50000 characters is sent unchanged; a longer one is cut to its first 50000 characters followed by the truncation marker |
| Forensic.SourceOf | src/forensic_analyzer.py:362-418 | the answer fields read for a category belong to that category |
| Forensic.CategorySources | src/forensic_analyzer.py:362-418 | the seven category entries are read in the analyzer's category order |
| Forensic.ScoresFor | src/forensic_analyzer.py:362-418 | a built category list has one entry per category source |
| Forensic.ScoresForEntry | src/forensic_analyzer.py:362-418 | entry i of a built list is the entry built from source i |
| Forensic.ScoresForBuilt | src/forensic_analyzer.py:362-418 | the list is built whenever every one of its entries is |
| Forensic.CriticalFlags | src/forensic_analyzer.py:424-432 | the critical loop succeeds exactly when every entry is an object, giving one High flag per entry in input order |
| Forensic.ModerateFlags | src/forensic_analyzer.py:434-451 | the moderate loop gives one flag per entry, in input order |
| Forensic.StringsOf | src/forensic_analyzer.py:453-456 | a strengths list gives one text per item |
| Forensic.ParseAnalysisToReport | src/forensic_analyzer.py:348-486 | the parsing method, with its two flag loops, returns exactly the report the answer specifies, including the four answer sections as its metrics, or the error it raises |
| Forensic.CollectCritical | src/forensic_analyzer.py:424-432 | the loop over critical entries gives the critical flags, failing on an entry that is not an object |
| Forensic.AppendModerate | src/forensic_analyzer.py:434-451 | the loop appends the moderate flags after those already collected |
| Forensic.CategoryScoreParts | src/forensic_analyzer.py:363-370 | a built entry scores five times its sub-score, carries its category's name and weight, no notes, and an explanation cut to 200 characters where the source slices it |
| Forensic.EntryParts | src/forensic_analyzer.py:362-418 | entry i of the seven-entry list has the name and weight of the i-th category and five times the i-th sub-score |
| Forensic.ForensicScoreList | src/forensic_analyzer.py:356-418 | an accepted answer's category list is built from its scoring section, and the overall score is its normalized score |
| Forensic.ForensicCategories | src/forensic_analyzer.py:362-418 | an accepted report lists the seven categories in order with the analyzer's names and weights and no strengths or concerns |
| Forensic.ForensicSharedScore | src/forensic_analyzer.py:365-401 | Profitability and Quality of Earnings read the same earnings_quality sub-score, so their scores agree |
| Forensic.SharedEntries | src/forensic_analyzer.py:365-401 | in any built list entries 0 and 5 have the same score |
| Forensic.ForensicCutExplanations | src/forensic_analyzer.py:385-417 | the Cash Flow and Governance explanations hold at most 200 characters |
| Forensic.CutEntries | src/forensic_analyzer.py:385-417 | in any built list entries 3 and 6 have explanations of at most 200 characters |
| Forensic.ForensicScores | src/forensic_analyzer.py:362-418 | each category score is five times its sub-score, unclamped, and 0 when the sub-score is absent |
| Forensic.ForensicOverall | src/forensic_analyzer.py:357-358 | the overall score is the answer's normalized score, 0 when absent, independent of the category scores |
| Forensic.ForensicScoresAreNotClamped | src/forensic_analyzer.py:365 | an earnings_quality sub-score of 3 gives a profitability score of 15, outside [0, 10] |
| Forensic.ForensicFlagParts | src/forensic_analyzer.py:420-451 | the flags of an accepted answer are its critical flags followed by its moderate flags |
| Forensic.ForensicFlagCount | src/forensic_analyzer.py:420-451 | there is one flag per critical and per moderate entry |
| Forensic.ForensicCriticalFlag | src/forensic_analyzer.py:424-432 | the i-th flag is the High flag built from the i-th critical entry, which is an object |
| Forensic.ForensicModerateFlag | src/forensic_analyzer.py:434-451 | moderate flags follow the critical ones as Medium flags; a non-object entry becomes a General flag with its text and the fixed impact and recommendation |
| Forensic.ModerateAfterCritical | src/forensic_analyzer.py:434-451 | indexing past the critical flags lands on the moderate flag of that entry |
| Forensic.PlainCriticalEntryFails | src/forensic_analyzer.py:424-426 | a critical entry that is not an object makes the parse fail |
| Forensic.ForensicStrengths | src/forensic_analyzer.py:453-466 | key strengths are the top-level list when truthy, else the strengths under red_flags; the name, years and underscored upper-case ticker come from the caller |
| Forensic.ForensicMetricsSections | src/forensic_analyzer.py:477-482 | a report built from an answer carries as metrics the answer's verdict, earnings-quality, multi-year-trend and execution sections, each `{}` when absent |
| Forensic.StringsOfTexts | src/forensic_analyzer.py:460-462 | a strengths list made only of strings becomes exactly those strings, in order |
| Forensic.ForensicDecodeErrors | src/forensic_analyzer.py:355-358 | an answer that does not decode, or is not an object, gives no report |
| ReportGenerator.ScoreBand | src/report_generator.py:278-291 | the band counts the thresholds 4, 5, 6, 7 and 8 the score reaches, each band boundary holding in both directions |
| ReportGenerator.ScoreBandMonotone | src/report_generator.py:278-291 | a higher score never lands in a lower band |
| ReportGenerator.RatingNames | src/report_generator.py:280-291 | the console rating scale has six words |
| ReportGenerator.RatingText | src/report_generator.py:278-291 | the rating word is the scale entry of the score's band (>=8 Excellent, >=7 Strong, >=6 Good, >=5 Moderate, >=4 Fair, else Weak), so the bands are exhaustive |
| ReportGenerator.RatingRank | src/report_generator.py:280-291 | the rank of a rating word is its position on the scale, inverting the indexing |
| ReportGenerator.RatingTextMonotone | src/report_generator.py:278-291 | the rating never goes down the scale as the score grows |
| ReportGenerator.RatingNamesDistinct | src/report_generator.py:280-291 | the six rating words are distinct |
| ReportGenerator.ScoreColor | src/report_generator.py:269-276 | green iff score >= 7, yellow iff 5 <= score < 7, red iff score < 5 |
| ReportGenerator.PanelAgreesWithScoreColor | src/report_generator.py:83-92 | the overall panel's colour is the category colour, and its STRONG/MODERATE/WEAK verdict agrees with the Markdown verdict (line 351) and with the score bands |
| ReportGenerator.MiniBar | src/report_generator.py:293-296 | for a score in [0, 10] the bar is ten cells of three characters each (the literals as the file stores them: 30 characters); cell i is the filled cell iff i < int(score), otherwise the empty cell; above 10 every cell is filled, below 1 every cell is empty |
| ReportGenerator.SeverityColor | src/report_generator.py:298-304 | High is red, Medium yellow, Low blue, and any other severity white |
| ReportGenerator.HeaderLines | src/report_generator.py:345-352 | the header is five lines |
| ReportGenerator.OptionalSection | src/report_generator.py:355-356 | an optional section is one line when its text is non-empty and absent otherwise |
| ReportGenerator.CategoryRows | src/report_generator.py:362-364 | one table row per category score |
| ReportGenerator.TopLines | src/report_generator.py:345-361 | the category rows start after the header, the optional summary and the three table-head lines |
| ReportGenerator.ToMarkdown | src/report_generator.py:340-386 | the appending method returns the document lines of the Markdown specification joined by newlines |
| ReportGenerator.AppendCategoryRows | src/report_generator.py:362-364 | the table loop appends exactly the category rows |
| ReportGenerator.AppendStrengths | src/report_generator.py:366-369 | the strengths loop appends the heading and the numbered first eight strengths |
| ReportGenerator.AppendFlagSection | src/report_generator.py:371-380 | the red-flag loop appends the heading and four lines per flag, or the "none" line |
| ReportGenerator.AppendClosing | src/report_generator.py:382-388 | the thesis and risk sections are appended only when non-empty |
| ReportGenerator.FlagBlocksLength | src/report_generator.py:373-377 | every flag contributes four lines |
| ReportGenerator.FlagBlocksAt | src/report_generator.py:373-377 | flag i occupies lines 4i to 4i+3 of the flag blocks, as its severity/description, category, impact and recommendation lines |
| ReportGenerator.MarkdownTableHead | src/report_generator.py:358-361 | the table header line sits two lines above the first category row |
| ReportGenerator.MarkdownCategoryRows | src/report_generator.py:362-364 | line CategoryStart + i is the row of category score i with its rating word |
| ReportGenerator.MarkdownStrengths | src/report_generator.py:366-369 | the strengths heading is followed by the first eight strengths (all when fewer), numbered from 1 in order |
| ReportGenerator.MarkdownSplit | src/report_generator.py:345-386 | the document is the lines before the strengths, then the strengths section, then the flags and closing sections |
| ReportGenerator.StrengthsWithin | src/report_generator.py:366-369 | wherever the strengths section is placed, its heading comes first and line 1+i is "i+1. " followed by strength i |
| ReportGenerator.StrengthsAreNotNoFlags | src/report_generator.py:366-369 | no strengths line can be the "no red flags" line |
| ReportGenerator.FlagBlocksAreNotNoFlags | src/report_generator.py:371-377 | with flags present, no line of the flag section is the "no red flags" line |
| ReportGenerator.TopIsNotNoFlags | src/report_generator.py:345-364 | no header, table or closing line is the "no red flags" line |
| ReportGenerator.OnlyNoFlagsLineStartsWithN | src/report_generator.py:340-386 | with flags present, no line of the document is the "no red flags" line |
| ReportGenerator.MarkdownNoFlagsLine | src/report_generator.py:371-380 | "No significant red flags identified." appears in the document iff the report has no flags |
| ReportGenerator.MarkdownLineCount | src/report_generator.py:340-386 | the document's line count is 5 header lines, 1 if there is a summary, 3 table-head lines, one row per category, the strengths heading and at most 8 strengths, the flags heading and 1 or 4 per flag, and the optional closing sections |
| ReportGenerator.FormatOf | src/report_generator.py:392-399 | "json" selects JSON, "md" or "markdown" Markdown, and anything else is the "Unsupported format" error |
| ReportGenerator.SaveContent | src/report_generator.py:392-404 | the content is the JSON text for "json", the Markdown document for "md"/"markdown", and an error raised before writing for any other format |
| PdfReport.PdfRatingNames | src/pdf_report_generator.py:407-420 | the PDF overall rating scale has six words |
| PdfReport.PdfRatingText | src/pdf_report_generator.py:407-420 | the rating is the scale entry of the score's band: >=8 EXCEPTIONAL, >=7 EXCELLENT, >=6 STRONG, >=5 ABOVE AVERAGE, >=4 MODERATE, else BELOW AVERAGE |
| PdfReport.AssessmentNames | src/pdf_report_generator.py:536-549 | the category assessment scale has six words |
| PdfReport.CategoryAssessment | src/pdf_report_generator.py:536-549 | the assessment is the scale entry of the score's band: >=8 Excellent, >=7 Strong, >=6 Above Avg, >=5 Average, >=4 Below Avg, else Weak |
| PdfReport.RatingScalesAgree | src/pdf_report_generator.py:407-420 | two scores get the same PDF rating, or the same category assessment (lines 536-549), iff they get the same console rating (src/report_generator.py 278-291) |
| PdfReport.PerspectiveLevel | src/pdf_report_generator.py:859-873 | the level counts the thresholds 4.5, 5.5, 6.5 and 7.5 the overall score reaches, each boundary in both directions |
| PdfReport.PerspectiveNames | src/pdf_report_generator.py:859-873 | the perspective scale has five words |
| PdfReport.Perspective | src/pdf_report_generator.py:859-873 | the perspective is STRONG BUY >=7.5, BUY >=6.5, ACCUMULATE >=5.5, HOLD >=4.5, else CAUTIOUS |
| PdfReport.PerspectiveBesideRating | src/pdf_report_generator.py:856-873 | the perspective level sits at or one below the rating band, so STRONG BUY goes with EXCELLENT or EXCEPTIONAL and CAUTIOUS with MODERATE or BELOW AVERAGE |
| PdfReport.ScanScores | src/pdf_report_generator.py:750-756 | the scan loop over the categories leaves the two scores of the last categories passing each test |
| PdfReport.LastScoresMissing | src/pdf_report_generator.py:750-756 | a score no category supplies stays 0.0 |
| PdfReport.LastScoresFirst | src/pdf_report_generator.py:753-754 | the one category passing the first test supplies the first score |
| PdfReport.LastScoresSecond | src/pdf_report_generator.py:755-756 | the one category failing the first test and passing the second supplies the second score |
| PdfReport.AbsentCharNotContained | src/pdf_report_generator.py:753-755 | a name lacking a character of the searched word does not contain it |
| PdfReport.NotEarningsQuality | src/pdf_report_generator.py:753 | a name without a capital Q fails the earnings-quality test |
| PdfReport.PassesNone | src/pdf_report_generator.py:624-627 | a name without Q, P or G passes none of the four name tests (here and at lines 753-755) |
| PdfReport.PassesOnlyProfitability | src/pdf_report_generator.py:753-756 | a profitability name without Q or G passes none of the other tests |
| PdfReport.PassesOnlyGrowth | src/pdf_report_generator.py:624-627 | a growth name without Q, P or c passes none of the other tests |
| PdfReport.PassesOnlyEarningsQuality | src/pdf_report_generator.py:753-756 | an earnings-quality name without P or G passes none of the other tests |
| PdfReport.PassesOnlyGovernance | src/pdf_report_generator.py:624-627 | a governance name without Q, P or w passes none of the other tests |
| PdfReport.ProfitabilityNameTests | src/analyzer.py:19 | "Profitability & Margins" passes the profitability test only (tests at src/pdf_report_generator.py 624-627 and 753-755) |
| PdfReport.GrowthNameTests | src/analyzer.py:20 | "Growth & Revenue Stability" passes the growth test only |
| PdfReport.FinancialHealthNameTests | src/analyzer.py:21 | "Financial Health & Leverage" passes none of the four tests |
| PdfReport.CashManagementNameTests | src/analyzer.py:22 | "Cash Flow Management" passes none of the four tests |
| PdfReport.CapitalEfficiencyNameTests | src/analyzer.py:23 | "Capital Efficiency & Returns" passes none of the four tests |
| PdfReport.QualityOfEarningsNameTests | src/analyzer.py:24 | "Quality of Earnings" passes the earnings-quality test only |
| PdfReport.GovernanceNameTests | src/analyzer.py:25 | "Management & Governance Indicators" passes the governance test only |
| PdfReport.ProfitabilityNamed | src/analyzer.py:19 | the profitability name contains "Profitability" |
| PdfReport.GrowthNamed | src/analyzer.py:20 | the growth name contains "Growth" |
| PdfReport.QualityNamed | src/analyzer.py:24 | the earnings-quality name contains "Quality" |
| PdfReport.GovernanceNamed | src/analyzer.py:25 | the governance name contains "Governance" |
| PdfReport.EarningsQualityTestOnNames | src/pdf_report_generator.py:753 | of the seven category names exactly "Quality of Earnings" passes the "Earnings Quality"/"Quality" test |
| PdfReport.ProfitabilityTestOnNames | src/pdf_report_generator.py:755 | of the seven category names exactly "Profitability & Margins" contains "Profitability" |
| PdfReport.GovernanceTestOnNames | src/pdf_report_generator.py:625 | of the seven category names exactly the governance name contains "Governance" |
| PdfReport.GrowthTestOnNames | src/pdf_report_generator.py:627 | of the seven category names exactly "Growth & Revenue Stability" contains "Growth" |
| PdfReport.GapPicksCategories | src/pdf_report_generator.py:750-756 | on category names the scan reads the earnings-quality and profitability scores, and 0.0 for a missing category |
| PdfReport.AlignmentPicksCategories | src/pdf_report_generator.py:621-627 | on category names the scan reads the governance and growth scores, and 0.0 for a missing category |
| PdfReport.StandardOrderScores | src/pdf_report_generator.py:621-627 | in the analyzer's category order the gap reads entries 5 and 0 and the alignment entries 6 and 1 (gap scan at lines 750-756) |
| PdfReport.ForensicSectionScores | src/forensic_analyzer.py:362-424 | a report built from an AI answer has seven categories, and the PDF gap and alignment sections read its earnings-quality, profitability, governance and growth entries |
| PdfReport.Gap | src/pdf_report_generator.py:758 | the gap is non-negative and below 1 iff the two scores differ by less than 1 |
| PdfReport.GapSymmetric | src/pdf_report_generator.py:758 | the gap does not depend on which score is larger |
| PdfReport.GapAssessment | src/pdf_report_generator.py:760 | minimal iff gap < 1, moderate iff 1 <= gap < 2, significant iff gap >= 2 |
| PdfReport.AlignmentWords | src/pdf_report_generator.py:629-636 | the alignment reads "effective" iff governance plus growth scores reach 12 |
| PdfReport.AlignmentVerdict | src/pdf_report_generator.py:629-636 | two scores of at least 6 give "effective", and "effective" implies strong governance or robust growth |
| PdfReport.SeverityCountsTotal | src/pdf_report_generator.py:793-795 | the High, Medium and Low counts add up to the number of flags iff every flag has one of those severities |
| PdfReport.SeverityCountsBound | src/pdf_report_generator.py:793-795 | the three counts never exceed the number of flags |
| PdfReport.ForensicSeverityCounts | src/forensic_analyzer.py:430-457 | every flag of an AI-built report is High or Medium, so the PDF severity counts (src/pdf_report_generator.py 793-795) account for every flag |
| PdfReport.CategoryTableRows | src/pdf_report_generator.py:469-480 | one table row per category score |
| PdfReport.BuildScoringTable | src/pdf_report_generator.py:467-488 | the appending method builds exactly the scoring table of the specification |
| PdfReport.ScoringTableEnds | src/pdf_report_generator.py:467-488 | the table is the header, one row per category and a final overall row rated on the overall scale |
| PdfReport.ScoringTableRow | src/pdf_report_generator.py:469-480 | row i+1 is category i in report order, with five cells, weighted cell score times weight to two decimals, and assessment by the score's band |
| PdfReport.ScoringTableAt | src/pdf_report_generator.py:469-480 | row i+1 of the table is the row built from category score i |
| PdfReport.CategoryTableRowCells | src/pdf_report_generator.py:473-479 | a category row has five cells: the name, the score, the weight, the weighted score and the assessment |
| ReportTypes.CategoryWeight | src/analyzer.py:126-134 | every category weight is positive and at most 0.20 |
| ReportTypes.AllCategories | src/analyzer.py:17-25 | there are seven categories with distinct names, whose weights (lines 126-134) sum to 1.0 |
| FinancialModel.NewFinancialData | src/data_fetcher.py:46-96 | a fresh record carries the given name, ticker and year count, with every series empty and every scalar at its default |
| Numbers.Clamp | src/analyzer.py:231 | `max(0, min(10, score))` lies in [0, 10], keeps an in-range score and pins an out-of-range one to the nearer end |
| Numbers.Round1 | src/analyzer.py:925 | `round(x, 1)` moves x by at most 0.05, keeps [0, 10], and keeps a value with one decimal |
| Dicts.Set | src/pdf_parser.py:193-195 | `d[k] = v` gives k the value v, keeps every other entry, keeps the key order of an existing key and appends a new key at the end |
| Dicts.UpdateSpec | src/pdf_parser.py:313-323 | after `d.update(e)` the keys are those of either, a key of e carries e's value and the other keys keep theirs |
| Dicts.FillWithSpec | src/data_fetcher.py:548-572 | a filled series holds exactly the old keys and the listed keys with a value; a listed key carries its value, any other key its old value |
| JsonModel.FloatOf | src/forensic_analyzer.py:370 | `float(v)` gives a number's value and a string's parse, and raises on null, lists and objects |
| JsonModel.GetOr | src/forensic_analyzer.py:363-364 | `v.get(key, default)` gives the key's value or the default on an object and raises otherwise |

## Left out

- Network access is not modelled: the Screener page requests, the FMP endpoints, yfinance `Ticker.info` and statements, the Yahoo and FMP company searches, and the direct FMP profile request. Each adapter, search and profile lookup is a function parameter returning an answer, an empty answer or a raised error.
- The per-adapter statement fetches are abstracted as the adapter's answer: `ScreenerInFetcher.fetch_data`, `FMPFetcher`, and Yahoo `_fetch_for_ticker` with its statement-to-series mapping. Only the candidate loop around `_fetch_for_ticker` is modelled.
- BeautifulSoup traversal is not modelled. A Screener table is given as its header labels and body rows of cell strings.
- Yahoo `search_company` and FMP `search_company` result shaping: the model starts from the list of matches each adapter returns.
- Language-model calls and prompt templates are abstracted (src/analyzer.py:1098-1221 and 1254-1389, src/forensic_analyzer.py:57-346, src/pdf_parser.py:60-131). The model's answer is an input, and only the truncation of the forensic prompt text is modelled.
- pdfplumber text extraction is not modelled (src/pdf_parser.py:30-58). The extracted text is an input.
- JSON decoding (`json.loads`) is not modelled; the parsed value is the input. The code-fence stripping before it in src/pdf_parser.py:134-138 is not modelled. The analyzer's fence stripping is modelled.
- The language-free summary fallback `_generate_basic_summary` of the AI-enhanced analyzer is not modelled. It only formats an f-string over the report.
- `_calculate_cagr` and `_check_consistency` of the AI-enhanced analyzer are not modelled. They need fractional powers and square roots of possibly negative averages. In the category scorers the CAGR is the uninterpreted parameter `env.cagr`.
- Formatted text is not modelled: the explanation strings of the scorers, `str(x)` and `repr` renderings, and the JSON serialisation of a report. They are function parameters (`env.explain`, `floatStr`, `toJson`). Fixed-point formats such as `f"{x:.2f}"` are modelled by `Numbers.FormatFixed`.
- Numbers.FormatFixed: rounds the exact decimal value half to even. Python formats the nearest binary double, so `f"{2.675:.2f}"` prints 2.67 although the decimal 2.675 is a tie that rounds to 2.68 here.
- Scoring.ScoreRevenueCagr: does not model the TypeError the source raises when the newest revenue is negative, the oldest positive, and there are three or more revenues. There the ratio is negative and `** (1/n)` yields a Python complex number, so `cagr > 20` raises out of `analyze`. The model scores that input through whatever `env.cagr` returns.
- Forensic.StringsOf: the model's key strengths are a list of strings. The source stores the answer's strengths value as it is. A truthy value that is not a list becomes an empty list here, and a non-string item becomes its `repr` text.
- Numbers.Round1: rounds the exact real value half to even. Python's `round(x, 1)` rounds the nearest binary float, which can differ from the exact real on a tie such as 0.15.
- Floating-point overflow, `nan` and `inf` are not modelled: numbers are exact reals.
- Python's `float()` on strings is a parameter `parse: string -> Option<real>`. The model does not fix which strings parse.
- Case mapping and whitespace stripping are ASCII-only: whitespace is space, tab, line feed, carriage return, vertical tab and form feed. Python's `upper`, `lower` and `strip` also cover other Unicode letters and spaces, and `strip` also removes the ASCII separators U+001C to U+001F, which the model keeps.
- JsonModel.TextOf: a JSON field that should be a string but is not reads as "". Python would keep the value, or raise when it is sliced or formatted.
- Exceptions are modelled only where the code catches them or names them: an adapter failure, a failed report in a merge, an unknown save format, text that is too short. Other exceptions and their message texts are not modelled.
- Updates in place are modelled by value. The ratio derivations of the Yahoo fetcher and the report parser, and the multi-report merge, return a new `FinancialData` record rather than mutating the caller's object, so aliasing of that object is not captured.
- The tickers of the Yahoo resolver and the validator, the multi-source detection set and the static company table are constants of the model, copied from the source.
- File writing in `save_report` is not modelled. The model states which content is written for each format.
- Console rendering with rich, reportlab page building, matplotlib charts and colours beyond the band names are not modelled.
- Timestamps from `datetime.now()` are not modelled; the analysis date is an input of the report builders.
- The Streamlit UI, the agent orchestration, PDF compression, the installer and the ad-hoc scripts are not part of this model.
- DataFetcher.FirstProfile: states only that an accepted profile name is non-empty and differs from the query. The extra rule is not in its contract: that the name must also differ from the bare symbol. That rule is in its definition and in the lemmas that use it.
- DataFetcher.OnlineAnswer: its contract states only that an accepted answer is non-empty and that there is none without an FMP key or Yahoo. The order of the steps is stated by `DataFetcher.SearchAnswerWins`, `DataFetcher.OfflineUsesStaticTable` and `DataFetcher.EchoIsOnlineAnswer`.
