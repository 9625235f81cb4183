/** The report vocabulary shared by the scoring engine, the forensic AI path
    and the two renderers. */
module ReportTypes {
  import opened Dicts
  import opened JsonModel

  /** The seven scoring categories, in report order. */
  datatype Category = Profitability | Growth | FinancialHealth | CashManagement
                    | CapitalEfficiency | QualityOfEarnings | Governance

  function CategoryName(c: Category): string
  {
    match c
    case Profitability => "Profitability & Margins"
    case Growth => "Growth & Revenue Stability"
    case FinancialHealth => "Financial Health & Leverage"
    case CashManagement => "Cash Flow Management"
    case CapitalEfficiency => "Capital Efficiency & Returns"
    case QualityOfEarnings => "Quality of Earnings"
    case Governance => "Management & Governance Indicators"
  }

  function CategoryWeight(c: Category): (w: real)
    ensures 0.0 < w <= 0.20
  {
    match c
    case Profitability => 0.20
    case Growth => 0.15
    case FinancialHealth => 0.20
    case CashManagement => 0.15
    case CapitalEfficiency => 0.15
    case QualityOfEarnings => 0.10
    case Governance => 0.05
  }

  /** The categories in the order every report lists them, with the weights
      summing to one. */
  function AllCategories(): (cs: seq<Category>)
    ensures |cs| == 7
    ensures forall i, j :: 0 <= i < j < |cs| ==> CategoryName(cs[i]) != CategoryName(cs[j])
    ensures CategoryWeight(cs[0]) + CategoryWeight(cs[1]) + CategoryWeight(cs[2]) + CategoryWeight(cs[3])
          + CategoryWeight(cs[4]) + CategoryWeight(cs[5]) + CategoryWeight(cs[6]) == 1.0
  {
    [Profitability, Growth, FinancialHealth, CashManagement, CapitalEfficiency, QualityOfEarnings, Governance]
  }

  datatype QualityScore = QualityScore(
    category: string,
    score: real,
    weight: real,
    strengths: seq<string>,
    concerns: seq<string>,
    explanation: string)

  /** A category's share of the composite: its score times its weight. */
  function Contribution(q: QualityScore): real { q.score * q.weight }

  datatype RedFlag = RedFlag(
    severity: string,
    category: string,
    description: string,
    impact: string,
    recommendation: string)

  /** The metrics a report carries: none, the analyzer's snapshot of
      headline metrics, or the four sections of a forensic answer. */
  datatype MetricsSummary =
    | NoMetrics
    | Snapshot(name: string, ticker: string, sector: string, industry: string, market_cap: real,
               pe_ratio: real, pb_ratio: real, dividend_yield: real,
               revenue_trend: Series, profit_trend: Series,
               operating_margin: Series, net_margin: Series,
               roe: Series, roce: Series, roa: Series,
               debt_to_equity: Series, operating_cf: Series, free_cf: Series)
    | ForensicSections(forensic_analysis: Json, earnings_quality: Json,
                       multi_year_trends: Json, execution_validation: Json)

  datatype QualityReport = QualityReport(
    company_name: string,
    ticker: string,
    analysis_date: string,
    years_analyzed: int,
    overall_score: real,
    category_scores: seq<QualityScore>,
    key_strengths: seq<string>,
    red_flags: seq<RedFlag>,
    executive_summary: string,
    investment_thesis: string,
    risk_assessment: string,
    metrics_summary: MetricsSummary)
}
