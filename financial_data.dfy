/** The financial record one data adapter produces for one company: year
    series (most recent year first) and scalar facts. */
module FinancialModel {
  import opened Dicts

  datatype FinancialData = FinancialData(
    company_name: string,
    ticker: string,
    years_analyzed: int,
    // balance sheet
    total_assets: Series,
    total_liabilities: Series,
    shareholders_equity: Series,
    total_debt: Series,
    cash_and_equivalents: Series,
    // income statement
    revenue: Series,
    net_income: Series,
    operating_income: Series,
    gross_profit: Series,
    ebitda: Series,
    // cash flow
    operating_cash_flow: Series,
    free_cash_flow: Series,
    capex: Series,
    // ratios
    roe: Series,
    roa: Series,
    roce: Series,
    debt_to_equity: Series,
    current_ratio: Series,
    interest_coverage: Series,
    // quality metrics
    revenue_growth: Series,
    profit_growth: Series,
    operating_margin: Series,
    net_margin: Series,
    // scalars
    sector: string,
    industry: string,
    market_cap: real,
    pe_ratio: real,
    pb_ratio: real,
    dividend_yield: real,
    data_source: string,
    fetch_timestamp: string)

  /** A record as the dataclass constructor leaves it: every series empty,
      every scalar at its default. */
  function NewFinancialData(name: string, ticker: string, years: int): (d: FinancialData)
    ensures d.company_name == name && d.ticker == ticker && d.years_analyzed == years
    ensures d.revenue == [] && d.net_income == [] && d.operating_cash_flow == [] && d.debt_to_equity == []
    ensures d.sector == "" && d.dividend_yield == 0.0
  {
    FinancialData(name, ticker, years,
      [], [], [], [], [], [], [], [], [], [], [], [], [], [], [], [], [], [], [], [], [], [], [],
      "", "", 0.0, 0.0, 0.0, 0.0, "", "")
  }

  /** A fetch result the orchestrator accepts: some revenue or net income. */
  predicate IsUsable(d: FinancialData) { d.revenue != [] || d.net_income != [] }
}
