/**
 This module defines the records of the three-statement projection: the
 driver assumptions that hold for every projected year, and the period
 record that carries one year's income statement, balance sheet and cash
 flow statement.

 Sign convention (kept exactly as in app.py): cost of goods sold, operating
 expenses, depreciation and taxes are stored as NEGATIVE amounts, so every
 income line is obtained by adding the lines above it.
 */
module Statements {

  /** The nine scalar assumptions applied uniformly to every projected year
      (app.py:19-35). Each ratio is a fraction, not a percentage. */
  datatype Drivers = Drivers(
    growth: real,          // revenue growth per year
    cogsRatio: real,       // cost of goods sold, as a fraction of revenue
    sgaRatio: real,        // operating expenses (SG&A), as a fraction of revenue
    taxRate: real,         // tax rate on pre-tax income
    receivablesRatio: real,
    inventoryRatio: real,
    payablesRatio: real,
    capexRatio: real,      // capital expenditure, as a fraction of revenue
    depreciationRate: real // fraction of last year's net fixed assets written off
  )

  /** The ranges the six slider widgets allow (app.py:19-22, 34-35). The
      three working-capital ratios are unbounded number inputs
      (app.py:29-31), so they are not constrained here. The engine itself
      accepts any real drivers; this predicate is only used by the lemmas
      that need signs to be known. */
  predicate InWidgetRanges(d: Drivers) {
    && 0.0 <= d.growth <= 0.5
    && 0.1 <= d.cogsRatio <= 0.8
    && 0.05 <= d.sgaRatio <= 0.5
    && 0.0 <= d.taxRate <= 0.34
    && 0.0 <= d.capexRatio <= 0.2
    && 0.05 <= d.depreciationRate <= 0.2
  }

  /** One fiscal year. The historical year carries only the actuals the
      source seeds (app.py:39-54); a projected year carries every line the
      engine writes (app.py:68-129). Lines shared by both constructors have
      the same name and meaning. */
  datatype Period =
    | Historical(
        revenue: real,
        cogs: real,
        opex: real,
        depreciation: real,
        taxes: real,
        cash: real,
        receivables: real,
        inventory: real,
        ppe: real,               // net fixed assets
        payables: real,
        debt: real,
        shareCapital: real,
        retainedEarnings: real)
    | Projected(
        year: nat,
        // income statement
        revenue: real,
        cogs: real,
        grossProfit: real,
        opex: real,
        depreciation: real,
        ebit: real,
        pretax: real,
        taxes: real,
        netIncome: real,
        // working capital and fixed assets
        receivables: real,
        inventory: real,
        payables: real,
        ppe: real,
        // cash flow statement (indirect method)
        cfo: real,
        cfi: real,
        cff: real,
        cashChange: real,
        // closing balance sheet
        cash: real,
        debt: real,
        shareCapital: real,
        retainedEarnings: real,
        totalAssets: real,
        totalLiabEquity: real,
        check: real)
  {
    /** The year index: the historical seed is year 0 (app.py:62). */
    function Year(): nat {
      if Historical? then 0 else year
    }
  }

  /** Total assets, from the balance-sheet lines themselves. */
  function Assets(p: Period): real {
    p.cash + p.receivables + p.inventory + p.ppe
  }

  /** Total liabilities plus equity, from the balance-sheet lines themselves. */
  function LiabilitiesAndEquity(p: Period): real {
    p.payables + p.debt + p.shareCapital + p.retainedEarnings
  }

  /** Assets minus liabilities and equity: zero exactly when the balance
      sheet balances. */
  function Gap(p: Period): real {
    Assets(p) - LiabilitiesAndEquity(p)
  }

  predicate Balanced(p: Period) {
    Gap(p) == 0.0
  }

  /** Net working capital: receivables plus inventory minus payables. */
  function WorkingCapital(p: Period): real {
    p.receivables + p.inventory - p.payables
  }
}
