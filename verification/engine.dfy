/**
 The period recurrence engine: one projected year built from the previous
 year's record and the drivers (app.py:65-131). The steps run in the
 source's order: income statement, working capital and fixed assets,
 indirect-method cash flow, the cash "plug", and the balance check.
 */
module Engine {
  import opened Statements

  /** The income-statement lines of one projected year (app.py:71-87). */
  datatype Income = Income(
    revenue: real,
    cogs: real,
    grossProfit: real,
    opex: real,
    depreciation: real,
    ebit: real,
    pretax: real,
    taxes: real,
    netIncome: real)

  /** This year's revenue: last year's grown at the driver rate. */
  function NextRevenue(prev: Period, d: Drivers): real {
    prev.revenue * (1.0 + d.growth)
  }

  /** The income statement, first stage of a step. Depreciation is charged
      on the previous year's fixed assets; interest is fixed at zero, so
      pre-tax income equals EBIT; no branch depends on the sign of any
      amount, so a pre-tax loss yields a positive tax line (a benefit). */
  function IncomeLines(prev: Period, d: Drivers): Income {
    var revenue := NextRevenue(prev, d);
    var cogs := revenue * -d.cogsRatio;
    var grossProfit := revenue + cogs;
    var opex := revenue * -d.sgaRatio;
    var depreciation := prev.ppe * -d.depreciationRate;
    var ebit := grossProfit + opex + depreciation;
    var interest := 0.0;
    var pretax := ebit + interest;
    var taxes := pretax * -d.taxRate;
    Income(revenue, cogs, grossProfit, opex, depreciation, ebit, pretax, taxes, pretax + taxes)
  }

  /** Builds year `year` from the previous year's closing record: the income
      statement, then working capital and fixed assets, then the cash-flow
      statement, then the balance sheet whose cash line is set only from
      the cash-flow statement, then the balance check. */
  function Advance(prev: Period, d: Drivers, year: nat): (r: Period)
    ensures r.Projected? && r.Year() == year
    // the balance gap is carried over unchanged, and the stored check is it
    ensures Gap(r) == Gap(prev)
    ensures r.check == Gap(prev)
  {
    var inc := IncomeLines(prev, d);
    // working capital and fixed assets
    var receivables := inc.revenue * d.receivablesRatio;
    var inventory := inc.revenue * d.inventoryRatio;
    var payables := inc.revenue * d.payablesRatio;
    var capex := inc.revenue * d.capexRatio;
    var ppe := prev.ppe + capex + inc.depreciation;
    // cash flow statement, indirect method
    var deltaReceivables := receivables - prev.receivables;
    var deltaInventory := inventory - prev.inventory;
    var deltaPayables := payables - prev.payables;
    var cfo := inc.netIncome - inc.depreciation - deltaReceivables - deltaInventory + deltaPayables;
    var cfi := -capex;
    var cff := 0.0;
    var cashChange := cfo + cfi + cff;
    // the plug: only the cash-flow statement writes cash
    var cash := prev.cash + cashChange;
    var debt := prev.debt;
    var shareCapital := prev.shareCapital;
    var retainedEarnings := prev.retainedEarnings + inc.netIncome;
    // the balance check
    var totalAssets := cash + receivables + inventory + ppe;
    var totalLiabEquity := payables + debt + shareCapital + retainedEarnings;
    Projected(
      year := year,
      revenue := inc.revenue, cogs := inc.cogs, grossProfit := inc.grossProfit, opex := inc.opex,
      depreciation := inc.depreciation, ebit := inc.ebit, pretax := inc.pretax, taxes := inc.taxes,
      netIncome := inc.netIncome,
      receivables := receivables, inventory := inventory, payables := payables, ppe := ppe,
      cfo := cfo, cfi := cfi, cff := cff, cashChange := cashChange,
      cash := cash, debt := debt, shareCapital := shareCapital,
      retainedEarnings := retainedEarnings,
      totalAssets := totalAssets, totalLiabEquity := totalLiabEquity,
      check := totalAssets - totalLiabEquity)
  }

  /** Revenue grows from last year's at the driver rate. */
  predicate RevenueGrows(r: Period, prev: Period, d: Drivers) {
    r.revenue == prev.revenue * (1.0 + d.growth)
  }

  /** The income statement of `r` follows the drivers: cost and expense
      lines are minus ratios of this year's revenue, gross profit is revenue
      plus the (negative) cost of goods sold, depreciation is charged on
      last year's fixed assets, pre-tax income equals EBIT (no interest),
      and net income keeps the untaxed fraction of it. */
  predicate IncomeFollows(r: Period, prev: Period, d: Drivers) {
    && r.Projected?
    && r.cogs == -(r.revenue * d.cogsRatio)
    && r.grossProfit == r.revenue + r.cogs
    && r.grossProfit == r.revenue * (1.0 - d.cogsRatio)
    && r.opex == -(r.revenue * d.sgaRatio)
    && r.depreciation == -(prev.ppe * d.depreciationRate)
    && r.ebit == r.revenue * (1.0 - d.cogsRatio - d.sgaRatio) - prev.ppe * d.depreciationRate
    && r.pretax == r.ebit
    && r.taxes == -(r.pretax * d.taxRate)
    && r.netIncome == r.pretax * (1.0 - d.taxRate)
  }

  /** Working-capital lines are fresh ratios of this year's revenue. */
  predicate RatiosOf(r: Period, d: Drivers) {
    && r.receivables == r.revenue * d.receivablesRatio
    && r.inventory == r.revenue * d.inventoryRatio
    && r.payables == r.revenue * d.payablesRatio
  }

  /** Fixed-asset roll-forward: depreciation is minus last year's base times
      the rate, closing fixed assets add capital expenditure and that
      (negative) depreciation, investing cash flow is minus capital
      expenditure, and operating cash flow adds the depreciation back. */
  predicate RollsForward(r: Period, prev: Period, d: Drivers) {
    && r.Projected?
    && r.depreciation == -(prev.ppe * d.depreciationRate)
    && r.ppe == prev.ppe * (1.0 - d.depreciationRate) + r.revenue * d.capexRatio
    && r.cfi == -(r.revenue * d.capexRatio)
    && r.cfo == r.netIncome + prev.ppe * d.depreciationRate - (WorkingCapital(r) - WorkingCapital(prev))
  }

  /** The plug: financing cash flow is zero, the net change in cash is the
      sum of the cash-flow sections, closing cash is last year's plus that
      change, and the change reconciles to net income less the growth of net
      working capital and of net fixed assets. */
  predicate CashPlugged(r: Period, prev: Period) {
    && r.Projected?
    && r.cff == 0.0
    && r.cashChange == r.cfo + r.cfi
    && r.cash == prev.cash + r.cashChange
    && r.cashChange == r.netIncome - (WorkingCapital(r) - WorkingCapital(prev)) - (r.ppe - prev.ppe)
  }

  /** Retained earnings accumulate net income (no dividends), debt and share
      capital carry over, and the stored totals are the sums of the
      balance-sheet lines. */
  predicate EquityRolls(r: Period, prev: Period) {
    && r.Projected?
    && r.retainedEarnings == prev.retainedEarnings + r.netIncome
    && r.debt == prev.debt
    && r.shareCapital == prev.shareCapital
    && r.totalAssets == Assets(r)
    && r.totalLiabEquity == LiabilitiesAndEquity(r)
  }

  /** Revenue of the new year is last year's grown at the driver rate. */
  lemma RevenueGrowth(prev: Period, d: Drivers, year: nat)
    ensures RevenueGrows(Advance(prev, d, year), prev, d)
  {
  }

  /** The income statement of the new year follows the drivers. */
  lemma IncomeStatement(prev: Period, d: Drivers, year: nat)
    ensures IncomeFollows(Advance(prev, d, year), prev, d)
  {
    CogsLine(prev, d, year);
    GrossProfitLine(prev, d, year);
    OpexLine(prev, d, year);
    DepreciationLine(prev, d, year);
    EbitLine(prev, d, year);
    TaxLine(prev, d, year);
    NetIncomeLine(prev, d, year);
  }

  lemma CogsLine(prev: Period, d: Drivers, year: nat)
    ensures Advance(prev, d, year).cogs == -(Advance(prev, d, year).revenue * d.cogsRatio)
  {
  }

  lemma GrossProfitLine(prev: Period, d: Drivers, year: nat)
    ensures Advance(prev, d, year).grossProfit == Advance(prev, d, year).revenue + Advance(prev, d, year).cogs
    ensures Advance(prev, d, year).grossProfit == Advance(prev, d, year).revenue * (1.0 - d.cogsRatio)
  {
  }

  lemma OpexLine(prev: Period, d: Drivers, year: nat)
    ensures Advance(prev, d, year).opex == -(Advance(prev, d, year).revenue * d.sgaRatio)
  {
  }

  lemma EbitLine(prev: Period, d: Drivers, year: nat)
    ensures Advance(prev, d, year).ebit
         == Advance(prev, d, year).revenue * (1.0 - d.cogsRatio - d.sgaRatio) - prev.ppe * d.depreciationRate
  {
  }

  lemma TaxLine(prev: Period, d: Drivers, year: nat)
    ensures Advance(prev, d, year).taxes == -(Advance(prev, d, year).pretax * d.taxRate)
  {
  }

  lemma NetIncomeLine(prev: Period, d: Drivers, year: nat)
    ensures Advance(prev, d, year).netIncome == Advance(prev, d, year).pretax * (1.0 - d.taxRate)
  {
  }

  /** Working-capital lines are fresh ratios of this year's revenue; the
      previous year's balances enter only through their change. */
  lemma WorkingCapitalRatios(prev: Period, d: Drivers, year: nat)
    ensures RatiosOf(Advance(prev, d, year), d)
  {
    ReceivablesLine(prev, d, year);
    InventoryLine(prev, d, year);
    PayablesLine(prev, d, year);
  }

  lemma ReceivablesLine(prev: Period, d: Drivers, year: nat)
    ensures Advance(prev, d, year).receivables == Advance(prev, d, year).revenue * d.receivablesRatio
  {
  }

  lemma InventoryLine(prev: Period, d: Drivers, year: nat)
    ensures Advance(prev, d, year).inventory == Advance(prev, d, year).revenue * d.inventoryRatio
  {
  }

  lemma PayablesLine(prev: Period, d: Drivers, year: nat)
    ensures Advance(prev, d, year).payables == Advance(prev, d, year).revenue * d.payablesRatio
  {
  }

  /** Fixed assets roll forward on last year's base, and the depreciation
      add-back cancels the charge in operating cash flow. */
  lemma FixedAssetRollForward(prev: Period, d: Drivers, year: nat)
    ensures RollsForward(Advance(prev, d, year), prev, d)
  {
    DepreciationLine(prev, d, year);
    FixedAssetLine(prev, d, year);
    InvestingLine(prev, d, year);
    OperatingLine(prev, d, year);
  }

  lemma DepreciationLine(prev: Period, d: Drivers, year: nat)
    ensures Advance(prev, d, year).depreciation == -(prev.ppe * d.depreciationRate)
  {
    Distribute(prev.ppe, d.depreciationRate);
  }

  lemma FixedAssetLine(prev: Period, d: Drivers, year: nat)
    ensures Advance(prev, d, year).ppe
         == prev.ppe * (1.0 - d.depreciationRate) + Advance(prev, d, year).revenue * d.capexRatio
  {
    Distribute(prev.ppe, d.depreciationRate);
  }

  lemma InvestingLine(prev: Period, d: Drivers, year: nat)
    ensures Advance(prev, d, year).cfi == -(Advance(prev, d, year).revenue * d.capexRatio)
  {
  }

  lemma OperatingLine(prev: Period, d: Drivers, year: nat)
    ensures var r := Advance(prev, d, year);
      r.cfo == r.netIncome + prev.ppe * d.depreciationRate - (WorkingCapital(r) - WorkingCapital(prev))
  {
    Distribute(prev.ppe, d.depreciationRate);
  }

  /** Cash is set only by the cash-flow statement. */
  lemma CashPlug(prev: Period, d: Drivers, year: nat)
    ensures CashPlugged(Advance(prev, d, year), prev)
  {
  }

  /** Equity accumulates net income; debt and share capital carry over. */
  lemma EquityAndDebt(prev: Period, d: Drivers, year: nat)
    ensures EquityRolls(Advance(prev, d, year), prev)
  {
  }

  /** A pre-tax loss is never special-cased: in any year whose income
      statement follows the drivers, a positive tax rate turns a pre-tax
      loss into a positive tax line (a tax benefit), and a rate below one
      lets the loss survive into net income. */
  lemma LossGivesTaxBenefit(r: Period, prev: Period, d: Drivers)
    requires IncomeFollows(r, prev, d) && r.pretax < 0.0
    ensures 0.0 < d.taxRate ==> r.taxes > 0.0
    ensures d.taxRate < 1.0 ==> r.netIncome < 0.0
  {
    if 0.0 < d.taxRate {
      MulNegNeg(r.pretax, -d.taxRate);
      assert r.pretax * -d.taxRate == -(r.pretax * d.taxRate);
    }
    if d.taxRate < 1.0 {
      MulNegPos(r.pretax, 1.0 - d.taxRate);
    }
  }

  /** Under the widget ranges, net fixed assets that start non-negative stay
      non-negative: depreciation never removes more than last year's base,
      and capital expenditure is a non-negative share of a non-negative
      revenue. */
  lemma FixedAssetsStayNonNegative(r: Period, prev: Period, d: Drivers)
    requires RevenueGrows(r, prev, d) && RollsForward(r, prev, d)
    requires InWidgetRanges(d)
    requires 0.0 <= prev.revenue && 0.0 <= prev.ppe
    ensures 0.0 <= r.ppe && 0.0 <= r.revenue
  {
    MulNonNeg(prev.revenue, 1.0 + d.growth);
    MulNonNeg(prev.ppe, 1.0 - d.depreciationRate);
    MulNonNeg(r.revenue, d.capexRatio);
  }

  lemma Distribute(x: real, k: real)
    ensures x * -k == -(x * k)
    ensures x + x * -k == x * (1.0 - k)
  {
  }

  lemma MulNegNeg(x: real, y: real)
    requires x < 0.0 && y < 0.0
    ensures x * y > 0.0
  {}

  lemma MulNegPos(x: real, y: real)
    requires x < 0.0 && 0.0 < y
    ensures x * y < 0.0
  {}

  lemma MulNonNeg(x: real, y: real)
    requires 0.0 <= x && 0.0 <= y
    ensures 0.0 <= x * y
  {}

  lemma MulPos(x: real, y: real)
    requires 0.0 < x && 0.0 < y
    ensures 0.0 < x * y
  {}
}
