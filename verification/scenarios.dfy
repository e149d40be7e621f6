/**
 The application's fixed historical year and its default drivers
 (app.py:19-54), and what the engine makes of them: the seed balances, the
 first projected year has figures a reader can check by hand, and every year
 of the five-year run balances exactly.

 The seed and the drivers are described by predicates on their fields
 rather than as constants, so that the figures are derived from the
 engine's identities one stage at a time.
 */
module Scenarios {
  import opened Statements
  import opened Engine
  import opened Projection
  import opened Invariants

  /** `p` is the hard-coded historical year 0 (app.py:39-54). */
  predicate AppSeed(p: Period) {
    && p.Historical?
    && p.revenue == 100000.0 && p.cogs == -40000.0 && p.opex == -20000.0
    && p.depreciation == -2000.0 && p.taxes == -10000.0
    && p.cash == 20000.0 && p.receivables == 10000.0 && p.inventory == 10000.0
    && p.ppe == 50000.0
    && p.payables == 8000.0 && p.debt == 20000.0 && p.shareCapital == 30000.0
    && p.retainedEarnings == 32000.0
  }

  /** `d` holds the widgets' default positions, each percentage divided by
      100 (app.py:19-35). */
  predicate DefaultDrivers(d: Drivers) {
    && d.growth == 0.10 && d.cogsRatio == 0.40 && d.sgaRatio == 0.20 && d.taxRate == 0.34
    && d.receivablesRatio == 0.10 && d.inventoryRatio == 0.10 && d.payablesRatio == 0.08
    && d.capexRatio == 0.05 && d.depreciationRate == 0.10
  }

  /** The source's fixed horizon (app.py:58). */
  const Horizon: nat := 5

  /** The seed balances: 90000 of assets against 90000 of liabilities and
      equity. */
  lemma SeedIsBalanced(p: Period)
    requires AppSeed(p)
    ensures Assets(p) == 90000.0
    ensures LiabilitiesAndEquity(p) == 90000.0
    ensures Balanced(p)
  {
  }

  /** The defaults lie inside the widget ranges. */
  lemma DefaultsInRanges(d: Drivers)
    requires DefaultDrivers(d)
    ensures InWidgetRanges(d)
  {
  }

  /** The income-statement figures of year 1 under the defaults, from the
      engine's identities alone. */
  lemma YearOneIncome(r: Period, prev: Period, d: Drivers)
    requires AppSeed(prev) && DefaultDrivers(d)
    requires RevenueGrows(r, prev, d) && IncomeFollows(r, prev, d)
    ensures r.revenue == 110000.0
    ensures r.cogs == -44000.0 && r.grossProfit == 66000.0
    ensures r.opex == -22000.0 && r.depreciation == -5000.0
    ensures r.ebit == 39000.0
    ensures r.taxes == -13260.0
    ensures r.netIncome == 25740.0
  {
  }

  /** Year 1 under the defaults: revenue 110000, cost of goods sold -44000,
      gross profit 66000, operating expenses -22000, depreciation -5000,
      EBIT 39000, taxes -13260, net income 25740, and a check of zero. */
  lemma DefaultYearOne(prev: Period, d: Drivers)
    requires AppSeed(prev) && DefaultDrivers(d)
    ensures Advance(prev, d, 1).Projected?
    ensures Advance(prev, d, 1).revenue == 110000.0
    ensures Advance(prev, d, 1).cogs == -44000.0
    ensures Advance(prev, d, 1).grossProfit == 66000.0
    ensures Advance(prev, d, 1).opex == -22000.0
    ensures Advance(prev, d, 1).depreciation == -5000.0
    ensures Advance(prev, d, 1).ebit == 39000.0
    ensures Advance(prev, d, 1).taxes == -13260.0
    ensures Advance(prev, d, 1).netIncome == 25740.0
    ensures Advance(prev, d, 1).check == 0.0
  {
    RevenueGrowth(prev, d, 1);
    IncomeStatement(prev, d, 1);
    YearOneIncome(Advance(prev, d, 1), prev, d);
  }

  /** Every year of the five-year run from the application's seed balances
      exactly, whatever the drivers. */
  lemma AppRunBalances(seed: Period, d: Drivers)
    requires AppSeed(seed)
    ensures forall i :: 1 <= i <= Horizon ==>
      Run(seed, d, Horizon)[i].Projected? && Run(seed, d, Horizon)[i].check == 0.0
  {
    SeedIsBalanced(seed);
    BalancedSeedStaysBalanced(seed, d, Horizon);
  }

  /** Year 5 revenue under the defaults is 100000 * 1.1^5 = 161051, in any
      projection from the application's seed. */
  lemma DefaultYearFiveRevenue(s: seq<Period>, d: Drivers)
    requires Chain(s, d) && Horizon < |s|
    requires AppSeed(s[0]) && DefaultDrivers(d)
    ensures s[Horizon].revenue == 161051.0
  {
    RevenueClosedForm(s, d, Horizon);
    assert Pow(1.1, 5) == 1.61051 by {
      assert Pow(1.1, 1) == 1.1;
      assert Pow(1.1, 2) == 1.21;
      assert Pow(1.1, 3) == 1.331;
      assert Pow(1.1, 4) == 1.4641;
    }
  }

  /** Costs above revenue: cost of goods at 80% and expenses at 50% of
      revenue, the other drivers at their defaults. */
  predicate LossDrivers(d: Drivers) {
    && d.growth == 0.10 && d.cogsRatio == 0.80 && d.sgaRatio == 0.50 && d.taxRate == 0.34
    && d.receivablesRatio == 0.10 && d.inventoryRatio == 0.10 && d.payablesRatio == 0.08
    && d.capexRatio == 0.05 && d.depreciationRate == 0.10
  }

  lemma YearOneLoss(r: Period, prev: Period, d: Drivers)
    requires AppSeed(prev) && LossDrivers(d)
    requires RevenueGrows(r, prev, d) && IncomeFollows(r, prev, d)
    ensures r.pretax == -38000.0
    ensures r.taxes == 12920.0
    ensures r.netIncome == -25080.0
  {
  }

  /** Year 1 with costs above revenue makes a pre-tax loss of 38000; the
      tax line is a benefit of 12920 and net income a loss of 25080, and
      the balance sheet still balances. */
  lemma LossScenario(prev: Period, d: Drivers)
    requires AppSeed(prev) && LossDrivers(d)
    ensures Advance(prev, d, 1).Projected?
    ensures Advance(prev, d, 1).pretax == -38000.0
    ensures Advance(prev, d, 1).taxes == 12920.0
    ensures Advance(prev, d, 1).netIncome == -25080.0
    ensures Advance(prev, d, 1).check == 0.0
  {
    RevenueGrowth(prev, d, 1);
    IncomeStatement(prev, d, 1);
    YearOneLoss(Advance(prev, d, 1), prev, d);
  }
}
