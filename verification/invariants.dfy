/**
 Properties of the projection that hold in every year: the conservation of
 the balance identity, the cash plug, the fixed-asset and equity
 roll-forwards, and the compounding of revenue (app.py:65-131).

 They are stated for any chain `s` (each year the engine applied to the
 year before it), so they hold for the run from every seed by
 `RunIsChain`. Each `Step` lemma moves one group of the engine's identities
 from `Advance` to a position of the chain; the inductive lemmas chain them
 along the years.
 */
module Invariants {
  import opened Statements
  import opened Engine
  import opened Projection

  lemma StepGap(s: seq<Period>, d: Drivers, i: nat)
    requires Chain(s, d) && 1 <= i < |s|
    ensures Gap(s[i]) == Gap(s[i - 1])
    ensures s[i].Projected? && s[i].check == Gap(s[i - 1])
  {
    assert Follows(s, d, i);
  }

  lemma StepRevenue(s: seq<Period>, d: Drivers, i: nat)
    requires Chain(s, d) && 1 <= i < |s|
    ensures RevenueGrows(s[i], s[i - 1], d)
  {
    assert Follows(s, d, i);
    RevenueGrowth(s[i - 1], d, i);
  }

  lemma StepEquity(s: seq<Period>, d: Drivers, i: nat)
    requires Chain(s, d) && 1 <= i < |s|
    ensures EquityRolls(s[i], s[i - 1])
  {
    assert Follows(s, d, i);
    EquityAndDebt(s[i - 1], d, i);
  }

  lemma StepCash(s: seq<Period>, d: Drivers, i: nat)
    requires Chain(s, d) && 1 <= i < |s|
    ensures CashPlugged(s[i], s[i - 1])
  {
    assert Follows(s, d, i);
    CashPlug(s[i - 1], d, i);
  }

  lemma StepWorkingCapital(s: seq<Period>, d: Drivers, i: nat)
    requires Chain(s, d) && 1 <= i < |s|
    ensures RatiosOf(s[i], d)
  {
    assert Follows(s, d, i);
    WorkingCapitalRatios(s[i - 1], d, i);
  }

  lemma StepFixedAssets(s: seq<Period>, d: Drivers, i: nat)
    requires Chain(s, d) && 1 <= i < |s|
    ensures RollsForward(s[i], s[i - 1], d)
  {
    assert Follows(s, d, i);
    FixedAssetRollForward(s[i - 1], d, i);
  }

  /** Balance conservation: the gap between assets and liabilities plus
      equity is the first year's in every year, and so is every projected
      year's stored check. */
  lemma {:induction false} GapConserved(s: seq<Period>, d: Drivers, i: nat)
    requires Chain(s, d) && i < |s|
    ensures Gap(s[i]) == Gap(s[0])
    ensures i >= 1 ==> s[i].Projected? && s[i].check == Gap(s[0])
  {
    if i > 0 {
      GapConserved(s, d, i - 1);
      StepGap(s, d, i);
    }
  }

  /** A balanced seed gives a check of exactly zero in every projected year
      of the run, and Assets = Liabilities + Equity in every year. */
  lemma BalancedSeedStaysBalanced(seed: Period, d: Drivers, years: nat)
    requires Balanced(seed)
    ensures forall i :: 1 <= i <= years ==>
      Run(seed, d, years)[i].Projected? && Run(seed, d, years)[i].check == 0.0
    ensures forall i :: 0 <= i <= years ==> Balanced(Run(seed, d, years)[i])
  {
    var r := Run(seed, d, years);
    RunIsChain(seed, d, years);
    forall i | 0 <= i <= years
      ensures Balanced(r[i])
      ensures 1 <= i ==> r[i].Projected? && r[i].check == 0.0
    {
      GapConserved(r, d, i);
    }
  }

  /** `x` raised to the power `n`. */
  function Pow(x: real, n: nat): real
    decreases n
  {
    if n == 0 then 1.0 else x * Pow(x, n - 1)
  }

  /** Revenue compounds from the first year: year i is its revenue times
      (1+g)^i. */
  lemma {:induction false} RevenueClosedForm(s: seq<Period>, d: Drivers, i: nat)
    requires Chain(s, d) && i < |s|
    ensures s[i].revenue == s[0].revenue * Pow(1.0 + d.growth, i)
  {
    if i > 0 {
      RevenueClosedForm(s, d, i - 1);
      StepRevenue(s, d, i);
      Compound(s[0].revenue, 1.0 + d.growth, i, s[i - 1].revenue, s[i].revenue);
    }
  }

  /** One more period of compounding multiplies by one more factor. */
  lemma Compound(r0: real, x: real, n: nat, before: real, after: real)
    requires n >= 1
    requires before == r0 * Pow(x, n - 1) && after == before * x
    ensures after == r0 * Pow(x, n)
  {
    assert Pow(x, n) == x * Pow(x, n - 1);
  }

  /** Growth above -100% keeps a positive revenue positive in every year. */
  lemma {:induction false} RevenueStaysPositive(s: seq<Period>, d: Drivers, i: nat)
    requires Chain(s, d) && i < |s|
    requires d.growth > -1.0 && s[0].revenue > 0.0
    ensures s[i].revenue > 0.0
  {
    if i > 0 {
      RevenueStaysPositive(s, d, i - 1);
      StepRevenue(s, d, i);
      GrowthKeepsSign(s[i - 1].revenue, s[i].revenue, d.growth);
    }
  }

  /** One year's growth g > -1 keeps a positive amount positive, and g > 0
      makes it strictly larger. */
  lemma GrowthKeepsSign(before: real, after: real, g: real)
    requires before > 0.0 && g > -1.0 && after == before * (1.0 + g)
    ensures after > 0.0
    ensures g > 0.0 ==> after > before
  {
    MulPos(before, 1.0 + g);
    if g > 0.0 {
      MulPos(before, g);
    }
  }

  /** With positive growth and a positive seed revenue, revenue is strictly
      increasing from one year of the run to the next. */
  lemma RevenueStrictlyIncreasing(seed: Period, d: Drivers, years: nat)
    requires d.growth > 0.0 && seed.revenue > 0.0
    ensures forall i :: 0 <= i < years ==>
      Run(seed, d, years)[i].revenue < Run(seed, d, years)[i + 1].revenue
  {
    var r := Run(seed, d, years);
    RunIsChain(seed, d, years);
    forall i | 0 <= i < years
      ensures r[i].revenue < r[i + 1].revenue
    {
      RevenueStaysPositive(r, d, i);
      StepRevenue(r, d, i + 1);
      GrowthKeepsSign(r[i].revenue, r[i + 1].revenue, d.growth);
    }
  }

  /** Sum of net income over years 1..i of a chain. */
  function NetIncomeThrough(s: seq<Period>, d: Drivers, i: nat): real
    requires Chain(s, d) && i < |s|
    decreases i
  {
    if i == 0 then 0.0
    else
      assert Follows(s, d, i);
      NetIncomeThrough(s, d, i - 1) + s[i].netIncome
  }

  /** Equity and debt along the years: retained earnings are the first
      year's plus every later year's net income (no dividends), while debt
      and share capital never move. */
  lemma {:induction false} EquityAccumulates(s: seq<Period>, d: Drivers, i: nat)
    requires Chain(s, d) && i < |s|
    ensures s[i].retainedEarnings == s[0].retainedEarnings + NetIncomeThrough(s, d, i)
    ensures s[i].debt == s[0].debt
    ensures s[i].shareCapital == s[0].shareCapital
  {
    if i > 0 {
      EquityAccumulates(s, d, i - 1);
      StepEquity(s, d, i);
    }
  }

  /** Sum of the net change in cash over years 1..i of a chain. */
  function CashChangeThrough(s: seq<Period>, d: Drivers, i: nat): real
    requires Chain(s, d) && i < |s|
    decreases i
  {
    if i == 0 then 0.0
    else
      assert Follows(s, d, i);
      CashChangeThrough(s, d, i - 1) + s[i].cashChange
  }

  /** The plug along the years: closing cash is the first year's cash plus
      every later year's net change in cash, and nothing else. */
  lemma {:induction false} CashAccumulates(s: seq<Period>, d: Drivers, i: nat)
    requires Chain(s, d) && i < |s|
    ensures s[i].cash == s[0].cash + CashChangeThrough(s, d, i)
  {
    if i > 0 {
      CashAccumulates(s, d, i - 1);
      StepCash(s, d, i);
    }
  }

  /** With zero growth, revenue never moves from the first year's. */
  lemma {:induction false} ZeroGrowthRevenueFlat(s: seq<Period>, d: Drivers, i: nat)
    requires Chain(s, d) && i < |s|
    requires d.growth == 0.0
    ensures s[i].revenue == s[0].revenue
  {
    if i > 0 {
      ZeroGrowthRevenueFlat(s, d, i - 1);
      StepRevenue(s, d, i);
    }
  }

  /** With zero growth, from year 2 on the working-capital lines stop
      moving, so the net change in cash is just net income less the change
      in net fixed assets. */
  lemma ZeroGrowthSteadyState(s: seq<Period>, d: Drivers, i: nat)
    requires Chain(s, d) && 2 <= i < |s|
    requires d.growth == 0.0
    ensures WorkingCapital(s[i]) == WorkingCapital(s[i - 1])
    ensures s[i].Projected? && s[i].cashChange == s[i].netIncome - (s[i].ppe - s[i - 1].ppe)
  {
    ZeroGrowthRevenueFlat(s, d, i);
    ZeroGrowthRevenueFlat(s, d, i - 1);
    StepWorkingCapital(s, d, i - 1);
    StepWorkingCapital(s, d, i);
    StepCash(s, d, i);
  }

  /** Under the widget ranges, a first year with non-negative revenue and
      net fixed assets keeps both non-negative in every year. */
  lemma {:induction false} FixedAssetsNonNegative(s: seq<Period>, d: Drivers, i: nat)
    requires Chain(s, d) && i < |s|
    requires InWidgetRanges(d)
    requires 0.0 <= s[0].revenue && 0.0 <= s[0].ppe
    ensures 0.0 <= s[i].ppe && 0.0 <= s[i].revenue
  {
    if i > 0 {
      FixedAssetsNonNegative(s, d, i - 1);
      StepRevenue(s, d, i);
      StepFixedAssets(s, d, i);
      FixedAssetsStayNonNegative(s[i], s[i - 1], d);
    }
  }
}
