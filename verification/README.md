# Three-statement projection engine in Dafny

This project models the calculation core of a small three-statement
financial model (`app.py`). A historical year 0 of actuals seeds a loop. The
loop builds each projected year from the year before it and nine driver
ratios, in a fixed order:

1. the income statement (revenue growth, cost of goods sold, operating
   expenses, depreciation on last year's fixed assets, EBIT, taxes, net
   income);
2. working capital and the fixed-asset roll-forward;
3. the indirect-method cash-flow statement;
4. the balance-sheet "plug", where cash is set only by the cash-flow
   statement;
5. the balance check, assets minus liabilities plus equity.

Amounts are Dafny `real`s, so every identity is proved exactly rather than
within a float tolerance. The sign convention of the source is kept: cost of
goods sold, operating expenses, depreciation and taxes are stored as
negative amounts.

Modules, in the order of the program:

- `Statements` (`statements.dfy`): the `Drivers` record and the `Period`
  record. `Period` has a `Historical` constructor for the seed and a
  `Projected` constructor for the years the loop writes. The module also
  defines the balance-sheet totals and the balance gap.
- `Engine` (`engine.dfy`): `Advance`, one step of the loop. It also groups
  the step's identities into predicates (`IncomeFollows`, `RatiosOf`,
  `RollsForward`, `CashPlugged`, `EquityRolls`) and proves each of them of
  `Advance`.
- `Projection` (`projection.dfy`): `Run`, the fold as a recursive function,
  and `Project`, the source's loop over a growing list, proved equal to
  `Run`. A `Chain` is any list in which each year is `Advance` of the year
  before. The run is proved to be the only chain from its seed.
- `Invariants` (`invariants.dfy`): properties along a whole chain. These
  are balance conservation, the closed form of revenue, and the
  accumulation of retained earnings and of cash.
- `Scenarios` (`scenarios.dfy`): the application's hard-coded seed and
  default drivers, and the figures the engine derives from them.

The historical year 0 is the `Historical` constructor. It has no year
field: the `Ano` key the source adds to it (app.py:62) is modelled by the
`Year()` accessor, which gives 0 for it. `LossDrivers` fixes cost of goods
sold at 80% and operating expenses at 50% of revenue, with the other
drivers at their defaults.

The drivers, which the application reads from input widgets, are
parameters. The source's horizon of five years is a parameter of `Run` and
`Project`. The fixed five-year run appears in `Scenarios.AppRunBalances`
and `Scenarios.DefaultYearFiveRevenue`.

## Model

| member | source | states |
|---|---|---|
| `Engine.Advance` | app.py:66-129 | A step produces a projected record carrying the loop's year index. The gap between assets and liabilities plus equity is carried over unchanged from the previous year. The stored check equals the previous year's gap. |
| `Engine.RevenueGrowth` | app.py:71 | This year's revenue is last year's times (1 + growth). |
| `Engine.IncomeStatement` | app.py:72-87 | Cost of goods sold is minus revenue times the COGS ratio. Gross profit is revenue plus that negative line, that is revenue times (1 − COGS ratio). Operating expenses are minus revenue times the SG&A ratio. Depreciation is minus last year's fixed assets times the rate. EBIT is revenue times (1 − COGS − SG&A) minus last year's fixed assets times the depreciation rate. Pre-tax income equals EBIT, because interest is zero. Taxes are minus pre-tax income times the rate. Net income is pre-tax income times (1 − tax rate). |
| `Engine.WorkingCapitalRatios` | app.py:90-92 | Receivables, inventory and payables are fresh ratios of this year's revenue, with nothing carried over from last year's balances. |
| `Engine.FixedAssetRollForward` | app.py:78-106 | Depreciation is minus last year's fixed assets times the rate. Closing fixed assets are last year's times (1 − rate) plus capex, where capex is revenue times the capex ratio. Investing cash flow is minus capex. Operating cash flow is net income plus the depreciation charge minus the growth of net working capital, so the add-back cancels the negative depreciation line. |
| `Engine.CashPlug` | app.py:109-119 | Financing cash flow is zero. The change in cash is operating plus investing cash flow. Closing cash is last year's cash plus that change and nothing else. The change reconciles to net income minus the growth of net working capital and of net fixed assets. |
| `Engine.EquityAndDebt` | app.py:122-128 | Retained earnings are last year's plus this year's net income. Debt and share capital are copied unchanged. The stored totals are the sums of the balance-sheet lines. |
| `Engine.LossGivesTaxBenefit` | app.py:84-87 | For any income statement that follows the drivers, a pre-tax loss with a positive tax rate gives a positive tax line (a benefit). With a tax rate below one, the loss remains a negative net income. There is no special case. |
| `Engine.FixedAssetsStayNonNegative` | app.py:94-96 | Under the slider ranges (the working-capital ratios may be anything), a year whose predecessor has non-negative revenue and fixed assets also has non-negative revenue and fixed assets. |
| `Projection.Run` | app.py:57-65 | The run has one record per year from 0 to the horizon, and record 0 is the seed unchanged. A horizon of 0 returns only the seed. |
| `Projection.Project` | app.py:57-131 | The loop, which appends `Advance` of the last record once per year, returns exactly `Run` for the same seed, drivers and horizon. |
| `Projection.RunIsChain` | app.py:65-131 | In the run, every record after the seed is `Advance` of the record before it, with the loop index as its year. |
| `Projection.ChainYears` | app.py:65-68 | In any chain, record i is a projected record whose year is i. |
| `Projection.ChainPrefix` | app.py:65-131 | Every prefix of a chain is a chain. |
| `Projection.RunIsDetermined` | app.py:57-131 | Any chain that starts at the seed equals the run of its length. The projection is therefore fully determined by seed and drivers. |
| `Projection.ChainsAgree` | app.py:65-131 | Two chains with the same first record agree at every index both reach. |
| `Projection.RunPrefixStable` | app.py:58-65 | Lengthening the horizon leaves every earlier year of the run unchanged. |
| `Invariants.GapConserved` | app.py:101-129 | In every year of a chain, the balance gap equals the first year's gap. Every projected year's stored check equals that gap. |
| `Invariants.BalancedSeedStaysBalanced` | app.py:126-129 | If the seed balances, every projected year of the run has a check of exactly 0, and assets equal liabilities plus equity in every year. |
| `Invariants.RevenueClosedForm` | app.py:71 | Revenue in year i of a chain is year-0 revenue times (1 + g)^i. |
| `Invariants.RevenueStaysPositive` | app.py:71 | With growth above −100% and positive seed revenue, revenue is positive in every year. |
| `Invariants.RevenueStrictlyIncreasing` | app.py:71 | With positive growth and positive seed revenue, each year's revenue in the run is strictly larger than the year before. |
| `Invariants.EquityAccumulates` | app.py:122-124 | Retained earnings in year i are year-0 retained earnings plus the sum of net income over years 1..i. Debt and share capital never move. |
| `Invariants.CashAccumulates` | app.py:115-119 | Cash in year i is year-0 cash plus the sum of the changes in cash over years 1..i. |
| `Invariants.ZeroGrowthRevenueFlat` | app.py:71 | With zero growth, revenue stays at its year-0 value. |
| `Invariants.ZeroGrowthSteadyState` | app.py:90-119 | With zero growth, from year 2 on net working capital stops moving. The change in cash is then net income minus the change in net fixed assets. |
| `Invariants.FixedAssetsNonNegative` | app.py:94-96 | Under the slider ranges (the working-capital ratios may be anything), non-negative year-0 revenue and fixed assets stay non-negative in every year. |
| `Scenarios.SeedIsBalanced` | app.py:39-54 | The hard-coded year 0 has 90000 of assets and 90000 of liabilities plus equity, so it balances. |
| `Scenarios.DefaultsInRanges` | app.py:19-35 | The default driver values lie inside the slider ranges. |
| `Scenarios.YearOneIncome` | app.py:71-87 | For the hard-coded seed and default drivers, any year whose revenue and income statement follow the drivers has revenue 110000, cost of goods sold −44000, gross profit 66000, operating expenses −22000, depreciation −5000, EBIT 39000, taxes −13260 and net income 25740. |
| `Scenarios.DefaultYearOne` | app.py:39-87 | `Advance` of the hard-coded seed under the defaults gives revenue 110000, cost of goods sold −44000, gross profit 66000, operating expenses −22000, depreciation −5000, EBIT 39000, taxes −13260, net income 25740, and a check of 0. |
| `Scenarios.AppRunBalances` | app.py:39-65 | For any drivers, every year 1..5 of the application's five-year run from its seed has a check of exactly 0. |
| `Scenarios.DefaultYearFiveRevenue` | app.py:58-71 | Under the defaults, year-5 revenue from the hard-coded seed is 100000 × 1.1^5 = 161051. |
| `Scenarios.YearOneLoss` | app.py:71-87 | With COGS at 80% and SG&A at 50% of revenue, the first year has pre-tax income −38000, taxes +12920 (a benefit) and net income −25080. |
| `Scenarios.LossScenario` | app.py:39-129 | `Advance` of the hard-coded seed under those loss-making drivers gives the figures above and a check of 0. |

## Left out

- Page setup and sidebar widgets (app.py:1-35): these are user input. The
  nine drivers are parameters of the model. The ranges of the six sliders
  appear only as the optional predicate `InWidgetRanges`, which the sign
  lemmas use. The three working-capital ratios are unbounded number inputs
  (app.py:29-31) and are not constrained.
- DataFrame construction, tabs, styling and charts (app.py:133-172): these
  are presentation only.
- The display-time tolerance test, the sum of |check| below 1.0
  (app.py:154): the model proves exact equality over reals instead.
- IEEE-754 floating point: all amounts are exact reals. This drops
  rounding, NaN and infinity, and the rounding of the driver percentages
  divided by 100. Under floats the check is only approximately zero.
- Zero growth is not a fixed point of the engine: cash still moves with
  capex, depreciation and the year-1 working-capital reset.
  `ZeroGrowthRevenueFlat`, `ZeroGrowthSteadyState` and `EquityAccumulates`
  state what does hold.
