# Company Growth Predictor — financial model

The dashboard takes four sidebar inputs: units sold, unit price, unit variable cost and monthly fixed cost. From them it derives revenue, total variable cost, total cost and profit. It shows the profit margin beside the "Net Profit" metric. It draws three charts from these figures:

- a bar chart of Revenue, Total Cost and Profit;
- a pie chart of the budget: profit floored at zero, fixed cost, variable cost;
- a trend line of the predicted profit at volumes 100, 600, …, 9600.

This project models that arithmetic and the rows handed to each chart, and proves what the figures mean.

- `financial_model.dfy` (module `FinancialModel`): the inputs and their widget bounds, the calculations block, the margin, and three worked scenarios. Python floats are exact `real`s. Volume and fixed cost are integers, as the widgets produce them.
- `charts.dfy` (module `Charts`): the bar-chart rows and the pie-chart slices, including Python's `max(0, profit)`.
- `projection.dfy` (module `Projection`): Python's `range` for a positive step, the sweep `range(100, 10001, 500)`, and the predicted-profit list built over it.

Three facts about the code that the model keeps:

- The sweep has 20 points, 100 to 9600. The slider's maximum 10000 is not among them: 10100 is past the exclusive stop 10001 (`Projection.SweepShape`).
- The fixed cost is an integer. The widget's minimum 0 and default 5000 are both integers, so Streamlit returns an `int`.
- The margin division is not guarded. A zero revenue would raise `ZeroDivisionError`; `Margin` returns `None` for it, and `MarginDefined` proves that the widget bounds rule it out.

## Model

| member | source | states |
|---|---|---|
| `FinancialModel.InBounds` | fintech_app.py:15-18 | the widget bounds: volume in [100, 10000], price ≥ 1.0, variable cost ≥ 1.0, fixed cost ≥ 0; within them volume, price and variable cost are positive |
| `FinancialModel.Compute` | fintech_app.py:21-24 | the calculations block; its ensures gives profit as volume × (price − variable cost) − fixed cost (see also Decomposition and Bounds) |
| `FinancialModel.Decomposition` | fintech_app.py:21-24 | revenue = volume × price; total variable cost = volume × variable cost; total cost = fixed cost + total variable cost = fixed cost + volume × variable cost; profit = volume × price − that total = revenue − total cost = volume × (price − variable cost) − fixed cost |
| `FinancialModel.Bounds` | fintech_app.py:15-24 | within the widget bounds, revenue ≥ 100, total variable cost ≥ 100, total cost ≥ total variable cost, profit < revenue |
| `FinancialModel.Margin` | fintech_app.py:36 | the margin is undefined exactly when revenue is 0; otherwise margin × revenue = 100 × profit |
| `FinancialModel.MarginDefined` | fintech_app.py:15-36 | for every input within the widget bounds the margin division is defined |
| `FinancialModel.MarginRange` | fintech_app.py:36 | within the bounds the margin is below 100%, positive exactly when profit is positive, and zero exactly when profit is zero |
| `FinancialModel.DefaultScenario` | fintech_app.py:15-36 | the widget defaults (1000, 50.0, 20.0, 5000) are in bounds and give revenue 50000, variable cost 20000, total cost 25000, profit 25000, margin 50% |
| `FinancialModel.BreakEvenScenario` | fintech_app.py:15-36 | the lowest corner (100, 1.0, 1.0, 0) gives revenue = total cost = 100, profit 0, margin 0% |
| `FinancialModel.LossScenario` | fintech_app.py:15-36 | (500, 10.0, 15.0, 1000) gives revenue 5000, total cost 8500, profit −3500, margin −70% |
| `Charts.PyMax` | fintech_app.py:62 | Python's two-argument `max` returns one of its arguments and is at least both |
| `Charts.BarRows` | fintech_app.py:44-47 | three rows Revenue, Total Cost, Profit in that order; revenue = volume × price, cost = fixed + volume × variable cost, and the Profit amount is Revenue minus Total Cost, sign kept |
| `Charts.PieSlices` | fintech_app.py:60-63 | three slices Profit, Fixed Cost, Variable Cost; the profit slice is ≥ 0, ≥ profit, and either 0 or the profit; the fixed-cost slice is the fixed cost and the variable-cost slice the total variable cost, passed through unchanged; the two cost slices sum to total cost |
| `Charts.PieTotal` | fintech_app.py:62 | the slices sum to the larger of revenue and total cost: to revenue when profit ≥ 0, to total cost on a loss |
| `Charts.PieSlicesNonNegative` | fintech_app.py:62 | within the bounds every slice is non-negative and the variable-cost slice is at least 100 |
| `Charts.LossHiddenOnlyInPie` | fintech_app.py:44-62 | on a loss the pie's profit slice is 0 while the bar chart's Profit row keeps the negative profit |
| `Charts.ProfitAgreesWhenPositive` | fintech_app.py:44-62 | with a profit ≥ 0, the pie's profit slice equals the bar chart's Profit row |
| `Projection.Range` | fintech_app.py:69 | entry i of `range(start, stop, step)` is start + i × step and below stop; the list ends at the first entry that would reach stop |
| `Projection.SweepVolumes` | fintech_app.py:69 | the swept volumes: 20 of them, the i-th being 100 + 500 × i |
| `Projection.SweepShape` | fintech_app.py:69 | the sweep has 20 volumes; the first is 100 and the last 9600; neighbours differ by 500; all lie in [100, 10000]; 10000 is not among them |
| `Projection.SweepMembership` | fintech_app.py:69 | a volume is swept if and only if it is 100 plus a multiple of 500 and at most 9600 |
| `Projection.SweepIndex` | fintech_app.py:69 | a swept volume sits at index (volume − 100) / 500 of the sweep |
| `Projection.ProjectedProfit` | fintech_app.py:70 | the per-volume formula of the projection; its value is volume × (price − variable cost) − fixed cost |
| `Projection.ProjectedProfitIsProfit` | fintech_app.py:70 | the projection's profit formula gives the same value as the calculations block at the same volume |
| `Projection.ProjectedProfitGap` | fintech_app.py:70 | the projected profits at two volumes differ by the volume difference × (price − variable cost) |
| `Projection.Profits` | fintech_app.py:70 | the profit list has one entry per volume, and entry i is the headline profit computed at volume i with the same price and costs |
| `Projection.ProfitsGap` | fintech_app.py:70 | two entries of the profit list differ by their volume difference × (price − variable cost) |
| `Projection.Project` | fintech_app.py:69-70 | the trend's volumes are the sweep and its profits are the profit list over them, 20 of each |
| `Projection.HeadlineOnTrend` | fintech_app.py:69-70 | when the chosen volume is swept, the trend point at index (volume − 100) / 500 has that volume and the headline profit |
| `Projection.TrendStep` | fintech_app.py:69-70 | neighbouring trend profits differ by exactly 500 × (price − variable cost) |
| `Projection.TrendArithmetic` | fintech_app.py:69-70 | the trend profits form an arithmetic sequence with step 500 × (price − variable cost) |
| `Projection.TrendNonDecreasing` | fintech_app.py:69-70 | when price ≥ variable cost, the trend never falls |
| `Projection.TrendDecreasing` | fintech_app.py:69-70 | when price < variable cost, the trend strictly falls |

## Left out

- Page setup, title, sidebar, columns, metrics, divider and subheaders (fintech_app.py:6-18, 27-38, 41, 49, 68). These are Streamlit calls. Only the widget bounds are kept, as the predicate `InBounds`.
- The widgets' own clamping of out-of-range entries. Streamlit does it, outside this code.
- The pandas DataFrames and Plotly charts: colours, titles, hole size, rendering (fintech_app.py:44, 53-56, 60, 64-65, 71-74). Only the rows passed to them are modelled.
- Number formatting: thousands separators and the one-decimal margin (fintech_app.py:30, 33, 36).
- IEEE-754 rounding. Every figure is an exact real, so no float-exact equality is claimed. Several properties hold only for exact reals. For example, `profit < revenue` in `Bounds` and `margin < 100` in `MarginRange` fail in floats: volume 100, price 1e17, variable cost 1.0 and fixed cost 0 give a float profit equal to the revenue, so the margin is exactly 100.0. The trend lemmas `TrendStep`, `TrendArithmetic`, `TrendNonDecreasing` and `TrendDecreasing` fail in floats too: with price = variable cost = 990000000000.5 and fixed cost 1, the products pass 2^53, `fixed_cost + v * variable_cost` rounds, and the profits at volumes 8600, 9100 and 9600 come out as −1.0, −2.0 and 0.0 rather than a constant −1.0.
- `Charts.PyMax`: `max(0, profit)` returns the integer `0` rather than a float when profit is not positive. The model does not distinguish the two types; the value is the same.
- `Projection.Range`: only a positive step is modelled. The source only calls `range` with step 500; Python rejects a zero step, and a negative step counts down.
- Idempotence of the computation needs no lemma: Dafny functions are deterministic.
