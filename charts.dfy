/**
 * The rows handed to the two charts beside each other: the bar chart
 * comparing revenue, total cost and profit, and the pie chart of the budget
 * breakdown. Only the data is modelled, not the rendering.
 */
module Charts {
  import opened FinancialModel

  /** One row of the bar chart's frame: a category and its amount. */
  datatype Bar = Bar(category: string, amount: real)

  /** One row of the pie chart's frame: a slice name and its value. */
  datatype Slice = Slice(name: string, value: real)

  /** Python's `max(a, b)` on two numbers: the second argument is returned
      only when it is strictly greater. */
  function PyMax(a: real, b: real): (r: real)
    ensures r >= a && r >= b
    ensures r == a || r == b
  {
    if b > a then b else a
  }

  /** The bar chart rows, in the order Revenue, Total Cost, Profit. The
      profit bar is the revenue bar less the cost bar, and keeps its sign. */
  function BarRows(inp: Inputs): (rows: seq<Bar>)
    ensures |rows| == 3
    ensures rows[0].category == "Revenue" && rows[1].category == "Total Cost" && rows[2].category == "Profit"
    ensures rows[0].amount == inp.volume as real * inp.price
    ensures rows[1].amount == inp.fixedCost as real + inp.volume as real * inp.variableCost
    ensures rows[2].amount == rows[0].amount - rows[1].amount
  {
    var f := Compute(inp);
    [Bar("Revenue", f.revenue), Bar("Total Cost", f.totalCost), Bar("Profit", f.profit)]
  }

  /** The pie chart slices, in the order Profit, Fixed Cost, Variable Cost.
      The profit slice is the profit floored at zero; the two cost slices
      are passed through and together make up the total cost. */
  function PieSlices(inp: Inputs): (slices: seq<Slice>)
    ensures |slices| == 3
    ensures slices[0].name == "Profit" && slices[1].name == "Fixed Cost" && slices[2].name == "Variable Cost"
    ensures slices[0].value >= 0.0 && slices[0].value >= Compute(inp).profit
    ensures slices[0].value == 0.0 || slices[0].value == Compute(inp).profit
    ensures slices[1].value == inp.fixedCost as real
    ensures slices[2].value == Compute(inp).totalVariableCost
    ensures slices[1].value + slices[2].value == Compute(inp).totalCost
  {
    var f := Compute(inp);
    [Slice("Profit", PyMax(0.0, f.profit)), Slice("Fixed Cost", inp.fixedCost as real), Slice("Variable Cost", f.totalVariableCost)]
  }

  function SliceTotal(slices: seq<Slice>): real
    requires |slices| == 3
  {
    slices[0].value + slices[1].value + slices[2].value
  }

  /** The pie's slices add up to the larger of revenue and total cost: to
      the revenue when the business makes a profit, to the total cost when
      it makes a loss. */
  lemma PieTotal(inp: Inputs)
    ensures var f := Compute(inp);
      && SliceTotal(PieSlices(inp)) == PyMax(f.revenue, f.totalCost)
      && (f.profit >= 0.0 ==> SliceTotal(PieSlices(inp)) == f.revenue)
      && (f.profit < 0.0 ==> SliceTotal(PieSlices(inp)) == f.totalCost)
  {
  }

  /** Within the widget bounds every slice is non-negative, as a pie chart
      needs, and the variable-cost slice is at least 100. */
  lemma PieSlicesNonNegative(inp: Inputs)
    requires InBounds(inp)
    ensures forall i :: 0 <= i < |PieSlices(inp)| ==> PieSlices(inp)[i].value >= 0.0
    ensures PieSlices(inp)[2].value >= 100.0
  {
    Bounds(inp);
  }

  /** On a loss the pie shows a zero profit slice while the bar chart keeps
      the negative profit: the two charts disagree on purpose. */
  lemma LossHiddenOnlyInPie(inp: Inputs)
    requires Compute(inp).profit < 0.0
    ensures PieSlices(inp)[0].value == 0.0
    ensures BarRows(inp)[2].amount == Compute(inp).profit < 0.0
  {
  }

  /** With a profit, both charts show the same profit value. */
  lemma ProfitAgreesWhenPositive(inp: Inputs)
    requires Compute(inp).profit >= 0.0
    ensures PieSlices(inp)[0].value == BarRows(inp)[2].amount
  {
  }
}
