/**
 * The dashboard's financial model: the four sidebar inputs, the derived
 * revenue / cost / profit figures and the profit margin shown beside the
 * "Net Profit" metric. Python floats are modelled as exact reals.
 */
module FinancialModel {

  datatype Option<T> = None | Some(value: T)

  /** The four sidebar inputs. Volume and fixed cost are integers in the
      source; price and variable cost are floats. */
  datatype Inputs = Inputs(volume: int, price: real, variableCost: real, fixedCost: int)

  const MinVolume: int := 100
  const MaxVolume: int := 10000
  const MinPrice: real := 1.0
  const MinVariableCost: real := 1.0
  const MinFixedCost: int := 0

  /** The values the sidebar widgets start with. */
  const Defaults: Inputs := Inputs(1000, 50.0, 20.0, 5000)

  /** The range each sidebar widget enforces: the slider bounds volume on
      both sides, the number inputs only from below. */
  predicate InBounds(inp: Inputs): (b: bool)
    ensures b ==> inp.volume > 0 && inp.price > 0.0 && inp.variableCost > 0.0 && inp.fixedCost >= 0
  {
    && MinVolume <= inp.volume <= MaxVolume
    && inp.price >= MinPrice
    && inp.variableCost >= MinVariableCost
    && inp.fixedCost >= MinFixedCost
  }

  /** The four figures the script derives from the inputs. */
  datatype Financials = Financials(revenue: real, totalVariableCost: real, totalCost: real, profit: real)

  /** The calculations block: revenue, total variable cost, total cost and
      profit. The profit is volume times the unit contribution margin (price
      less variable cost), less the fixed cost. */
  function Compute(inp: Inputs): (f: Financials)
    ensures f.profit == inp.volume as real * (inp.price - inp.variableCost) - inp.fixedCost as real
  {
    var revenue := inp.volume as real * inp.price;
    var totalVariableCost := inp.volume as real * inp.variableCost;
    var totalCost := inp.fixedCost as real + totalVariableCost;
    var profit := revenue - totalCost;
    Financials(revenue, totalVariableCost, totalCost, profit)
  }

  /** Revenue is volume times price and total variable cost volume times
      unit variable cost; total cost is the fixed cost plus that variable
      cost, and profit is revenue less total cost; equivalently, profit is
      volume times the unit contribution margin (price less variable cost),
      less the fixed cost. */
  lemma Decomposition(inp: Inputs)
    ensures Compute(inp).revenue == inp.volume as real * inp.price
    ensures Compute(inp).totalVariableCost == inp.volume as real * inp.variableCost
    ensures Compute(inp).totalCost == inp.fixedCost as real + Compute(inp).totalVariableCost
    ensures Compute(inp).totalCost == inp.fixedCost as real + inp.volume as real * inp.variableCost
    ensures Compute(inp).profit == inp.volume as real * inp.price - (inp.fixedCost as real + inp.volume as real * inp.variableCost)
    ensures Compute(inp).profit == Compute(inp).revenue - Compute(inp).totalCost
    ensures Compute(inp).profit == inp.volume as real * (inp.price - inp.variableCost) - inp.fixedCost as real
  {
  }

  /** Within the widget bounds revenue and variable cost are at least 100,
      total cost at least the variable cost, and profit below revenue. */
  lemma Bounds(inp: Inputs)
    requires InBounds(inp)
    ensures Compute(inp).revenue >= 100.0
    ensures Compute(inp).totalVariableCost >= 100.0
    ensures Compute(inp).totalCost >= Compute(inp).totalVariableCost
    ensures Compute(inp).profit < Compute(inp).revenue
  {
    AtLeastHundred(inp.volume as real, inp.price);
    AtLeastHundred(inp.volume as real, inp.variableCost);
  }

  lemma AtLeastHundred(v: real, x: real)
    requires v >= 100.0 && x >= 1.0
    ensures v * x >= 100.0
  {
    ScaleMonotone(v, x, 1.0);
  }

  lemma ScaleMonotone(k: real, a: real, b: real)
    requires k >= 0.0 && a >= b
    ensures k * a >= k * b
  {
    assert k * a - k * b == k * (a - b);
  }

  /** The margin shown beside the profit metric, profit / revenue * 100.
      Python raises ZeroDivisionError on a zero revenue; that is None here. */
  function Margin(f: Financials): (m: Option<real>)
    ensures m.None? <==> f.revenue == 0.0
    ensures m.Some? ==> m.value * f.revenue == 100.0 * f.profit
  {
    if f.revenue == 0.0 then None else Some(f.profit / f.revenue * 100.0)
  }

  /** Within the widget bounds the margin division never fails. */
  lemma MarginDefined(inp: Inputs)
    requires InBounds(inp)
    ensures Margin(Compute(inp)).Some?
  {
    Bounds(inp);
  }

  /** Within the widget bounds the margin is below 100 and has the sign of
      the profit. */
  lemma MarginRange(inp: Inputs)
    requires InBounds(inp)
    ensures var m := Margin(Compute(inp));
      && m.Some?
      && m.value < 100.0
      && (m.value > 0.0 <==> Compute(inp).profit > 0.0)
      && (m.value == 0.0 <==> Compute(inp).profit == 0.0)
  {
    var f := Compute(inp);
    Bounds(inp);
    var m := Margin(f).value;
    assert m * f.revenue == 100.0 * f.profit;
    if m > 0.0 {
      assert m * f.revenue > 0.0;
    } else {
      assert m * f.revenue <= 0.0 by { ScaleMonotone(f.revenue, 0.0, m); }
    }
    if f.profit > 0.0 {
      assert m > 0.0;
    }
  }

  /** The default inputs: 1000 units at 50.0, unit cost 20.0, fixed 5000
      give revenue 50000, cost 25000, profit 25000 and a 50% margin. */
  lemma DefaultScenario()
    ensures InBounds(Defaults)
    ensures Compute(Defaults) == Financials(50000.0, 20000.0, 25000.0, 25000.0)
    ensures Margin(Compute(Defaults)) == Some(50.0)
  {
  }

  /** The lowest corner of the bounds breaks even with a 0% margin. */
  lemma BreakEvenScenario()
    ensures InBounds(Inputs(100, 1.0, 1.0, 0))
    ensures Compute(Inputs(100, 1.0, 1.0, 0)) == Financials(100.0, 100.0, 100.0, 0.0)
    ensures Margin(Compute(Inputs(100, 1.0, 1.0, 0))) == Some(0.0)
  {
  }

  /** A loss: 500 units at 10.0 with unit cost 15.0 and fixed 1000 lose
      3500, a -70% margin. */
  lemma LossScenario()
    ensures InBounds(Inputs(500, 10.0, 15.0, 1000))
    ensures Compute(Inputs(500, 10.0, 15.0, 1000)) == Financials(5000.0, 7500.0, 8500.0, -3500.0)
    ensures Margin(Compute(Inputs(500, 10.0, 15.0, 1000))) == Some(-70.0)
  {
  }
}
