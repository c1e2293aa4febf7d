/**
 * The profitability projection: the volumes swept by `range(100, 10001, 500)`
 * and the profit predicted at each one with the current price, variable cost
 * and fixed cost.
 */
module Projection {
  import opened FinancialModel

  /** Python's `range(start, stop, step)` for a positive step, as a list:
      entry i is start + i * step, every entry is below stop, and the list
      stops at the first multiple of step that reaches stop. */
  function Range(start: int, stop: int, step: int): (r: seq<int>)
    requires step > 0
    ensures forall i :: 0 <= i < |r| ==> r[i] == start + i * step && r[i] < stop
    ensures |r| > 0 ==> start + (|r| - 1) * step < stop
    ensures start + |r| * step >= stop
    decreases stop - start
  {
    if start >= stop then [] else [start] + Range(start + step, stop, step)
  }

  const SweepStart: int := 100
  const SweepStop: int := 10001
  const SweepStep: int := 500

  /** The volumes of the projection: 20 of them, the i-th being 100 + 500 i. */
  function SweepVolumes(): (vs: seq<int>)
    ensures |vs| == 20
    ensures forall i :: 0 <= i < |vs| ==> vs[i] == 100 + 500 * i
  {
    Range(SweepStart, SweepStop, SweepStep)
  }

  /** The sweep has 20 volumes, 100, 600, ..., 9600, each 500 above the one
      before and all within the slider's range; the slider's maximum 10000
      is not among them, since 10100 already passes the stop 10001. */
  lemma SweepShape()
    ensures |SweepVolumes()| == 20
    ensures SweepVolumes()[0] == 100 && SweepVolumes()[19] == 9600
    ensures forall i :: 0 <= i < 19 ==> SweepVolumes()[i + 1] - SweepVolumes()[i] == 500
    ensures forall i :: 0 <= i < 20 ==> MinVolume <= SweepVolumes()[i] <= MaxVolume
    ensures MaxVolume !in SweepVolumes()
  {
  }

  /** A volume is swept exactly when it is 100 plus a multiple of 500, up
      to 9600. */
  lemma SweepMembership(v: int)
    ensures v in SweepVolumes() <==> 100 <= v <= 9600 && (v - 100) % 500 == 0
  {
    var vs := SweepVolumes();
    SweepShape();
    if v in vs {
      var i :| 0 <= i < |vs| && vs[i] == v;
      assert v == 100 + i * 500;
      assert (v - 100) % 500 == 0;
    }
    if 100 <= v <= 9600 && (v - 100) % 500 == 0 {
      var i := (v - 100) / 500;
      assert v == 100 + i * 500;
      assert vs[i] == v;
    }
  }

  /** The profit formula as the projection writes it, for one volume. */
  function ProjectedProfit(v: int, price: real, variableCost: real, fixedCost: int): (p: real)
    ensures p == v as real * (price - variableCost) - fixedCost as real
  {
    (v as real * price) - (fixedCost as real + (v as real * variableCost))
  }

  /** The projection's formula gives the same profit as the calculations
      block at the same volume. */
  lemma ProjectedProfitIsProfit(v: int, price: real, variableCost: real, fixedCost: int)
    ensures ProjectedProfit(v, price, variableCost, fixedCost) == Compute(Inputs(v, price, variableCost, fixedCost)).profit
  {
  }

  /** The difference in projected profit between two volumes is the
      difference in volume times the unit contribution margin. */
  lemma ProjectedProfitGap(u: int, v: int, price: real, variableCost: real, fixedCost: int)
    ensures ProjectedProfit(v, price, variableCost, fixedCost) - ProjectedProfit(u, price, variableCost, fixedCost)
      == (v - u) as real * (price - variableCost)
  {
  }

  /** The predicted-profit list built over a list of volumes: one profit per
      volume, each the profit the calculations block reports at that volume. */
  function Profits(volumes: seq<int>, price: real, variableCost: real, fixedCost: int): (ps: seq<real>)
    ensures |ps| == |volumes|
    ensures forall i :: 0 <= i < |ps| ==> ps[i] == Compute(Inputs(volumes[i], price, variableCost, fixedCost)).profit
  {
    seq(|volumes|, i requires 0 <= i < |volumes| => ProjectedProfit(volumes[i], price, variableCost, fixedCost))
  }

  /** The data behind the trend chart: the swept volumes and the predicted
      profit at each. */
  datatype Trend = Trend(volumes: seq<int>, profits: seq<real>)

  /** The projection for the current price and costs: the 20 swept
      volumes, each with the headline profit at that volume. */
  function Project(price: real, variableCost: real, fixedCost: int): (t: Trend)
    ensures |t.volumes| == |t.profits| == 20
    ensures t.volumes == SweepVolumes()
    ensures t.profits == Profits(t.volumes, price, variableCost, fixedCost)
  {
    Trend(SweepVolumes(), Profits(SweepVolumes(), price, variableCost, fixedCost))
  }

  /** When the chosen volume is one of the swept volumes, the trend passes
      through the headline profit at that volume. */
  lemma HeadlineOnTrend(inp: Inputs)
    requires inp.volume in SweepVolumes()
    ensures var t := Project(inp.price, inp.variableCost, inp.fixedCost);
      var i := (inp.volume - SweepStart) / SweepStep;
      && 0 <= i < |t.volumes|
      && t.volumes[i] == inp.volume
      && t.profits[i] == Compute(inp).profit
  {
    var vs := SweepVolumes();
    var t := Project(inp.price, inp.variableCost, inp.fixedCost);
    SweepIndex(inp.volume);
    assert t.volumes == vs;
    assert t.profits == Profits(vs, inp.price, inp.variableCost, inp.fixedCost);
  }

  /** A swept volume sits at index (volume - 100) / 500 of the sweep. */
  lemma SweepIndex(v: int)
    requires v in SweepVolumes()
    ensures 0 <= (v - SweepStart) / SweepStep < |SweepVolumes()|
    ensures SweepVolumes()[(v - SweepStart) / SweepStep] == v
  {
    SweepMembership(v);
    var i := (v - SweepStart) / SweepStep;
    assert v == 100 + 500 * i;
  }

  /** Between two entries of the profit list the profit changes by the
      volume difference times the unit contribution margin. */
  lemma ProfitsGap(volumes: seq<int>, price: real, variableCost: real, fixedCost: int, i: int, j: int)
    requires 0 <= i < |volumes| && 0 <= j < |volumes|
    ensures var ps := Profits(volumes, price, variableCost, fixedCost);
      ps[j] - ps[i] == (volumes[j] - volumes[i]) as real * (price - variableCost)
  {
    ProjectedProfitGap(volumes[i], volumes[j], price, variableCost, fixedCost);
  }

  /** Neighbouring points of the trend differ by exactly 500 units'
      contribution margin, 500 * (price - variable cost). */
  lemma TrendStep(price: real, variableCost: real, fixedCost: int, i: int)
    requires 0 <= i < 19
    ensures var t := Project(price, variableCost, fixedCost);
      t.profits[i + 1] - t.profits[i] == 500.0 * (price - variableCost)
  {
    var vs := SweepVolumes();
    var d := price - variableCost;
    assert vs[i + 1] - vs[i] == 500;
    ProfitsGap(vs, price, variableCost, fixedCost, i, i + 1);
    assert (vs[i + 1] - vs[i]) as real * d == 500.0 * d;
  }

  /** A sequence whose neighbours all differ by the same step. */
  predicate Arithmetic(ps: seq<real>, step: real)
  {
    forall k :: 0 <= k < |ps| - 1 ==> ps[k + 1] - ps[k] == step
  }

  /** In an arithmetic sequence two entries j - i apart differ by j - i
      steps. */
  lemma {:induction false} ArithmeticGap(ps: seq<real>, step: real, i: int, j: int)
    requires Arithmetic(ps, step)
    requires 0 <= i <= j < |ps|
    ensures ps[j] - ps[i] == (j - i) as real * step
    decreases j - i
  {
    if i < j {
      ArithmeticGap(ps, step, i, j - 1);
      assert ps[j] - ps[j - 1] == step;
      assert (j - i) as real * step == (j - 1 - i) as real * step + step;
    }
  }

  /** An arithmetic sequence with a non-negative step never falls. */
  lemma ArithmeticNonDecreasing(ps: seq<real>, step: real)
    requires Arithmetic(ps, step) && step >= 0.0
    ensures forall i, j :: 0 <= i <= j < |ps| ==> ps[i] <= ps[j]
  {
    forall i, j | 0 <= i <= j < |ps| ensures ps[i] <= ps[j] {
      ArithmeticGap(ps, step, i, j);
      ScaleMonotone((j - i) as real, step, 0.0);
    }
  }

  /** An arithmetic sequence with a negative step strictly falls. */
  lemma ArithmeticDecreasing(ps: seq<real>, step: real)
    requires Arithmetic(ps, step) && step < 0.0
    ensures forall i, j :: 0 <= i < j < |ps| ==> ps[i] > ps[j]
  {
    forall i, j | 0 <= i < j < |ps| ensures ps[i] > ps[j] {
      ArithmeticGap(ps, step, i, j);
      NegativeScale((j - i) as real, step);
    }
  }

  lemma NegativeScale(k: real, d: real)
    requires k > 0.0 && d < 0.0
    ensures k * d < 0.0
  {
  }

  /** The trend is an arithmetic sequence whose step is 500 units'
      contribution margin. */
  lemma TrendArithmetic(price: real, variableCost: real, fixedCost: int)
    ensures Arithmetic(Project(price, variableCost, fixedCost).profits, 500.0 * (price - variableCost))
  {
    forall k | 0 <= k < 19 {
      TrendStep(price, variableCost, fixedCost, k);
    }
  }

  /** When the price covers the variable cost the trend never falls. */
  lemma TrendNonDecreasing(price: real, variableCost: real, fixedCost: int)
    requires price >= variableCost
    ensures var t := Project(price, variableCost, fixedCost);
      forall i, j :: 0 <= i <= j < |t.profits| ==> t.profits[i] <= t.profits[j]
  {
    TrendArithmetic(price, variableCost, fixedCost);
    ArithmeticNonDecreasing(Project(price, variableCost, fixedCost).profits, 500.0 * (price - variableCost));
  }

  /** When the price is below the variable cost every extra unit loses
      money: the trend strictly falls. */
  lemma TrendDecreasing(price: real, variableCost: real, fixedCost: int)
    requires price < variableCost
    ensures var t := Project(price, variableCost, fixedCost);
      forall i, j :: 0 <= i < j < |t.profits| ==> t.profits[i] > t.profits[j]
  {
    TrendArithmetic(price, variableCost, fixedCost);
    ArithmeticDecreasing(Project(price, variableCost, fixedCost).profits, 500.0 * (price - variableCost));
  }
}
