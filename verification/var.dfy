/**
 The `VaR` model: two validated market-rate series and two position sizes,
 and the one-day historical-simulation Value-at-Risk derived from them.
 Rates are most recent first; each pair of consecutive days gives one
 profit-and-loss scenario per currency.
 */
module HistoricalVar {
  import opened Values
  import opened Sorting

  /** An instance of the model: every attribute has passed its setter. */
  datatype VarModel = VarModel(marketRate1: seq<real>, marketRate2: seq<real>, s1: real, s2: real)

  datatype RateAttribute = Rate1 | Rate2
  datatype PositionAttribute = S1 | S2

  function RateField(a: RateAttribute): Field {
    match a
    case Rate1 => MarketRate1
    case Rate2 => MarketRate2
  }

  function PositionField(a: PositionAttribute): Field {
    match a
    case S1 => Position1
    case S2 => Position2
  }

  function RatesOf(v: VarModel, a: RateAttribute): seq<real> {
    match a
    case Rate1 => v.marketRate1
    case Rate2 => v.marketRate2
  }

  function PositionOf(v: VarModel, a: PositionAttribute): real {
    match a
    case S1 => v.s1
    case S2 => v.s2
  }

  /** `isinstance(value, np.ndarray)`, with the rates it holds. */
  function CheckRates(field: Field, value: Value): (r: Result<seq<real>, ValueError>)
    ensures r.Ok? <==> value.Array?
    ensures r.Ok? ==> r.value == value.elements
    ensures r.Err? ==> r.error == ValueError(field, NotAnArray)
  {
    match value
    case Array(xs) => Ok(xs)
    case _ => Err(ValueError(field, NotAnArray))
  }

  /**
   Assigning `market_rate_1` or `market_rate_2`: a numpy array replaces
   exactly that series; anything else, a plain list included, raises and
   the instance keeps all its values.
   */
  function SetRates(v: VarModel, a: RateAttribute, value: Value): (r: Result<VarModel, ValueError>)
    ensures r.Ok? <==> value.Array?
    ensures r.Ok? ==> RatesOf(r.value, a) == value.elements
    ensures r.Ok? ==> forall b :: b != a ==> RatesOf(r.value, b) == RatesOf(v, b)
    ensures r.Ok? ==> forall b :: PositionOf(r.value, b) == PositionOf(v, b)
    ensures r.Err? ==> r.error == ValueError(RateField(a), NotAnArray)
  {
    var xs :- CheckRates(RateField(a), value);
    match a
    case Rate1 => Ok(v.(marketRate1 := xs))
    case Rate2 => Ok(v.(marketRate2 := xs))
  }

  /**
   Assigning `S1` or `S2`: an `int` or `float` replaces exactly that
   position; anything else raises and the instance keeps all its values.
   */
  function SetPosition(v: VarModel, a: PositionAttribute, value: Value): (r: Result<VarModel, ValueError>)
    ensures r.Ok? <==> IsNumber(value)
    ensures r.Ok? ==> AsNumber(value) == Some(PositionOf(r.value, a))
    ensures r.Ok? ==> forall b :: b != a ==> PositionOf(r.value, b) == PositionOf(v, b)
    ensures r.Ok? ==> forall b :: RatesOf(r.value, b) == RatesOf(v, b)
    ensures r.Err? ==> r.error == ValueError(PositionField(a), NotANumber)
  {
    var x :- CheckNumber(PositionField(a), value);
    match a
    case S1 => Ok(v.(s1 := x))
    case S2 => Ok(v.(s2 := x))
  }

  /**
   The constructor: the setters run in the order market_rate_1,
   market_rate_2, S1, S2, and the first one that raises decides the error.
   */
  function New(rates1: Value, rates2: Value, s1: Value, s2: Value): (r: Result<VarModel, ValueError>)
    ensures r.Ok? <==> rates1.Array? && rates2.Array? && IsNumber(s1) && IsNumber(s2)
    ensures r.Ok? ==>
      && r.value.marketRate1 == rates1.elements
      && r.value.marketRate2 == rates2.elements
      && AsNumber(s1) == Some(r.value.s1)
      && AsNumber(s2) == Some(r.value.s2)
    ensures !rates1.Array? ==> r == Err(ValueError(MarketRate1, NotAnArray))
    ensures rates1.Array? && !rates2.Array? ==> r == Err(ValueError(MarketRate2, NotAnArray))
    ensures rates1.Array? && rates2.Array? && !IsNumber(s1) ==> r == Err(ValueError(Position1, NotANumber))
    ensures rates1.Array? && rates2.Array? && IsNumber(s1) && !IsNumber(s2) ==>
      r == Err(ValueError(Position2, NotANumber))
  {
    var m1 :- CheckRates(MarketRate1, rates1);
    var m2 :- CheckRates(MarketRate2, rates2);
    var x1 :- CheckNumber(Position1, s1);
    var x2 :- CheckNumber(Position2, s2);
    Ok(VarModel(m1, m2, x1, x2))
  }

  // ----- Scenarios -----

  /** Every rate that some scenario divides by is nonzero. */
  predicate NonzeroDivisors(rates: seq<real>) {
    forall i :: 1 <= i < |rates| ==> rates[i] != 0.0
  }

  /**
   One scenario: the position S scaled by the return between a day's rate
   and the previous day's, computed as exp(log(today / previous)) - 1.
   */
  function ScenarioPnl(m: Math, s: real, today: real, previous: real): (r: real)
    requires previous != 0.0
    ensures ExpUndoesLog(m) && today > 0.0 && previous > 0.0 ==> r == SimpleReturnPnl(s, today, previous)
  {
    assert today > 0.0 && previous > 0.0 ==> today / previous > 0.0;
    (m.exp(m.log(today / previous)) - 1.0) * s
  }

  /**
   `pnl_vector`: one scenario for each pair of consecutive days, the most
   recent pair first. An empty or one-day series gives no scenario.
   */
  function PnlVector(m: Math, s: real, rates: seq<real>): (r: seq<real>)
    requires NonzeroDivisors(rates)
    ensures |r| == if |rates| == 0 then 0 else |rates| - 1
    ensures forall i :: 0 <= i < |r| ==> r[i] == ScenarioPnl(m, s, rates[i], rates[i + 1])
  {
    if |rates| == 0 then []
    else seq(|rates| - 1, i requires 0 <= i < |rates| - 1 => ScenarioPnl(m, s, rates[i], rates[i + 1]))
  }

  /** exp undoes log on the positive reals. */
  ghost predicate ExpUndoesLog(m: Math) {
    forall x: real :: 0.0 < x ==> m.exp(m.log(x)) == x
  }

  predicate Positive(rates: seq<real>) {
    forall i :: 0 <= i < |rates| ==> rates[i] > 0.0
  }

  /** The PnL of position S under the simple return from `previous` to `today`: (today / previous - 1) S. */
  function SimpleReturnPnl(s: real, today: real, previous: real): real
    requires previous != 0.0
  {
    (today / previous - 1.0) * s
  }

  /**
   Where exp undoes log, each entry of the PnL vector is the simple return
   of the position: (r[i] / r[i+1] - 1) S.
   */
  lemma PnlVectorSimpleReturn(m: Math, s: real, rates: seq<real>)
    requires ExpUndoesLog(m) && Positive(rates)
    ensures forall i :: 0 <= i < |rates| - 1 ==> PnlVector(m, s, rates)[i] == SimpleReturnPnl(s, rates[i], rates[i + 1])
  {
    forall i | 0 <= i < |rates| - 1
      ensures PnlVector(m, s, rates)[i] == SimpleReturnPnl(s, rates[i], rates[i + 1])
    {
      assert rates[i] > 0.0 && rates[i + 1] > 0.0;
    }
  }

  /** The growth of one unit compounded through a sequence of returns. */
  function Compound(rs: seq<real>): real {
    if |rs| == 0 then 1.0 else (1.0 + rs[0]) * Compound(rs[1..])
  }

  /** Compounding a first return `first / mid` onto a growth of `mid / last` telescopes. */
  lemma {:induction false} CompoundStep(rs: seq<real>, first: real, mid: real, last: real)
    requires |rs| > 0 && mid != 0.0 && last != 0.0
    requires 1.0 + rs[0] == first / mid && Compound(rs[1..]) == mid / last
    ensures Compound(rs) == first / last
  {
    CompoundFirst(rs);
    Telescope(Compound(rs), 1.0 + rs[0], Compound(rs[1..]), first, mid, last);
  }

  lemma {:induction false} CompoundFirst(rs: seq<real>)
    requires |rs| > 0
    ensures Compound(rs) == (1.0 + rs[0]) * Compound(rs[1..])
  {
  }

  /** A nonzero number over itself is one. */
  lemma SelfRatio(x: real)
    requires x != 0.0
    ensures x / x == 1.0
  {
  }

  /** A product of two chained ratios telescopes. */
  lemma Telescope(c: real, h: real, t: real, first: real, mid: real, last: real)
    requires mid != 0.0 && last != 0.0
    requires c == h * t && h == first / mid && t == mid / last
    ensures c == first / last
  {
  }

  /** Dropping the most recent day drops the first scenario and keeps the rest. */
  lemma PnlVectorTail(m: Math, s: real, rates: seq<real>)
    requires NonzeroDivisors(rates) && |rates| > 1
    ensures NonzeroDivisors(rates[1..])
    ensures PnlVector(m, s, rates)[1..] == PnlVector(m, s, rates[1..])
  {
  }

  /** Per unit of position, the first scenario grows one unit to the ratio of the first two rates. */
  lemma FirstScenarioRatio(m: Math, rates: seq<real>)
    requires ExpUndoesLog(m) && Positive(rates) && |rates| > 1
    ensures 1.0 + PnlVector(m, 1.0, rates)[0] == rates[0] / rates[1]
  {
    assert rates[0] > 0.0 && rates[1] > 0.0;
    assert PnlVector(m, 1.0, rates)[0] == SimpleReturnPnl(1.0, rates[0], rates[1]);
  }

  /**
   The scenarios cover consecutive days without gap or overlap: per unit of
   position, their returns compound to the return over the whole series,
   first rate over last.
   */
  lemma {:induction false} PnlVectorCompounds(m: Math, rates: seq<real>)
    requires ExpUndoesLog(m) && Positive(rates) && |rates| >= 1
    ensures Compound(PnlVector(m, 1.0, rates)) == rates[0] / rates[|rates| - 1]
    decreases |rates|
  {
    if |rates| > 1 {
      var rest := rates[1..];
      assert Positive(rest);
      PnlVectorTail(m, 1.0, rates);
      PnlVectorCompounds(m, rest);
      assert rest[0] == rates[1] && rest[|rest| - 1] == rates[|rates| - 1];
      FirstScenarioRatio(m, rates);
      CompoundStep(PnlVector(m, 1.0, rates), rates[0], rates[1], rates[|rates| - 1]);
    } else {
      assert PnlVector(m, 1.0, rates) == [];
      SelfRatio(rates[0]);
    }
  }

  /** Elementwise sum of two equally long vectors. */
  function Add(a: seq<real>, b: seq<real>): (r: seq<real>)
    requires |a| == |b|
    ensures |r| == |a|
    ensures forall i :: 0 <= i < |r| ==> r[i] == a[i] + b[i]
  {
    seq(|a|, i requires 0 <= i < |a| => a[i] + b[i])
  }

  /** The instances `total_pnl` is defined for: equally long series and no zero divisor. */
  predicate WellShaped(v: VarModel) {
    |v.marketRate1| == |v.marketRate2| && NonzeroDivisors(v.marketRate1) && NonzeroDivisors(v.marketRate2)
  }

  /** The combined scenarios, day by day: the two currencies' PnL added. */
  function Scenarios(m: Math, v: VarModel): (r: seq<real>)
    requires WellShaped(v)
    ensures |r| == if |v.marketRate1| == 0 then 0 else |v.marketRate1| - 1
    ensures forall i :: 0 <= i < |r| ==>
      r[i] == ScenarioPnl(m, v.s1, v.marketRate1[i], v.marketRate1[i + 1])
              + ScenarioPnl(m, v.s2, v.marketRate2[i], v.marketRate2[i + 1])
  {
    Add(PnlVector(m, v.s1, v.marketRate1), PnlVector(m, v.s2, v.marketRate2))
  }

  /**
   `total_pnl`: the combined scenarios sorted ascending. It is a
   permutation of the day-by-day sums, one per pair of consecutive days.
   */
  function TotalPnl(m: Math, v: VarModel): (r: seq<real>)
    requires WellShaped(v)
    ensures |r| == |PnlVector(m, v.s1, v.marketRate1)| == |PnlVector(m, v.s2, v.marketRate2)|
    ensures Sorted(r)
    ensures multiset(r) == multiset(Scenarios(m, v))
  {
    Sort(Scenarios(m, v))
  }

  // ----- The VaR quantile -----

  /** The ranks (0-based) and weights of the fixed interpolation. */
  const LowerRank: nat := 1
  const UpperRank: nat := 2
  const LowerWeight: real := 0.4
  const UpperWeight: real := 0.6

  /** numpy's `IndexError`: the index asked for and the size of the vector. */
  datatype IndexError = IndexError(index: nat, size: nat)

  /**
   0.4 t[1] + 0.6 t[2]. Indexing evaluates left to right, so a vector of
   fewer than two entries fails at index 1 and one of two entries at index 2.
   On a sorted vector the result lies between its second and third smallest
   entries: at least two entries are at or below it, and every entry from
   the third on is at or above it.
   */
  function Interpolate(t: seq<real>): (r: Result<real, IndexError>)
    ensures r.Ok? <==> |t| > UpperRank
    ensures |t| <= LowerRank ==> r == Err(IndexError(LowerRank, |t|))
    ensures |t| == UpperRank ==> r == Err(IndexError(UpperRank, |t|))
    ensures r.Ok? ==> r.value == LowerWeight * t[LowerRank] + UpperWeight * t[UpperRank]
    ensures r.Ok? && Sorted(t) ==> t[LowerRank] <= r.value <= t[UpperRank]
    ensures r.Ok? && Sorted(t) ==>
      (forall i :: 0 <= i <= LowerRank ==> t[i] <= r.value)
      && (forall i :: UpperRank <= i < |t| ==> r.value <= t[i])
  {
    if |t| <= LowerRank then Err(IndexError(LowerRank, |t|))
    else if |t| <= UpperRank then Err(IndexError(UpperRank, |t|))
    else Ok(LowerWeight * t[LowerRank] + UpperWeight * t[UpperRank])
  }

  /**
   `var_1d`: the interpolation over the sorted total PnL. It is defined
   exactly when each series holds at least four rates, and then it lies
   between the second and third smallest combined scenarios.
   */
  function Var1d(m: Math, v: VarModel): (r: Result<real, IndexError>)
    requires WellShaped(v)
    ensures r.Ok? <==> |v.marketRate1| >= 4
    ensures r.Ok? ==> TotalPnl(m, v)[1] <= r.value <= TotalPnl(m, v)[2]
    ensures r.Err? ==> r.error.index in {1, 2} && r.error.size == |TotalPnl(m, v)|
  {
    Interpolate(TotalPnl(m, v))
  }

  /**
   The VaR depends only on the collection of combined scenarios, not on the
   order they come in: reordering the combined scenarios leaves it unchanged.
   */
  lemma Var1dDependsOnlyOnScenarios(m: Math, v: VarModel, w: VarModel)
    requires WellShaped(v) && WellShaped(w)
    requires multiset(Scenarios(m, v)) == multiset(Scenarios(m, w))
    ensures Var1d(m, v) == Var1d(m, w)
  {
    SortDependsOnlyOnElements(Scenarios(m, v), Scenarios(m, w));
  }

  /** Exchanging the two currencies, series and position together, leaves the VaR unchanged. */
  lemma Var1dSymmetric(m: Math, v: VarModel)
    requires WellShaped(v)
    ensures Var1d(m, VarModel(v.marketRate2, v.marketRate1, v.s2, v.s1)) == Var1d(m, v)
  {
    var w := VarModel(v.marketRate2, v.marketRate1, v.s2, v.s1);
    assert Scenarios(m, w) == Scenarios(m, v);
  }

  /** Constructing with a plain list or a non-numeric position raises for that attribute. */
  lemma TestValidation(xs: seq<real>)
    ensures New(Other, Array(xs), Int(1), Int(1)) == Err(ValueError(MarketRate1, NotAnArray))
    ensures New(Array(xs), Other, Int(1), Int(1)) == Err(ValueError(MarketRate2, NotAnArray))
    ensures New(Array(xs), Array(xs), Str("invalid"), Int(1)) == Err(ValueError(Position1, NotANumber))
    ensures New(Array(xs), Array(xs), Float(153084.81), Str("invalid")) == Err(ValueError(Position2, NotANumber))
    ensures New(Array(xs), Array(xs), Float(153084.81), Float(95891.51)).Ok?
  {
  }
}
