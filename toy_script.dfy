/** The first prototype (lib/script.py): a battery whose soc is an amount of
    energy in [0, capacity], a fixed 48-interval LP whose starting soc is
    left free, labels "charge"/"discharge" read off the solution, and the
    label-based P&L. */
module ToyScript {
  import opened Wrappers
  import opened AssetsBattery
  import opened ScriptPnL

  // ---------------------------------------------------------------------
  // Battery
  // ---------------------------------------------------------------------

  /** charge: add mw * efficiency, capped at the capacity. */
  function ToyChargeStep(capacityMw: real, efficiency: real, soc: real, mw: real): (r: real)
    ensures r <= capacityMw
    ensures r == capacityMw || r == soc + mw * efficiency
    ensures 0.0 <= soc <= capacityMw && mw >= 0.0 && efficiency >= 0.0 ==> soc <= r <= capacityMw
  {
    Min(soc + mw * efficiency, capacityMw)
  }

  /** discharge: remove mw * efficiency, floored at 0. */
  function ToyDischargeStep(efficiency: real, soc: real, mw: real): (r: real)
    ensures r >= 0.0
    ensures r == 0.0 || r == soc - mw * efficiency
    ensures soc >= 0.0 && mw >= 0.0 && efficiency >= 0.0 ==> 0.0 <= r <= soc
  {
    Max(soc - mw * efficiency, 0.0)
  }

  class ToyBattery {
    const capacityMw: real
    const chargeEfficiency: real
    const dischargeEfficiency: real
    var soc: real

    constructor (capacityMw: real, chargeEfficiency: real := 0.9, dischargeEfficiency: real := 0.9)
      ensures this.capacityMw == capacityMw && this.chargeEfficiency == chargeEfficiency
      ensures this.dischargeEfficiency == dischargeEfficiency && soc == 0.0
    {
      this.capacityMw := capacityMw;
      this.chargeEfficiency := chargeEfficiency;
      this.dischargeEfficiency := dischargeEfficiency;
      soc := 0.0;
    }

    /** The battery's soc is an energy between empty and full. */
    predicate InRange()
      reads this
    {
      0.0 <= soc <= capacityMw
    }

    method Charge(mw: real)
      modifies this
      ensures soc == ToyChargeStep(capacityMw, chargeEfficiency, old(soc), mw)
      ensures old(InRange()) && mw >= 0.0 && chargeEfficiency >= 0.0 ==> InRange() && old(soc) <= soc
    {
      var actualCharge := mw * chargeEfficiency;
      soc := Min(soc + actualCharge, capacityMw);
    }

    method Discharge(mw: real)
      modifies this
      ensures soc == ToyDischargeStep(dischargeEfficiency, old(soc), mw)
      ensures old(InRange()) && mw >= 0.0 && dischargeEfficiency >= 0.0 ==> InRange() && soc <= old(soc)
    {
      var actualDischarge := mw * dischargeEfficiency;
      soc := Max(soc - actualDischarge, 0.0);
    }

    function GetSoc(): real
      reads this
    {
      soc
    }
  }

  /** The two battery unit tests: charging 0.5 from empty stores 0.45, and
      charging 1 then discharging 0.5 leaves 0.9 - 0.45. */
  lemma ToyBatteryScenarios()
    ensures ToyChargeStep(1.0, 0.9, 0.0, 0.5) == 0.5 * 0.9
    ensures ToyDischargeStep(0.9, ToyChargeStep(1.0, 0.9, 0.0, 1.0), 0.5) == 1.0 * 0.9 - 0.5 * 0.9
  {
  }

  // ---------------------------------------------------------------------
  // The 48-interval LP
  // ---------------------------------------------------------------------

  const ToyIntervals: nat := 48

  /** The LP's data: the first 48 prices and the battery's figures. */
  datatype ToyModel = ToyModel(prices: seq<real>, capacityMw: real, chargeEfficiency: real, dischargeEfficiency: real)
  {
    predicate WellFormed() { |prices| == ToyIntervals && chargeEfficiency != 0.0 }
  }

  /** 48 charge and discharge values, 49 soc values. */
  datatype ToyAssignment = ToyAssignment(charge: seq<real>, discharge: seq<real>, soc: seq<real>)

  predicate ToyShaped(a: ToyAssignment) {
    |a.charge| == ToyIntervals && |a.discharge| == ToyIntervals && |a.soc| == ToyIntervals + 1
  }

  predicate ToyIntervalLimits(m: ToyModel, a: ToyAssignment, i: nat)
    requires ToyShaped(a) && i < ToyIntervals
  {
    0.0 <= a.charge[i] <= m.capacityMw && 0.0 <= a.discharge[i] <= m.capacityMw
    && a.charge[i] + a.discharge[i] <= m.capacityMw
  }

  /** soc evolution, scaled by the discharge efficiency; the first interval
      is written the same way as the others. */
  predicate ToySocStep(m: ToyModel, a: ToyAssignment, i: nat)
    requires ToyShaped(a) && i < ToyIntervals
  {
    a.soc[i + 1] * m.dischargeEfficiency
    == a.soc[i] * m.dischargeEfficiency + a.charge[i] * m.chargeEfficiency - a.discharge[i]
  }

  /** No constraint ties soc[0] to the battery. */
  predicate ToyFeasible(m: ToyModel, a: ToyAssignment) {
    && ToyShaped(a)
    && (forall i: nat :: i < ToyIntervals ==> ToyIntervalLimits(m, a, i) && ToySocStep(m, a, i))
    && (forall i: nat :: i <= ToyIntervals ==> 0.0 <= a.soc[i] <= m.capacityMw)
  }

  function ToyIntervalValue(m: ToyModel, a: ToyAssignment, i: nat): real
    requires m.WellFormed() && ToyShaped(a) && i < ToyIntervals
  {
    a.discharge[i] * m.prices[i] * m.dischargeEfficiency - a.charge[i] * m.prices[i] / m.chargeEfficiency
  }

  function ToyObjectiveUpTo(m: ToyModel, a: ToyAssignment, k: nat): real
    requires m.WellFormed() && ToyShaped(a) && k <= ToyIntervals
  {
    if k == 0 then 0.0 else ToyObjectiveUpTo(m, a, k - 1) + ToyIntervalValue(m, a, k - 1)
  }

  /** The net energy put in over the first k intervals. */
  function ToyNetInflow(m: ToyModel, a: ToyAssignment, k: nat): real
    requires ToyShaped(a) && k <= ToyIntervals
  {
    if k == 0 then 0.0 else ToyNetInflow(m, a, k - 1) + (a.charge[k - 1] * m.chargeEfficiency - a.discharge[k - 1])
  }

  /** soc[k] (scaled by the discharge efficiency) is the free starting soc plus
      the net inflow. */
  lemma {:induction false} ToySocClosedForm(m: ToyModel, a: ToyAssignment, k: nat)
    requires ToyFeasible(m, a) && k <= ToyIntervals
    ensures a.soc[k] * m.dischargeEfficiency == a.soc[0] * m.dischargeEfficiency + ToyNetInflow(m, a, k)
  {
    if k > 0 {
      ToySocClosedForm(m, a, k - 1);
      assert ToySocStep(m, a, k - 1);
    }
  }

  function ToyIdle(x: real): (a: ToyAssignment)
    ensures ToyShaped(a)
  {
    ToyAssignment(seq(ToyIntervals, _ => 0.0), seq(ToyIntervals, _ => 0.0), seq(ToyIntervals + 1, _ => x))
  }

  lemma {:induction false} ToyIdleObjectiveUpTo(m: ToyModel, x: real, k: nat)
    requires m.WellFormed() && k <= ToyIntervals
    ensures ToyObjectiveUpTo(m, ToyIdle(x), k) == 0.0
  {
    if k > 0 {
      ToyIdleObjectiveUpTo(m, x, k - 1);
    }
  }

  /** Because soc[0] is free, idling at any level between empty and full is
      feasible, whatever the battery actually holds; it scores zero. */
  lemma ToyIdleFeasibleFromAnySoc(m: ToyModel, x: real)
    requires m.WellFormed() && 0.0 <= x <= m.capacityMw
    ensures ToyFeasible(m, ToyIdle(x)) && ToyObjectiveUpTo(m, ToyIdle(x), ToyIntervals) == 0.0
  {
    ToyIdleObjectiveUpTo(m, x, ToyIntervals);
  }

  /** The prices the objective reads: the first 48, or an IndexError. */
  datatype ToyError = TooFewPrices(count: nat)

  function BuildToyModel(prices: seq<real>, capacityMw: real, chargeEfficiency: real, dischargeEfficiency: real)
    : (r: Result<ToyModel, ToyError>)
    requires chargeEfficiency != 0.0
    ensures r.Success? <==> |prices| >= ToyIntervals
    ensures r.Failure? ==> r.error == TooFewPrices(|prices|)
    ensures r.Success? ==> r.value.WellFormed() && r.value.prices == prices[..ToyIntervals]
  {
    if |prices| < ToyIntervals then Failure(TooFewPrices(|prices|))
    else Success(ToyModel(prices[..ToyIntervals], capacityMw, chargeEfficiency, dischargeEfficiency))
  }

  /** PuLP with GLPK; its status is never inspected. */
  type ToySolver = solve: ToyModel -> ToyAssignment | forall m :: ToyShaped(solve(m))
    witness (m: ToyModel) => ToyIdle(0.0)

  const DischargeLabel: string := "discharge"

  /** Every interval is labelled "charge" when it charges, otherwise "discharge". */
  function ToyExtract(a: ToyAssignment): (labels: seq<string>)
    requires ToyShaped(a)
    ensures |labels| == ToyIntervals
    ensures forall i :: 0 <= i < ToyIntervals ==> (labels[i] == ChargeLabel <==> a.charge[i] > 0.0)
    ensures forall i :: 0 <= i < ToyIntervals ==> labels[i] == ChargeLabel || labels[i] == DischargeLabel
  {
    seq(ToyIntervals, i requires 0 <= i < ToyIntervals => if a.charge[i] > 0.0 then ChargeLabel else DischargeLabel)
  }

  /** An idle interval is reported as a discharge. */
  lemma IdleIntervalLabelledDischarge(a: ToyAssignment, i: nat)
    requires ToyShaped(a) && i < ToyIntervals && a.charge[i] == 0.0 && a.discharge[i] == 0.0
    ensures ToyExtract(a)[i] == DischargeLabel
  {
    assert ToyExtract(a)[i] != ChargeLabel;
  }

  /** create_schedule. */
  function ToyCreateSchedule(prices: seq<real>, capacityMw: real, chargeEfficiency: real, dischargeEfficiency: real,
                             solve: ToySolver): (r: Result<seq<string>, ToyError>)
    requires chargeEfficiency != 0.0
    ensures r.Success? <==> |prices| >= ToyIntervals
    ensures r.Success? ==> |r.value| == ToyIntervals
                           && forall i :: 0 <= i < ToyIntervals ==> r.value[i] == ChargeLabel || r.value[i] == DischargeLabel
  {
    match BuildToyModel(prices, capacityMw, chargeEfficiency, dischargeEfficiency)
    case Failure(e) => Failure(e)
    case Success(m) => Success(ToyExtract(solve(m)))
  }

  /** run_daily_operation: a fresh 1 MW battery each call, its schedule, and
      the label P&L against the realised prices. */
  method ToyRunDailyOperation(prices: seq<real>, actualPrices: seq<real>, solve: ToySolver)
    returns (r: Result<(seq<string>, real), ToyError>)
    ensures r.Success? <==> |prices| >= ToyIntervals
    ensures r.Success? ==> r.value.0 == ToyCreateSchedule(prices, 1.0, 0.9, 0.9, solve).value
    ensures r.Success? ==> r.value.1 == ScriptPnl(r.value.0, actualPrices, 0.9, 0.9)
  {
    var battery := new ToyBattery(1.0);
    var schedule := ToyCreateSchedule(prices, battery.capacityMw, battery.chargeEfficiency,
                                      battery.dischargeEfficiency, solve);
    if schedule.Failure? {
      return Failure(schedule.error);
    }
    var pnl := CalculatePnl(schedule.value, actualPrices, battery.chargeEfficiency, battery.dischargeEfficiency);
    return Success((schedule.value, pnl));
  }

  /** At a constant realised price over all 48 intervals, the day's P&L is
      the price times 0.9 per discharge label minus 0.9 per charge label. */
  lemma ToyDayAtConstantPrice(labels: seq<string>, actualPrices: seq<real>, price: real)
    requires |labels| == ToyIntervals && |actualPrices| == ToyIntervals
    requires forall i :: 0 <= i < |actualPrices| ==> actualPrices[i] == price
    ensures ScriptPnl(labels, actualPrices, 0.9, 0.9)
            == price * 0.9 * ((ToyIntervals - 2 * ChargeCount(labels, ToyIntervals)) as real)
  {
    ConstantPricePnl(labels, actualPrices, price, 0.9, 0.9, ToyIntervals);
  }
}
