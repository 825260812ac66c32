/** The profit and loss of a day's schedule against the realised prices,
    valued with the efficiencies the battery holds when the P&L is computed. */
module PnLCalculation {
  import opened Wrappers
  import opened AssetsBattery
  import opened OptimizerModel
  import opened OptimizerScheduler

  /** The schedule has no row labelled with this interval (a KeyError). */
  datatype PnLError = MissingRow(interval: nat)

  /** The cash flow of one interval at price actualPrice * timestepHours:
      buying energy costs charge * price / chargeEfficiency, selling earns
      discharge * price * dischargeEfficiency. A row that both charges and
      discharges is valued as a charge only. */
  function IntervalPnl(row: ScheduleRow, actualPrice: real, timestepHours: real,
                       chargeEfficiency: real, dischargeEfficiency: real): (r: real)
    requires chargeEfficiency != 0.0
    ensures row.charge <= 0.0 && row.discharge <= 0.0 ==> r == 0.0
    ensures row.charge > 0.0 && actualPrice * timestepHours >= 0.0 && chargeEfficiency > 0.0 ==> r <= 0.0
    ensures (row.charge <= 0.0 && row.discharge > 0.0 && actualPrice * timestepHours >= 0.0
             && dischargeEfficiency >= 0.0) ==> r >= 0.0
  {
    var price := actualPrice * timestepHours;
    if row.charge > 0.0 then -(row.charge * price / chargeEfficiency)
    else if row.discharge > 0.0 then row.discharge * price * dischargeEfficiency
    else 0.0
  }

  /** The P&L of the first k intervals. */
  function PnLUpTo(rows: seq<ScheduleRow>, actualPrices: seq<real>, timestepHours: real,
                   chargeEfficiency: real, dischargeEfficiency: real, k: nat): real
    requires chargeEfficiency != 0.0 && k <= |rows| && k <= |actualPrices|
  {
    if k == 0 then 0.0
    else PnLUpTo(rows, actualPrices, timestepHours, chargeEfficiency, dischargeEfficiency, k - 1)
         + IntervalPnl(rows[k - 1], actualPrices[k - 1], timestepHours, chargeEfficiency, dischargeEfficiency)
  }

  /** The P&L over every realised price; a price with no schedule row fails. */
  function PnL(rows: seq<ScheduleRow>, actualPrices: seq<real>, timestepHours: real,
               chargeEfficiency: real, dischargeEfficiency: real): (r: Result<real, PnLError>)
    requires chargeEfficiency != 0.0
    ensures r.Success? <==> |actualPrices| <= |rows|
    ensures r.Failure? ==> r.error == MissingRow(|rows|)
  {
    if |rows| < |actualPrices| then Failure(MissingRow(|rows|))
    else Success(PnLUpTo(rows, actualPrices, timestepHours, chargeEfficiency, dischargeEfficiency, |actualPrices|))
  }

  /** PnLCalculator: holds the battery whose efficiencies value the trades. */
  class PnLCalculator {
    const battery: Battery

    constructor (battery: Battery)
      ensures this.battery == battery
    {
      this.battery := battery;
    }

    method Calculate(schedule: seq<ScheduleRow>, actualPrices: seq<real>, timestepHours: real := 1.0)
      returns (r: Result<real, PnLError>)
      requires battery.chargeEfficiency != 0.0
      ensures r == PnL(schedule, actualPrices, timestepHours, battery.chargeEfficiency, battery.dischargeEfficiency)
    {
      var pnl := 0.0;
      var i := 0;
      while i < |actualPrices|
        invariant i <= |actualPrices| && i <= |schedule|
        invariant pnl == PnLUpTo(schedule, actualPrices, timestepHours, battery.chargeEfficiency,
                                 battery.dischargeEfficiency, i)
      {
        if i >= |schedule| {
          return Failure(MissingRow(i));
        }
        var chargeValue := schedule[i].charge;
        var dischargeValue := schedule[i].discharge;
        var price := actualPrices[i] * timestepHours;
        if chargeValue > 0.0 {
          pnl := pnl + -(chargeValue * price / battery.chargeEfficiency);
        } else if dischargeValue > 0.0 {
          pnl := pnl + dischargeValue * price * battery.dischargeEfficiency;
        }
        i := i + 1;
      }
      return Success(pnl);
    }
  }

  /** A schedule that never charges or discharges earns nothing. */
  lemma {:induction false} IdleScheduleEarnsNothing(rows: seq<ScheduleRow>, actualPrices: seq<real>, timestepHours: real,
                                                    chargeEfficiency: real, dischargeEfficiency: real, k: nat)
    requires chargeEfficiency != 0.0 && k <= |actualPrices| && k <= |rows|
    requires forall i :: 0 <= i < |rows| ==> rows[i].charge <= 0.0 && rows[i].discharge <= 0.0
    ensures PnLUpTo(rows, actualPrices, timestepHours, chargeEfficiency, dischargeEfficiency, k) == 0.0
  {
    if k > 0 {
      IdleScheduleEarnsNothing(rows, actualPrices, timestepHours, chargeEfficiency, dischargeEfficiency, k - 1);
    }
  }

  lemma IntervalPnlMatchesObjectiveTerm(m: LpModel, a: Assignment, t: nat)
    requires m.WellFormed() && Shaped(m, a) && t < m.numIntervals && m.timestepHours == 1.0
    requires a.charge[t] >= 0.0 && a.discharge[t] >= 0.0 && (a.charge[t] == 0.0 || a.discharge[t] == 0.0)
    ensures IntervalPnl(ScheduleRow(t, a.charge[t], a.discharge[t], a.soc[t]), m.prices[t], 1.0,
                        m.chargeEfficiency, m.dischargeEfficiency) == IntervalValue(m, a, t)
  {
    var c, d, p := a.charge[t], a.discharge[t], m.prices[t];
    assert m.chargeEfficiency * 1.0 == m.chargeEfficiency;
    if c == 0.0 {
      assert c * p / m.chargeEfficiency == 0.0;
    } else {
      assert d * p * m.dischargeEfficiency == 0.0;
    }
  }

  /** Realised at the planning prices with one-hour intervals, a plan that
      never charges and discharges in the same interval earns exactly the
      objective value the optimiser maximised. */
  lemma {:induction false} PnLOfPlanIsObjective(m: LpModel, a: Assignment, k: nat)
    requires m.WellFormed() && Feasible(m, a) && m.timestepHours == 1.0 && k <= m.numIntervals
    requires forall t :: 0 <= t < m.numIntervals ==> a.charge[t] == 0.0 || a.discharge[t] == 0.0
    ensures PnLUpTo(ExtractSchedule(a, m.numIntervals), m.prices, 1.0, m.chargeEfficiency, m.dischargeEfficiency, k)
            == ObjectiveUpTo(m, a, k)
  {
    if k > 0 {
      PnLOfPlanIsObjective(m, a, k - 1);
      assert WithinBounds(m, a, k - 1);
      IntervalPnlMatchesObjectiveTerm(m, a, k - 1);
    }
  }

  /** The same over the whole horizon, through PnL. */
  lemma PnLEqualsObjective(m: LpModel, a: Assignment)
    requires m.WellFormed() && Feasible(m, a) && m.timestepHours == 1.0
    requires forall t :: 0 <= t < m.numIntervals ==> a.charge[t] == 0.0 || a.discharge[t] == 0.0
    ensures PnL(ExtractSchedule(a, m.numIntervals), m.prices, 1.0, m.chargeEfficiency, m.dischargeEfficiency)
            == Success(Objective(m, a))
  {
    PnLOfPlanIsObjective(m, a, m.numIntervals);
  }
}
