/** The older simulator (scripts/energy_market_simulator.py) over the older
    battery: rows are dispatched under `Charge > 0`, and its own P&L
    calculator values every non-charging row as a discharge. The scheduler
    class it imports is not defined in scripts/scheduler.py, so the planner
    is a parameter. */
module LegacySimulator {
  import opened Wrappers
  import opened AssetsBattery
  import opened OptimizerScheduler
  import opened DailyDispatch
  import opened PnLCalculation
  import opened SimulationLoop
  import opened MarketSimulator
  import opened LegacyBattery

  // ---------------------------------------------------------------------
  // PnLCalculator
  // ---------------------------------------------------------------------

  /** One interval: a positive Charge is a purchase, anything else is valued
      as a sale of the Discharge value, whatever its sign. */
  function LegacyIntervalPnl(row: ScheduleRow, actualPrice: real, timestepHours: real,
                             chargeEfficiency: real, dischargeEfficiency: real): (r: real)
    requires chargeEfficiency != 0.0
    ensures row.discharge >= 0.0 ==> r == IntervalPnl(row, actualPrice, timestepHours, chargeEfficiency, dischargeEfficiency)
    ensures (row.charge <= 0.0 && row.discharge < 0.0 && actualPrice * timestepHours > 0.0
             && dischargeEfficiency > 0.0) ==> r < 0.0
  {
    var price := actualPrice * timestepHours;
    if row.charge > 0.0 then -(row.charge * price / chargeEfficiency)
    else row.discharge * price * dischargeEfficiency
  }

  function LegacyPnLUpTo(rows: seq<ScheduleRow>, actualPrices: seq<real>, timestepHours: real,
                         chargeEfficiency: real, dischargeEfficiency: real, k: nat): real
    requires chargeEfficiency != 0.0 && k <= |rows| && k <= |actualPrices|
  {
    if k == 0 then 0.0
    else LegacyPnLUpTo(rows, actualPrices, timestepHours, chargeEfficiency, dischargeEfficiency, k - 1)
         + LegacyIntervalPnl(rows[k - 1], actualPrices[k - 1], timestepHours, chargeEfficiency, dischargeEfficiency)
  }

  /** Every realised price is read against the row of the same index; a
      missing row raises. */
  function LegacyPnL(rows: seq<ScheduleRow>, actualPrices: seq<real>, timestepHours: real,
                     chargeEfficiency: real, dischargeEfficiency: real): (r: Result<real, PnLError>)
    requires chargeEfficiency != 0.0
    ensures r.Success? <==> |actualPrices| <= |rows|
    ensures r.Failure? ==> r.error == MissingRow(|rows|)
  {
    if |rows| < |actualPrices| then Failure(MissingRow(|rows|))
    else Success(LegacyPnLUpTo(rows, actualPrices, timestepHours, chargeEfficiency, dischargeEfficiency, |actualPrices|))
  }

  lemma {:induction false} LegacyPnLUpToAgrees(rows: seq<ScheduleRow>, actualPrices: seq<real>, timestepHours: real,
                                               chargeEfficiency: real, dischargeEfficiency: real, k: nat)
    requires chargeEfficiency != 0.0 && k <= |rows| && k <= |actualPrices|
    requires forall i :: 0 <= i < |rows| ==> rows[i].discharge >= 0.0
    ensures LegacyPnLUpTo(rows, actualPrices, timestepHours, chargeEfficiency, dischargeEfficiency, k)
            == PnLUpTo(rows, actualPrices, timestepHours, chargeEfficiency, dischargeEfficiency, k)
  {
    if k > 0 {
      LegacyPnLUpToAgrees(rows, actualPrices, timestepHours, chargeEfficiency, dischargeEfficiency, k - 1);
      assert rows[k - 1].discharge >= 0.0;
    }
  }

  /** The two calculators agree on every schedule whose discharges are
      non-negative (every schedule an optimal solve produces). */
  lemma LegacyPnLAgreesWithNewer(rows: seq<ScheduleRow>, actualPrices: seq<real>, timestepHours: real,
                                 chargeEfficiency: real, dischargeEfficiency: real)
    requires chargeEfficiency != 0.0
    requires forall i :: 0 <= i < |rows| ==> rows[i].discharge >= 0.0
    ensures LegacyPnL(rows, actualPrices, timestepHours, chargeEfficiency, dischargeEfficiency)
            == PnL(rows, actualPrices, timestepHours, chargeEfficiency, dischargeEfficiency)
  {
    if |actualPrices| <= |rows| {
      LegacyPnLUpToAgrees(rows, actualPrices, timestepHours, chargeEfficiency, dischargeEfficiency, |actualPrices|);
    }
  }

  class LegacyPnLCalculator {
    const battery: LegacyBattery

    constructor (battery: LegacyBattery)
      ensures this.battery == battery
    {
      this.battery := battery;
    }

    method Calculate(schedule: seq<ScheduleRow>, actualPrices: seq<real>, timestepHours: real := 1.0)
      returns (r: Result<real, PnLError>)
      requires battery.chargeEfficiency != 0.0
      ensures r == LegacyPnL(schedule, actualPrices, timestepHours, battery.chargeEfficiency, battery.dischargeEfficiency)
    {
      var pnl := 0.0;
      var i := 0;
      while i < |actualPrices|
        invariant i <= |actualPrices| && i <= |schedule|
        invariant pnl == LegacyPnLUpTo(schedule, actualPrices, timestepHours, battery.chargeEfficiency,
                                       battery.dischargeEfficiency, i)
      {
        if i >= |schedule| {
          return Failure(MissingRow(i));
        }
        var chargeValue := schedule[i].charge;
        var dischargeValue := schedule[i].discharge;
        var isCharge := chargeValue > 0.0;
        var value := if isCharge then chargeValue else dischargeValue;
        var price := actualPrices[i] * timestepHours;
        if isCharge {
          pnl := pnl - value * price / battery.chargeEfficiency;
        } else {
          pnl := pnl + value * price * battery.dischargeEfficiency;
        }
        i := i + 1;
      }
      return Success(pnl);
    }
  }

  // ---------------------------------------------------------------------
  // Replaying a schedule on the older battery
  // ---------------------------------------------------------------------

  function ApplyLegacyCall(p: LegacyParams, s: LegacyState, c: Call): LegacyState {
    match c
    case ChargeCall(e) => LegacyChargeStep(p, s, e)
    case DischargeCall(e) => LegacyDischargeStep(p, s, e)
  }

  /** The older battery after the calls, in order; after at least one call
      its efficiencies lie in [0.5, 1]. */
  function ApplyLegacyCalls(p: LegacyParams, s: LegacyState, calls: seq<Call>): (r: LegacyState)
    ensures calls == [] ==> r == s
    ensures calls != [] ==> MinEfficiency <= r.chargeEfficiency <= MaxEfficiency
                            && MinEfficiency <= r.dischargeEfficiency <= MaxEfficiency
  {
    if calls == [] then s
    else ApplyLegacyCall(p, ApplyLegacyCalls(p, s, calls[..|calls| - 1]), calls[|calls| - 1])
  }

  lemma ApplyLegacyCallsAppend(p: LegacyParams, s: LegacyState, calls: seq<Call>, more: seq<Call>)
    requires |more| <= 1
    ensures ApplyLegacyCalls(p, s, calls + more) == if more == [] then ApplyLegacyCalls(p, s, calls)
                                                    else ApplyLegacyCall(p, ApplyLegacyCalls(p, s, calls), more[0])
  {
    if more == [] {
      assert calls + more == calls;
    } else {
      assert (calls + more)[..|calls + more| - 1] == calls;
    }
  }

  predicate EnergiesPositive(calls: seq<Call>) {
    forall k :: 0 <= k < |calls| ==> calls[k].energyMwh > 0.0
  }

  /** Under `Charge > 0` every call requests a strictly positive energy. */
  lemma {:induction false} PositiveRuleRequestsPositiveEnergy(rows: seq<ScheduleRow>)
    ensures EnergiesPositive(DailyCalls(ChargeWhenPositive, rows))
  {
    if rows != [] {
      PositiveRuleRequestsPositiveEnergy(rows[..|rows| - 1]);
      var before: seq<Call> := DailyCalls(ChargeWhenPositive, rows[..|rows| - 1]);
      var row := rows[|rows| - 1];
      var one: seq<Call> := OptionToSeq(RowCall(ChargeWhenPositive, row));
      assert DailyCalls(ChargeWhenPositive, rows) == before + one;
      forall k | 0 <= k < |before + one| ensures (before + one)[k].energyMwh > 0.0 {
        if k < |before| {
          assert (before + one)[k] == before[k];
        } else {
          assert (before + one)[k] == one[0];
          if row.charge > 0.0 {
            assert one[0] == ChargeCall(row.charge);
          } else {
            assert one[0] == DischargeCall(row.discharge);
          }
        }
      }
    }
  }

  /** Calls with non-negative energy keep the older battery in range and
      never raise its soh. */
  lemma {:induction false} ApplyLegacyCallsKeepsInRange(p: LegacyParams, s: LegacyState, calls: seq<Call>)
    requires s.InRange(p.capacityMwh) && p.Sane() && EnergiesNonNegative(calls)
    ensures ApplyLegacyCalls(p, s, calls).InRange(p.capacityMwh)
    ensures ApplyLegacyCalls(p, s, calls).soh <= s.soh
  {
    if calls != [] {
      var init := calls[..|calls| - 1];
      assert EnergiesNonNegative(init) by {
        forall k | 0 <= k < |init| ensures init[k].energyMwh >= 0.0 {
          assert init[k] == calls[k];
        }
      }
      ApplyLegacyCallsKeepsInRange(p, s, init);
      assert calls[|calls| - 1].energyMwh >= 0.0;
    }
  }

  // ---------------------------------------------------------------------
  // One day and the run of days
  // ---------------------------------------------------------------------

  /** The older battery with a charge efficiency the P&L can divide by. */
  type LiveLegacyState = s: LegacyState | s.chargeEfficiency != 0.0
    witness LegacyState(0.5, 1.0, 0.9, 0.9, 0.0, 0.0, 0.5)

  /** The scheduler: a schedule for the battery and the planning prices. */
  type LegacyPlanner = (LegacyState, seq<real>) -> seq<ScheduleRow>

  /** run_daily_operation: plan, replay under `Charge > 0`, then value the
      schedule with the efficiencies the battery holds after the replay. */
  function LegacyDailyOperation(p: LegacyParams, plan: LegacyPlanner, s: LiveLegacyState,
                                prices: seq<real>, actualPrices: seq<real>)
    : (r: (Result<(seq<ScheduleRow>, real), SimError>, LiveLegacyState))
    ensures r.1 == ApplyLegacyCalls(p, s, DailyCalls(ChargeWhenPositive, plan(s, prices)))
    ensures r.0.Success? <==> |actualPrices| <= |plan(s, prices)|
    ensures r.0.Failure? ==> r.0.error == PriceRowMissing(|plan(s, prices)|)
    ensures r.0.Success? ==> r.0.value.0 == plan(s, prices)
                             && r.0.value.1 == LegacyPnL(plan(s, prices), actualPrices, 1.0,
                                                         r.1.chargeEfficiency, r.1.dischargeEfficiency).value
  {
    var rows := plan(s, prices);
    var after: LiveLegacyState := ApplyLegacyCalls(p, s, DailyCalls(ChargeWhenPositive, rows));
    match LegacyPnL(rows, actualPrices, 1.0, after.chargeEfficiency, after.dischargeEfficiency)
    case Failure(e) => (Failure(PriceRowMissing(e.interval)), after)
    case Success(pnl) => (Success((rows, pnl)), after)
  }

  function LegacyDay(p: LegacyParams, plan: LegacyPlanner, priceModel: PriceSource): DayStep<LiveLegacyState, seq<ScheduleRow>> {
    (s: LiveLegacyState, date: int) => LegacyDailyOperation(p, plan, s, priceModel(date).0, priceModel(date).1)
  }

  /** A simulated day is LegacyDailyOperation on the price model's prices for the date. */
  lemma LegacyDayIs(p: LegacyParams, plan: LegacyPlanner, priceModel: PriceSource, s: LiveLegacyState, date: int)
    ensures LegacyDay(p, plan, priceModel)(s, date) == LegacyDailyOperation(p, plan, s, priceModel(date).0, priceModel(date).1)
  {
  }

  /** A day whose operation gives (r, s2) extends a successful run of the
      days before it: with its entry when r succeeds, with r's error otherwise. */
  lemma LegacyDayExtendsRun(p: LegacyParams, plan: LegacyPlanner, priceModel: PriceSource, s0: LiveLegacyState, start: int, day: nat,
                      days: seq<DayResult<seq<ScheduleRow>>>, s1: LiveLegacyState,
                      r: Result<(seq<ScheduleRow>, real), SimError>, s2: LiveLegacyState)
    requires RunDays(LegacyDay(p, plan, priceModel), s0, start, day) == (Success(days), s1)
    requires (r, s2) == LegacyDailyOperation(p, plan, s1, priceModel(start + day).0, priceModel(start + day).1)
    ensures r.Failure? ==> RunDays(LegacyDay(p, plan, priceModel), s0, start, day + 1) == (Failure(r.error), s2)
    ensures r.Success? ==> RunDays(LegacyDay(p, plan, priceModel), s0, start, day + 1)
                           == (Success(days + [DayResult(start + day, r.value.0, r.value.1)]), s2)
  {
    LegacyDayIs(p, plan, priceModel, s1, start + day);
    if r.Failure? {
      RunDaysFails(LegacyDay(p, plan, priceModel), s0, start, day, days, s1, r.error, s2);
    } else {
      RunDaysSucceeds(LegacyDay(p, plan, priceModel), s0, start, day, days, s1, r.value, s2);
    }
  }

  /** Whatever the planner returns, a day keeps the older battery in range
      and never raises its soh: the `> 0` rule only requests positive energy. */
  lemma LegacyDayKeepsBatteryInRange(p: LegacyParams, plan: LegacyPlanner, s: LiveLegacyState,
                                     prices: seq<real>, actualPrices: seq<real>)
    requires s.InRange(p.capacityMwh) && p.Sane()
    ensures var after := LegacyDailyOperation(p, plan, s, prices, actualPrices).1;
            after.InRange(p.capacityMwh) && after.soh <= s.soh
  {
    var calls := DailyCalls(ChargeWhenPositive, plan(s, prices));
    PositiveRuleRequestsPositiveEnergy(plan(s, prices));
    assert EnergiesNonNegative(calls) by {
      forall k | 0 <= k < |calls| ensures calls[k].energyMwh >= 0.0 {
        assert calls[k].energyMwh > 0.0;
      }
    }
    ApplyLegacyCallsKeepsInRange(p, s, calls);
  }

  /** Over any number of days, for any planner and price model. */
  lemma LegacySimulationKeepsBatteryInRange(p: LegacyParams, plan: LegacyPlanner, priceModel: PriceSource,
                                            s: LiveLegacyState, start: int, k: nat)
    requires s.InRange(p.capacityMwh) && p.Sane()
    ensures var after := RunDays(LegacyDay(p, plan, priceModel), s, start, k).1;
            after.InRange(p.capacityMwh) && after.soh <= s.soh
  {
    var inv := (t: LiveLegacyState) => t.InRange(p.capacityMwh) && t.soh <= s.soh;
    forall t: LiveLegacyState, date: int | inv(t) ensures inv(LegacyDay(p, plan, priceModel)(t, date).1) {
      LegacyDayStaysBelow(p, plan, priceModel, s.soh, t, date);
    }
    RunDaysPreserves(LegacyDay(p, plan, priceModel), s, start, k, inv);
  }

  /** One day, starting in range with soh at most `soh`, ends so too. */
  lemma LegacyDayStaysBelow(p: LegacyParams, plan: LegacyPlanner, priceModel: PriceSource,
                            soh: real, mid: LiveLegacyState, date: int)
    requires mid.InRange(p.capacityMwh) && p.Sane() && mid.soh <= soh
    ensures var after := LegacyDay(p, plan, priceModel)(mid, date).1;
            after.InRange(p.capacityMwh) && after.soh <= soh
  {
    LegacyDayIs(p, plan, priceModel, mid, date);
    LegacyDayKeepsBatteryInRange(p, plan, mid, priceModel(date).0, priceModel(date).1);
  }

  class LegacyEnergyMarketSimulator {
    const startDate: int
    const endDate: int
    const battery: LegacyBattery
    const priceModel: PriceSource
    const pnlCalculator: LegacyPnLCalculator
    const plan: LegacyPlanner

    constructor (startDate: int, endDate: int, battery: LegacyBattery, priceModel: PriceSource,
                 pnlCalculator: LegacyPnLCalculator, plan: LegacyPlanner)
      requires endDate >= startDate
      ensures this.startDate == startDate && this.endDate == endDate && this.battery == battery
      ensures this.priceModel == priceModel && this.pnlCalculator == pnlCalculator && this.plan == plan
    {
      this.startDate := startDate;
      this.endDate := endDate;
      this.battery := battery;
      this.priceModel := priceModel;
      this.pnlCalculator := pnlCalculator;
      this.plan := plan;
    }

    predicate Live()
      reads battery
    {
      battery.chargeEfficiency != 0.0
    }

    /** process_daily_schedule: charge on a positive Charge, else discharge on
        a positive Discharge, else nothing. */
    method ProcessDailySchedule(rows: seq<ScheduleRow>)
      modifies battery
      ensures battery.State() == ApplyLegacyCalls(battery.Params(), old(battery.State()), DailyCalls(ChargeWhenPositive, rows))
    {
      var i := 0;
      while i < |rows|
        invariant i <= |rows|
        invariant battery.State() == ApplyLegacyCalls(battery.Params(), old(battery.State()), DailyCalls(ChargeWhenPositive, rows[..i]))
      {
        var chargeValue := rows[i].charge;
        var dischargeValue := rows[i].discharge;
        DailyCallsStep(ChargeWhenPositive, rows, i);
        ApplyLegacyCallsAppend(battery.Params(), old(battery.State()), DailyCalls(ChargeWhenPositive, rows[..i]),
                               OptionToSeq(RowCall(ChargeWhenPositive, rows[i])));
        if chargeValue > 0.0 {
          battery.Charge(chargeValue);
        } else if dischargeValue > 0.0 {
          battery.Discharge(dischargeValue);
        }
        i := i + 1;
      }
      assert rows[..|rows|] == rows;
    }

    method RunDailyOperation(prices: seq<real>, actualPrices: seq<real>) returns (r: Result<(seq<ScheduleRow>, real), SimError>)
      requires Live() && pnlCalculator.battery == battery
      modifies battery
      ensures (r, battery.State()) == LegacyDailyOperation(battery.Params(), plan, old(battery.State()), prices, actualPrices)
      ensures Live()
    {
      var rows := plan(battery.State(), prices);
      ProcessDailySchedule(rows);
      var pnl := pnlCalculator.Calculate(rows, actualPrices);
      if pnl.Failure? {
        return Failure(PriceRowMissing(pnl.error.interval));
      }
      return Success((rows, pnl.value));
    }

    /** One iteration of simulate: the price model's prices for the date,
        then run_daily_operation on them; the run so far grows by that day. */
    method SimulateDay(ghost s0: LiveLegacyState, day: nat, days: seq<DayResult<seq<ScheduleRow>>>)
      returns (r: Result<(seq<ScheduleRow>, real), SimError>)
      requires Live() && pnlCalculator.battery == battery
      requires (Success(days), battery.State()) == RunDays(LegacyDay(battery.Params(), plan, priceModel), s0, startDate, day)
      modifies battery
      ensures Live()
      ensures r.Failure? ==>
        (Failure(r.error), battery.State()) == RunDays(LegacyDay(battery.Params(), plan, priceModel), s0, startDate, day + 1)
      ensures r.Success? ==>
        (Success(days + [DayResult(startDate + day, r.value.0, r.value.1)]), battery.State())
        == RunDays(LegacyDay(battery.Params(), plan, priceModel), s0, startDate, day + 1)
    {
      ghost var s1: LiveLegacyState := battery.State();
      var (prices, actualPrices) := priceModel(startDate + day);
      r := RunDailyOperation(prices, actualPrices);
      LegacyDayExtendsRun(battery.Params(), plan, priceModel, s0, startDate, day, days, s1, r, battery.State());
    }

    /** simulate: every day from start to end, in order, with the total P&L. */
    method Simulate() returns (results: Result<seq<DayResult<seq<ScheduleRow>>>, SimError>, totalPnl: real)
      requires Live() && pnlCalculator.battery == battery
      modifies battery
      ensures (results, battery.State())
              == RunDays<LiveLegacyState, seq<ScheduleRow>>(LegacyDay(battery.Params(), plan, priceModel), old(battery.State()), startDate, NumDays(startDate, endDate))
      ensures results.Success? ==> totalPnl == TotalPnl(results.value)
    {
      ghost var s0: LiveLegacyState := battery.State();
      var days: seq<DayResult<seq<ScheduleRow>>> := [];
      totalPnl := 0.0;
      var day := 0;
      while day < NumDays(startDate, endDate)
        invariant day <= NumDays(startDate, endDate) && Live()
        invariant (Success(days), battery.State()) == RunDays(LegacyDay(battery.Params(), plan, priceModel), s0, startDate, day)
        invariant totalPnl == TotalPnl(days)
      {
        var r := SimulateDay(s0, day, days);
        if r.Failure? {
          FailureStopsTheRun(LegacyDay(battery.Params(), plan, priceModel), s0, startDate, day + 1, NumDays(startDate, endDate));
          return Failure(r.error), totalPnl;
        }
        TotalPnlAppend(days, DayResult(startDate + day, r.value.0, r.value.1));
        totalPnl := totalPnl + r.value.1;
        days := days + [DayResult(startDate + day, r.value.0, r.value.1)];
        day := day + 1;
      }
      return Success(days), totalPnl;
    }
  }
}
