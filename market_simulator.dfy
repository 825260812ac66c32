/** EnergyMarketSimulator (scripts/market_simulator): for every day from
    start to end, schedule against the day's planning prices, replay the
    schedule on the battery, and value it against the realised prices. */
module MarketSimulator {
  import opened Wrappers
  import opened AssetsBattery
  import opened OptimizerScheduler
  import opened DailyDispatch
  import opened PnLCalculation
  import opened SimulationLoop

  /** The price model: for a date, the planning prices and the realised
      (noisy) prices. Its randomness and data files are not modelled. */
  type PriceSource = int -> (seq<real>, seq<real>)

  /** run_daily_operation as a function of the battery state: schedule,
      replay the rows with the `Charge >= 0` rule, then value the schedule
      with the efficiencies the battery holds AFTER the replay. */
  function DailyOperation(p: BatteryParams, s: LiveState, prices: seq<real>, actualPrices: seq<real>, solve: Solver)
    : (r: (Result<(seq<ScheduleRow>, real), SimError>, LiveState))
    ensures CreateSchedule(prices, p, s, solve).Failure? ==> r == (Failure(ScheduleFailed), s)
    ensures CreateSchedule(prices, p, s, solve).Success? ==>
              var rows := CreateSchedule(prices, p, s, solve).value;
              && r.1 == ApplyCalls(p, s, DailyCalls(ChargeWhenNonNegative, rows))
              && (r.0.Success? <==> |actualPrices| <= |rows|)
              && (r.0.Failure? ==> r.0.error == PriceRowMissing(|rows|))
              && (r.0.Success? ==> r.0.value.0 == rows
                                   && r.0.value.1 == PnL(rows, actualPrices, 1.0, r.1.chargeEfficiency, r.1.dischargeEfficiency).value)
  {
    match CreateSchedule(prices, p, s, solve)
    case Failure(_) => (Failure(ScheduleFailed), s)
    case Success(rows) =>
      var after := ApplyCalls(p, s, DailyCalls(ChargeWhenNonNegative, rows));
      ApplyCallsKeepsLive(p, s, DailyCalls(ChargeWhenNonNegative, rows));
      match PnL(rows, actualPrices, 1.0, after.chargeEfficiency, after.dischargeEfficiency)
      case Failure(e) => (Failure(PriceRowMissing(e.interval)), after)
      case Success(pnl) => (Success((rows, pnl)), after)
  }

  /** One simulated day: the price model's prices for the date, then DailyOperation. */
  function Day(p: BatteryParams, solve: Solver, priceModel: PriceSource): DayStep<LiveState, seq<ScheduleRow>> {
    (s: LiveState, date: int) => DailyOperation(p, s, priceModel(date).0, priceModel(date).1, solve)
  }

  /** A simulated day is DailyOperation on the price model's prices for the date. */
  lemma DayIs(p: BatteryParams, solve: Solver, priceModel: PriceSource, s: LiveState, date: int)
    ensures Day(p, solve, priceModel)(s, date) == DailyOperation(p, s, priceModel(date).0, priceModel(date).1, solve)
  {
  }

  /** A day whose operation gives (r, s2) extends a successful run of the
      days before it: with its entry when r succeeds, with r's error otherwise. */
  lemma DayExtendsRun(p: BatteryParams, solve: Solver, priceModel: PriceSource, s0: LiveState, start: int, day: nat,
                      days: seq<DayResult<seq<ScheduleRow>>>, s1: LiveState,
                      r: Result<(seq<ScheduleRow>, real), SimError>, s2: LiveState)
    requires RunDays(Day(p, solve, priceModel), s0, start, day) == (Success(days), s1)
    requires (r, s2) == DailyOperation(p, s1, priceModel(start + day).0, priceModel(start + day).1, solve)
    ensures r.Failure? ==> RunDays(Day(p, solve, priceModel), s0, start, day + 1) == (Failure(r.error), s2)
    ensures r.Success? ==> RunDays(Day(p, solve, priceModel), s0, start, day + 1)
                           == (Success(days + [DayResult(start + day, r.value.0, r.value.1)]), s2)
  {
    DayIs(p, solve, priceModel, s1, start + day);
    if r.Failure? {
      RunDaysFails(Day(p, solve, priceModel), s0, start, day, days, s1, r.error, s2);
    } else {
      RunDaysSucceeds(Day(p, solve, priceModel), s0, start, day, days, s1, r.value, s2);
    }
  }

  /** With a sound solver, a day keeps the battery in range, never raises its
      soh, and (since only charge calls are made) never lowers its soc. */
  lemma DayKeepsBatteryInRange(p: BatteryParams, s: LiveState, prices: seq<real>, actualPrices: seq<real>, solve: Solver)
    requires SoundSolver(solve) && s.InRange() && p.Sane()
    ensures var after := DailyOperation(p, s, prices, actualPrices, solve).1;
            after.InRange() && after.soh <= s.soh && after.soc >= s.soc
  {
    var scheduled := CreateSchedule(prices, p, s, solve);
    if scheduled.Success? {
      var rows := scheduled.value;
      CreatedScheduleWithinLimits(prices, p, s, solve, 1.0, 5.0);
      assert forall i :: 0 <= i < |rows| ==> rows[i].charge >= 0.0 by {
        forall i | 0 <= i < |rows| ensures rows[i].charge >= 0.0 {
          assert RowWithinLimits(rows[i], p.capacityMwh);
        }
      }
      var calls := DailyCalls(ChargeWhenNonNegative, rows);
      NonNegativeRuleNeverDischarges(rows);
      assert EnergiesNonNegative(calls);
      ApplyCallsKeepsInRange(p, s, calls);
      NonNegativeRuleNeverLowersSoc(p, s, rows);
    }
  }

  /** Over any number of simulated days, the battery stays in range, its soh
      never rises and its soc never falls below where it started. */
  lemma SimulationKeepsBatteryInRange(p: BatteryParams, solve: Solver, priceModel: PriceSource,
                                     s: LiveState, start: int, k: nat)
    requires SoundSolver(solve) && s.InRange() && p.Sane()
    ensures var after := RunDays(Day(p, solve, priceModel), s, start, k).1;
            after.InRange() && after.soh <= s.soh && after.soc >= s.soc
  {
    var inv := (t: LiveState) => t.InRange() && t.soh <= s.soh && t.soc >= s.soc;
    forall t: LiveState, date: int | inv(t) ensures inv(Day(p, solve, priceModel)(t, date).1) {
      DayStaysWithin(p, solve, priceModel, s.soh, s.soc, t, date);
    }
    RunDaysPreserves(Day(p, solve, priceModel), s, start, k, inv);
  }

  /** One day, starting in range with soh at most `soh` and soc at least
      `soc`, ends so too. */
  lemma DayStaysWithin(p: BatteryParams, solve: Solver, priceModel: PriceSource,
                       soh: real, soc: real, mid: LiveState, date: int)
    requires SoundSolver(solve) && mid.InRange() && p.Sane() && mid.soh <= soh && mid.soc >= soc
    ensures var after := Day(p, solve, priceModel)(mid, date).1;
            after.InRange() && after.soh <= soh && after.soc >= soc
  {
    DayIs(p, solve, priceModel, mid, date);
    DayKeepsBatteryInRange(p, mid, priceModel(date).0, priceModel(date).1, solve);
  }

  class EnergyMarketSimulator {
    const startDate: int
    const endDate: int
    const battery: Battery
    const priceModel: PriceSource
    const pnlCalculator: PnLCalculator
    /** The solver the scheduler hands its models to; the scheduler plans for `battery`. */
    const solve: Solver

    constructor (startDate: int, endDate: int, battery: Battery, priceModel: PriceSource,
                 pnlCalculator: PnLCalculator, solve: Solver)
      requires endDate >= startDate
      ensures this.startDate == startDate && this.endDate == endDate && this.battery == battery
      ensures this.priceModel == priceModel && this.pnlCalculator == pnlCalculator && this.solve == solve
    {
      this.startDate := startDate;
      this.endDate := endDate;
      this.battery := battery;
      this.priceModel := priceModel;
      this.pnlCalculator := pnlCalculator;
      this.solve := solve;
    }

    predicate Live()
      reads battery
    {
      battery.chargeEfficiency != 0.0 && battery.dischargeEfficiency != 0.0
    }

    /** process_daily_schedule: one battery call per row under `Charge >= 0`. */
    method ProcessDailySchedule(rows: seq<ScheduleRow>)
      modifies battery
      ensures battery.State() == ApplyCalls(battery.Params(), old(battery.State()), DailyCalls(ChargeWhenNonNegative, rows))
    {
      var i := 0;
      while i < |rows|
        invariant i <= |rows|
        invariant battery.State() == ApplyCalls(battery.Params(), old(battery.State()), DailyCalls(ChargeWhenNonNegative, rows[..i]))
      {
        var chargeValue := rows[i].charge;
        var dischargeValue := rows[i].discharge;
        DailyCallsStep(ChargeWhenNonNegative, rows, i);
        ApplyCallsAppend(battery.Params(), old(battery.State()), DailyCalls(ChargeWhenNonNegative, rows[..i]),
                         OptionToSeq(RowCall(ChargeWhenNonNegative, rows[i])));
        if chargeValue >= 0.0 {
          assert RowCall(ChargeWhenNonNegative, rows[i]) == Some(ChargeCall(chargeValue));
          battery.Charge(chargeValue);
        } else if dischargeValue > 0.0 {
          assert RowCall(ChargeWhenNonNegative, rows[i]) == Some(DischargeCall(dischargeValue));
          battery.Discharge(dischargeValue);
        } else {
          assert RowCall(ChargeWhenNonNegative, rows[i]) == None;
        }
        i := i + 1;
      }
      assert rows[..|rows|] == rows;
    }

    /** run_daily_operation. */
    method RunDailyOperation(prices: seq<real>, actualPrices: seq<real>) returns (r: Result<(seq<ScheduleRow>, real), SimError>)
      requires Live() && pnlCalculator.battery == battery
      modifies battery
      ensures (r, battery.State()) == DailyOperation(battery.Params(), old(battery.State()), prices, actualPrices, solve)
      ensures Live()
    {
      var s: LiveState := battery.State();
      var scheduled := CreateSchedule(prices, battery.Params(), s, solve);
      if scheduled.Failure? {
        return Failure(ScheduleFailed);
      }
      var rows := scheduled.value;
      ProcessDailySchedule(rows);
      ApplyCallsKeepsLive(battery.Params(), s, DailyCalls(ChargeWhenNonNegative, rows));
      var pnl := pnlCalculator.Calculate(rows, actualPrices);
      if pnl.Failure? {
        return Failure(PriceRowMissing(pnl.error.interval));
      }
      return Success((rows, pnl.value));
    }

    /** One iteration of simulate: the price model's prices for the date,
        then run_daily_operation on them; the run so far grows by that day. */
    method SimulateDay(ghost s0: LiveState, day: nat, days: seq<DayResult<seq<ScheduleRow>>>)
      returns (r: Result<(seq<ScheduleRow>, real), SimError>)
      requires Live() && pnlCalculator.battery == battery
      requires (Success(days), battery.State()) == RunDays(Day(battery.Params(), solve, priceModel), s0, startDate, day)
      modifies battery
      ensures Live()
      ensures r.Failure? ==>
        (Failure(r.error), battery.State()) == RunDays(Day(battery.Params(), solve, priceModel), s0, startDate, day + 1)
      ensures r.Success? ==>
        (Success(days + [DayResult(startDate + day, r.value.0, r.value.1)]), battery.State())
        == RunDays(Day(battery.Params(), solve, priceModel), s0, startDate, day + 1)
    {
      ghost var s1: LiveState := battery.State();
      var (prices, actualPrices) := priceModel(startDate + day);
      r := RunDailyOperation(prices, actualPrices);
      DayExtendsRun(battery.Params(), solve, priceModel, s0, startDate, day, days, s1, r, battery.State());
    }

    /** simulate: the results of every day from start to end, and their total
      P&L; the first failing day ends the run with its error. */
    method Simulate() returns (results: Result<seq<DayResult<seq<ScheduleRow>>>, SimError>, totalPnl: real)
      requires Live() && pnlCalculator.battery == battery
      modifies battery
      ensures (results, battery.State()) == RunDays<LiveState, seq<ScheduleRow>>(Day(battery.Params(), solve, priceModel), old(battery.State()), startDate, NumDays(startDate, endDate))
      ensures results.Success? ==> totalPnl == TotalPnl(results.value)
    {
      ghost var s0: LiveState := battery.State();
      var days: seq<DayResult<seq<ScheduleRow>>> := [];
      totalPnl := 0.0;
      var day := 0;
      while day < NumDays(startDate, endDate)
        invariant day <= NumDays(startDate, endDate) && Live()
        invariant (Success(days), battery.State()) == RunDays(Day(battery.Params(), solve, priceModel), s0, startDate, day)
        invariant totalPnl == TotalPnl(days)
      {
        var r := SimulateDay(s0, day, days);
        if r.Failure? {
          FailureStopsTheRun(Day(battery.Params(), solve, priceModel), s0, startDate, day + 1, NumDays(startDate, endDate));
          return Failure(r.error), totalPnl;
        }
        TotalPnlAppend(days, DayResult(startDate + day, r.value.0, r.value.1));
        totalPnl := totalPnl + r.value.1;
        days := days + [DayResult(startDate + day, r.value.0, r.value.1)];
        day := day + 1;
      }
      return Success(days), totalPnl;
    }
  }
}
