/** The second scheduler (scripts/scheduler_2.py): the same LP as the newer
    optimizer package, built from whatever battery object it is handed, and
    an empty schedule instead of an exception when the solve is not optimal. */
module Scheduler2 {
  import opened Wrappers
  import opened AssetsBattery
  import opened OptimizerModel
  import opened OptimizerScheduler
  import opened LegacyBattery

  /** The attributes the builder reads from its battery. The initial soc is
      optional: only the newer battery object has one. */
  datatype BuilderBattery = BuilderBattery(
    capacityMwh: Positive,
    chargeEfficiency: real,
    dischargeEfficiency: real,
    initialSoc: Option<real>)

  /** The newer battery seen by the builder. */
  function FromBattery(p: BatteryParams, s: LiveState): (b: BuilderBattery)
    ensures b.initialSoc == Some(p.initialSoc) && b.chargeEfficiency != 0.0 && b.dischargeEfficiency != 0.0
  {
    BuilderBattery(p.capacityMwh, s.chargeEfficiency, s.dischargeEfficiency, Some(p.initialSoc))
  }

  /** The battery this module imports (scripts/battery.py), seen by the
      builder: it keeps only its current soc, no initial soc. */
  function FromLegacyBattery(p: LegacyParams, s: LegacyState): (b: BuilderBattery)
    ensures b.initialSoc.None? && b.capacityMwh == p.capacityMwh
  {
    BuilderBattery(p.capacityMwh, s.chargeEfficiency, s.dischargeEfficiency, None)
  }

  datatype Build2Error =
    | NoIntervals2        // soc_vars[0] of an empty horizon (a KeyError)
    | MissingInitialSoc   // battery.initial_soc does not exist (an AttributeError)

  /** build_model over every price. The initial-soc constraint looks up
      soc_vars[0] before it reads battery.initial_soc. */
  function BuildModel2(prices: seq<real>, b: BuilderBattery, timestepHours: real, maxCycles: real)
    : (r: Result<LpModel, Build2Error>)
    requires b.chargeEfficiency != 0.0 && b.dischargeEfficiency != 0.0 && timestepHours != 0.0
    ensures |prices| == 0 ==> r == Failure(NoIntervals2)
    ensures |prices| >= 1 && b.initialSoc.None? ==> r == Failure(MissingInitialSoc)
    ensures r.Success? <==> |prices| >= 1 && b.initialSoc.Some?
    ensures r.Success? ==> r.value.WellFormed() && r.value.prices == prices
                           && r.value.initialSoc == b.initialSoc.value
                           && r.value.capacityMwh == b.capacityMwh
  {
    if |prices| == 0 then Failure(NoIntervals2)
    else match b.initialSoc
      case None => Failure(MissingInitialSoc)
      case Some(soc0) =>
        Success(LpModel(|prices|, prices, b.capacityMwh, b.chargeEfficiency, b.dischargeEfficiency,
                        soc0, timestepHours, maxCycles))
  }

  /** For the newer battery the two builders produce the same model. */
  lemma BuildersAgree(prices: seq<real>, p: BatteryParams, s: LiveState, timestepHours: real, maxCycles: real)
    requires timestepHours != 0.0 && |prices| >= 1
    ensures BuildModel2(prices, FromBattery(p, s), timestepHours, maxCycles)
            == Success(ModelFor(prices, p, s, timestepHours, maxCycles).value)
  {
    assert prices[..|prices|] == prices;
  }

  /** create_schedule: one-hour intervals, at most 5 cycles; an optimal solve
      is extracted, any other solve gives an empty schedule. */
  function CreateSchedule2(prices: seq<real>, b: BuilderBattery, solve: Solver): (r: Result<seq<ScheduleRow>, Build2Error>)
    requires b.chargeEfficiency != 0.0 && b.dischargeEfficiency != 0.0
    ensures r.Failure? <==> BuildModel2(prices, b, 1.0, 5.0).Failure?
    ensures r.Failure? ==> r.error == BuildModel2(prices, b, 1.0, 5.0).error
    ensures r.Success? ==>
      var m := BuildModel2(prices, b, 1.0, 5.0).value;
      && (solve(m).IsOptimal() ==> |r.value| == |prices| && forall i :: 0 <= i < |r.value| ==> r.value[i].interval == i)
      && (!solve(m).IsOptimal() ==> r.value == [])
  {
    match BuildModel2(prices, b, 1.0, 5.0)
    case Failure(e) => Failure(e)
    case Success(m) =>
      var result := solve(m);
      if result.IsOptimal() then Success(ExtractSchedule(result.solution, m.numIntervals))
      else Success([])
  }

  /** The battery this scheduler imports can never be scheduled: every
      non-empty price list fails on the missing initial soc. */
  lemma LegacyBatteryNeverScheduled(prices: seq<real>, p: LegacyParams, s: LegacyState, solve: Solver)
    requires s.chargeEfficiency != 0.0 && s.dischargeEfficiency != 0.0 && |prices| >= 1
    ensures CreateSchedule2(prices, FromLegacyBattery(p, s), solve) == Failure(MissingInitialSoc)
  {
  }

  /** Handed the newer battery, the second scheduler returns what the newer
      scheduler returns whenever the solve is optimal, and an empty schedule
      exactly where the newer one raises. */
  lemma Scheduler2MatchesNewerScheduler(prices: seq<real>, p: BatteryParams, s: LiveState, solve: Solver)
    requires |prices| >= 1
    ensures var newer := CreateSchedule(prices, p, s, solve, 1.0, 5.0);
            var second := CreateSchedule2(prices, FromBattery(p, s), solve);
            && second.Success?
            && (newer.Success? ==> second.value == newer.value)
            && (newer.Failure? ==> second.value == [])
  {
    BuildersAgree(prices, p, s, 1.0, 5.0);
  }

  /** With a sound solver, a non-empty schedule starts at the battery's
      initial soc and keeps every row within the limits. */
  lemma Schedule2WithinLimits(prices: seq<real>, b: BuilderBattery, solve: Solver)
    requires b.chargeEfficiency != 0.0 && b.dischargeEfficiency != 0.0 && SoundSolver(solve)
    requires CreateSchedule2(prices, b, solve).Success? && CreateSchedule2(prices, b, solve).value != []
    ensures var rows := CreateSchedule2(prices, b, solve).value;
            && rows[0].soc == b.initialSoc.value
            && forall i :: 0 <= i < |rows| ==> RowWithinLimits(rows[i], b.capacityMwh)
  {
    var m := BuildModel2(prices, b, 1.0, 5.0).value;
    assert solve(m).IsOptimal();
    assert Feasible(m, solve(m).solution);
    ExtractedScheduleFollowsModel(m, solve(m).solution);
  }
}
