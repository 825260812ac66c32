/** The schedule produced from a solved model: the solver's report, the
    extractor that turns the solved variables into one row per interval, and
    create_schedule, which builds, solves and extracts. */
module OptimizerScheduler {
  import opened Wrappers
  import opened AssetsBattery
  import opened OptimizerModel

  datatype SolverStatus = Ok | Warning | Error | Aborted | UnknownStatus
  datatype TerminationCondition = Optimal | Infeasible | InfeasibleOrUnbounded | Unbounded | MaxIterations | OtherCondition

  /** What a solve reports, together with the variable values it left in the model. */
  datatype SolveResult = SolveResult(status: SolverStatus, termination: TerminationCondition, solution: Assignment)
  {
    predicate IsOptimal() { status == Ok && termination == Optimal }
  }

  /** The external LP solver (GLPK) is not part of this model: it is a
      parameter. Whatever it reports, it leaves a value in every variable. */
  type Solver = solve: LpModel -> SolveResult | forall m :: Shaped(m, solve(m).solution)
    witness (m: LpModel) => SolveResult(Error, OtherCondition, Idle(m))

  /** What the code relies on when it extracts a solution reported optimal:
      the solution meets every constraint and no feasible assignment scores higher. */
  ghost predicate SoundSolver(solve: Solver) {
    forall m: LpModel | m.WellFormed() && solve(m).IsOptimal() ::
      Feasible(m, solve(m).solution)
      && forall b: Assignment | Feasible(m, b) :: Objective(m, b) <= Objective(m, solve(m).solution)
  }

  /** One row of the schedule DataFrame. */
  datatype ScheduleRow = ScheduleRow(interval: nat, charge: real, discharge: real, soc: real)

  /** PyomoModelExtractor.extract_schedule: rows 0..n-1 read off the variables. */
  function ExtractSchedule(a: Assignment, n: nat): (rows: seq<ScheduleRow>)
    requires n <= |a.charge| && n <= |a.discharge| && n <= |a.soc|
    ensures |rows| == n
    ensures forall i :: 0 <= i < n ==> rows[i].interval == i
  {
    seq(n, i requires 0 <= i < n => ScheduleRow(i, a.charge[i], a.discharge[i], a.soc[i]))
  }

  /** The limits every row of a feasible plan respects. */
  predicate RowWithinLimits(row: ScheduleRow, capacityMwh: real) {
    0.0 <= row.charge <= capacityMwh && 0.0 <= row.discharge <= capacityMwh
    && row.charge + row.discharge <= capacityMwh
    && SocLowerBound <= row.soc <= SocUpperBound
  }

  /** Rows extracted from a feasible assignment start at the pinned soc, keep
      every limit, and chain their soc by the model's update equation. */
  lemma ExtractedScheduleFollowsModel(m: LpModel, a: Assignment)
    requires m.WellFormed() && Feasible(m, a)
    ensures var rows := ExtractSchedule(a, m.numIntervals);
            && rows[0].soc == m.initialSoc
            && (forall i :: 0 <= i < |rows| ==> RowWithinLimits(rows[i], m.capacityMwh))
            && (forall i :: 1 <= i < |rows| ==> rows[i].soc == rows[i - 1].soc + SocChange(m, a, i - 1))
  {
    var rows := ExtractSchedule(a, m.numIntervals);
    forall i | 0 <= i < |rows| ensures RowWithinLimits(rows[i], m.capacityMwh) {
      assert WithinBounds(m, a, i) && WithinCapacity(m, a, i);
    }
    forall i | 1 <= i < |rows| ensures rows[i].soc == rows[i - 1].soc + SocChange(m, a, i - 1) {
      assert SocUpdate(m, a, i);
    }
  }

  datatype ScheduleError =
    | BuildFailed(buildError: BuildError)
    | OptimizationFailed(status: SolverStatus, termination: TerminationCondition)

  /** The model create_schedule builds for a price list. */
  function ModelFor(prices: seq<real>, p: BatteryParams, s: LiveState, timestepHours: real, maxCycles: real): (r: Result<LpModel, BuildError>)
    requires timestepHours != 0.0
    ensures r.Success? <==> |prices| >= 1
  {
    BuildModel(|prices|, prices, p, s, timestepHours, maxCycles)
  }

  /** BatteryOptimizationScheduler.create_schedule: build over all the prices,
      solve, and extract only when the solve is ok and optimal; otherwise raise. */
  function CreateSchedule(prices: seq<real>, p: BatteryParams, s: LiveState, solve: Solver,
                          timestepHours: real := 1.0, maxCycles: real := 5.0): (r: Result<seq<ScheduleRow>, ScheduleError>)
    requires timestepHours != 0.0
    ensures |prices| == 0 ==> r == Failure(BuildFailed(NoIntervals))
    ensures |prices| >= 1 ==>
      var m := ModelFor(prices, p, s, timestepHours, maxCycles).value;
      && (r.Success? <==> solve(m).IsOptimal())
      && (r.Failure? ==> r.error == OptimizationFailed(solve(m).status, solve(m).termination))
    ensures r.Success? ==> |r.value| == |prices| && forall i :: 0 <= i < |r.value| ==> r.value[i].interval == i
  {
    match ModelFor(prices, p, s, timestepHours, maxCycles)
    case Failure(e) => Failure(BuildFailed(e))
    case Success(m) =>
      var result := solve(m);
      if result.IsOptimal() then Success(ExtractSchedule(result.solution, m.numIntervals))
      else Failure(OptimizationFailed(result.status, result.termination))
  }

  /** With a sound solver, a schedule create_schedule returns starts at the
      battery's initial soc and every row respects the charge, discharge,
      capacity and soc limits. */
  lemma CreatedScheduleWithinLimits(prices: seq<real>, p: BatteryParams, s: LiveState, solve: Solver,
                                    timestepHours: real, maxCycles: real)
    requires timestepHours != 0.0 && SoundSolver(solve)
    requires CreateSchedule(prices, p, s, solve, timestepHours, maxCycles).Success?
    ensures var rows := CreateSchedule(prices, p, s, solve, timestepHours, maxCycles).value;
            && rows[0].soc == p.initialSoc
            && forall i :: 0 <= i < |rows| ==> RowWithinLimits(rows[i], p.capacityMwh)
  {
    var m := ModelFor(prices, p, s, timestepHours, maxCycles).value;
    assert Feasible(m, solve(m).solution);
    ExtractedScheduleFollowsModel(m, solve(m).solution);
  }

  /** A sound solver never plans a loss: staying idle is feasible when the
      initial soc is in the band and the cycle cap is non-negative, and it
      scores zero. */
  lemma OptimalPlanNeverLoses(m: LpModel, solve: Solver)
    requires m.WellFormed() && SoundSolver(solve) && solve(m).IsOptimal()
    requires SocLowerBound <= m.initialSoc <= SocUpperBound && m.maxCycles >= 0.0
    ensures Objective(m, solve(m).solution) >= 0.0
  {
    IdleIsFeasible(m);
  }
}
