/** The older MarketScheduler (scripts/scheduler.py): the same arbitrage LP
    written over interval boundaries (n + 1 soc and energy-cycled values),
    pinned to the battery's CURRENT soc and to zero energy cycled, solved,
    and always read back as Action/Value rows. */
module LegacyScheduler {
  import opened Wrappers
  import opened AssetsBattery
  import opened OptimizerModel
  import opened OptimizerScheduler
  import opened LegacyBattery

  const LegacyTimestepHours: real := 0.5
  const LegacyMaxCycles: real := 5.0

  datatype LegacyLpModel = LegacyLpModel(
    numIntervals: nat,
    prices: seq<real>,
    capacityMwh: Positive,
    chargeEfficiency: real,
    dischargeEfficiency: real,
    initialSoc: real,
    timestepHours: real,
    maxCycles: real)
  {
    predicate WellFormed() {
      |prices| == numIntervals && chargeEfficiency != 0.0 && dischargeEfficiency != 0.0 && timestepHours != 0.0
    }
  }

  /** charge/discharge per interval, soc/energy cycled per boundary. */
  datatype LegacyAssignment = LegacyAssignment(charge: seq<real>, discharge: seq<real>, soc: seq<real>, energyCycled: seq<real>)

  predicate LegacyShaped(m: LegacyLpModel, a: LegacyAssignment) {
    |a.charge| == m.numIntervals && |a.discharge| == m.numIntervals
    && |a.soc| == m.numIntervals + 1 && |a.energyCycled| == m.numIntervals + 1
  }

  /** Bounds and the capacity rule at interval i. */
  predicate IntervalLimits(m: LegacyLpModel, a: LegacyAssignment, i: nat)
    requires LegacyShaped(m, a) && i < m.numIntervals
  {
    0.0 <= a.charge[i] <= m.capacityMwh && 0.0 <= a.discharge[i] <= m.capacityMwh
    && a.charge[i] + a.discharge[i] <= m.capacityMwh
  }

  /** Bounds of the boundary variables at boundary i. */
  predicate BoundaryLimits(m: LegacyLpModel, a: LegacyAssignment, i: nat)
    requires LegacyShaped(m, a) && i <= m.numIntervals
  {
    SocLowerBound <= a.soc[i] <= SocUpperBound && a.energyCycled[i] >= 0.0
  }

  function LegacySocChange(m: LegacyLpModel, a: LegacyAssignment, i: nat): real
    requires m.WellFormed() && LegacyShaped(m, a) && i < m.numIntervals
  {
    a.charge[i] * (m.chargeEfficiency / m.capacityMwh) - a.discharge[i] * (1.0 / m.dischargeEfficiency / m.capacityMwh)
  }

  function LegacyCycledChange(m: LegacyLpModel, a: LegacyAssignment, i: nat): real
    requires m.WellFormed() && LegacyShaped(m, a) && i < m.numIntervals
  {
    a.charge[i] * m.chargeEfficiency + a.discharge[i] * (1.0 / m.dischargeEfficiency)
  }

  /** soc_update_rule and energy_cycled_update_rule at interval i. */
  predicate BoundaryUpdate(m: LegacyLpModel, a: LegacyAssignment, i: nat)
    requires m.WellFormed() && LegacyShaped(m, a) && i < m.numIntervals
  {
    a.soc[i + 1] == a.soc[i] + LegacySocChange(m, a, i)
    && a.energyCycled[i + 1] == a.energyCycled[i] + LegacyCycledChange(m, a, i)
  }

  predicate LegacyFeasible(m: LegacyLpModel, a: LegacyAssignment)
    requires m.WellFormed()
  {
    && LegacyShaped(m, a)
    && (forall i: nat :: i < m.numIntervals ==> IntervalLimits(m, a, i))
    && (forall i: nat :: i <= m.numIntervals ==> BoundaryLimits(m, a, i))
    && a.soc[0] == m.initialSoc
    && a.energyCycled[0] == 0.0
    && (forall i: nat :: i < m.numIntervals ==> BoundaryUpdate(m, a, i))
    && a.energyCycled[m.numIntervals] <= m.maxCycles * m.capacityMwh * 2.0
  }

  function LegacyIntervalValue(m: LegacyLpModel, a: LegacyAssignment, i: nat): real
    requires m.WellFormed() && LegacyShaped(m, a) && i < m.numIntervals
  {
    a.discharge[i] * m.prices[i] * m.dischargeEfficiency / m.timestepHours
    - a.charge[i] * m.prices[i] / (m.chargeEfficiency * m.timestepHours)
  }

  function LegacyObjectiveUpTo(m: LegacyLpModel, a: LegacyAssignment, k: nat): real
    requires m.WellFormed() && LegacyShaped(m, a) && k <= m.numIntervals
  {
    if k == 0 then 0.0 else LegacyObjectiveUpTo(m, a, k - 1) + LegacyIntervalValue(m, a, k - 1)
  }

  function LegacyObjective(m: LegacyLpModel, a: LegacyAssignment): real
    requires m.WellFormed() && LegacyShaped(m, a)
  {
    LegacyObjectiveUpTo(m, a, m.numIntervals)
  }

  function LegacySocChangeSum(m: LegacyLpModel, a: LegacyAssignment, k: nat): real
    requires m.WellFormed() && LegacyShaped(m, a) && k <= m.numIntervals
  {
    if k == 0 then 0.0 else LegacySocChangeSum(m, a, k - 1) + LegacySocChange(m, a, k - 1)
  }

  function LegacyCycledChangeSum(m: LegacyLpModel, a: LegacyAssignment, k: nat): real
    requires m.WellFormed() && LegacyShaped(m, a) && k <= m.numIntervals
  {
    if k == 0 then 0.0 else LegacyCycledChangeSum(m, a, k - 1) + LegacyCycledChange(m, a, k - 1)
  }

  /** The model create_schedule builds: every price, the battery's capacity,
      its efficiencies and its current soc. */
  function BuildLegacyModel(prices: seq<real>, p: LegacyParams, s: LegacyState, timestepHours: real, maxCycles: real)
    : (m: LegacyLpModel)
    requires s.chargeEfficiency != 0.0 && s.dischargeEfficiency != 0.0 && timestepHours != 0.0
    ensures m.WellFormed() && m.numIntervals == |prices|
    ensures m.initialSoc == s.soc
  {
    LegacyLpModel(|prices|, prices, p.capacityMwh, s.chargeEfficiency, s.dischargeEfficiency, s.soc, timestepHours, maxCycles)
  }

  /** Boundary k's soc is the pinned soc plus the changes of the intervals before it. */
  lemma {:induction false} LegacySocClosedForm(m: LegacyLpModel, a: LegacyAssignment, k: nat)
    requires m.WellFormed() && LegacyFeasible(m, a) && k <= m.numIntervals
    ensures a.soc[k] == m.initialSoc + LegacySocChangeSum(m, a, k)
  {
    if k > 0 {
      LegacySocClosedForm(m, a, k - 1);
      assert BoundaryUpdate(m, a, k - 1);
    }
  }

  /** With energy cycled pinned to 0 at the start, boundary k's value is
      exactly the energy moved before it. */
  lemma {:induction false} LegacyEnergyCycledIsThroughput(m: LegacyLpModel, a: LegacyAssignment, k: nat)
    requires m.WellFormed() && LegacyFeasible(m, a) && k <= m.numIntervals
    ensures a.energyCycled[k] == LegacyCycledChangeSum(m, a, k)
  {
    if k > 0 {
      LegacyEnergyCycledIsThroughput(m, a, k - 1);
      assert BoundaryUpdate(m, a, k - 1);
    }
  }

  /** Every interval, the last included, is bound by the soc band and the cycle
      cap: the whole day's soc change stays in the band and the whole day's
      throughput within max_cycles * 2 capacities. */
  lemma LegacyDayWithinBandAndCap(m: LegacyLpModel, a: LegacyAssignment)
    requires m.WellFormed() && LegacyFeasible(m, a)
    ensures SocLowerBound <= m.initialSoc + LegacySocChangeSum(m, a, m.numIntervals) <= SocUpperBound
    ensures LegacyCycledChangeSum(m, a, m.numIntervals) <= m.maxCycles * m.capacityMwh * 2.0
  {
    LegacySocClosedForm(m, a, m.numIntervals);
    LegacyEnergyCycledIsThroughput(m, a, m.numIntervals);
    assert BoundaryLimits(m, a, m.numIntervals);
  }

  function LegacyIdle(m: LegacyLpModel): (a: LegacyAssignment)
    ensures LegacyShaped(m, a)
  {
    LegacyAssignment(seq(m.numIntervals, _ => 0.0), seq(m.numIntervals, _ => 0.0),
                     seq(m.numIntervals + 1, _ => m.initialSoc), seq(m.numIntervals + 1, _ => 0.0))
  }

  lemma {:induction false} LegacyIdleObjectiveUpTo(m: LegacyLpModel, k: nat)
    requires m.WellFormed() && k <= m.numIntervals
    ensures LegacyObjectiveUpTo(m, LegacyIdle(m), k) == 0.0
  {
    if k > 0 {
      LegacyIdleObjectiveUpTo(m, k - 1);
    }
  }

  /** Staying idle is feasible when the current soc is in the band and the cap
      is non-negative, and it scores zero. */
  lemma LegacyIdleIsFeasible(m: LegacyLpModel)
    requires m.WellFormed() && SocLowerBound <= m.initialSoc <= SocUpperBound && m.maxCycles >= 0.0
    ensures LegacyFeasible(m, LegacyIdle(m)) && LegacyObjective(m, LegacyIdle(m)) == 0.0
  {
    var a := LegacyIdle(m);
    forall i: nat | i < m.numIntervals ensures BoundaryUpdate(m, a, i) {
    }
    LegacyIdleObjectiveUpTo(m, m.numIntervals);
  }

  // ---------------------------------------------------------------------
  // Solving and extraction
  // ---------------------------------------------------------------------

  datatype LegacySolveResult = LegacySolveResult(status: SolverStatus, termination: TerminationCondition, solution: LegacyAssignment)
  {
    predicate IsOptimal() { status == Ok && termination == Optimal }
  }

  /** The external solver (GLPK), leaving a value in every variable. */
  type LegacySolver = solve: LegacyLpModel -> LegacySolveResult | forall m :: LegacyShaped(m, solve(m).solution)
    witness (m: LegacyLpModel) => LegacySolveResult(Error, OtherCondition, LegacyIdle(m))

  ghost predicate LegacySoundSolver(solve: LegacySolver) {
    forall m: LegacyLpModel | m.WellFormed() && solve(m).IsOptimal() ::
      LegacyFeasible(m, solve(m).solution)
      && forall b: LegacyAssignment | LegacyFeasible(m, b) :: LegacyObjective(m, b) <= LegacyObjective(m, solve(m).solution)
  }

  const ChargeAction: string := "charge"
  const DischargeAction: string := "discharge"
  const IdleAction: string := "idle"

  /** One row of the schedule DataFrame: Interval, Action, Value. */
  datatype ActionRow = ActionRow(interval: nat, action: string, value: real)

  /** The action reported for an interval: charging takes precedence, and
      an interval that does neither is idle. */
  function ActionOf(charge: real, discharge: real): (action: string)
    ensures action == ChargeAction <==> charge > 0.0
    ensures action == DischargeAction <==> charge <= 0.0 && discharge > 0.0
    ensures action == IdleAction <==> charge <= 0.0 && discharge <= 0.0
  {
    if charge > 0.0 then ChargeAction else if discharge > 0.0 then DischargeAction else IdleAction
  }

  /** _extract_schedule: an action by precedence charge, discharge, idle, and
      the larger of the two values. */
  function ExtractActions(a: LegacyAssignment, n: nat): (rows: seq<ActionRow>)
    requires n <= |a.charge| && n <= |a.discharge|
    ensures |rows| == n && forall i :: 0 <= i < n ==> rows[i].interval == i
  {
    seq(n, i requires 0 <= i < n => ActionRow(i, ActionOf(a.charge[i], a.discharge[i]), Max(a.charge[i], a.discharge[i])))
  }

  /** Rows read off a feasible assignment describe it: idle exactly when the
      interval neither charges nor discharges, the value is within the
      capacity, and it is the larger of the two amounts: the charge on charge
      rows when the plan does not also discharge, the discharge on discharge
      rows. */
  lemma ActionsDescribeFeasiblePlan(m: LegacyLpModel, a: LegacyAssignment)
    requires m.WellFormed() && LegacyFeasible(m, a)
    ensures var rows := ExtractActions(a, m.numIntervals);
            forall i :: 0 <= i < |rows| ==>
              && (rows[i].action == IdleAction <==> a.charge[i] == 0.0 && a.discharge[i] == 0.0)
              && (rows[i].action == ChargeAction <==> a.charge[i] > 0.0)
              && 0.0 <= rows[i].value <= m.capacityMwh
              && (rows[i].action == ChargeAction && a.discharge[i] == 0.0 ==> rows[i].value == a.charge[i])
              && (rows[i].action == DischargeAction ==> rows[i].value == a.discharge[i])
              && rows[i].value == Max(a.charge[i], a.discharge[i])
  {
    var rows := ExtractActions(a, m.numIntervals);
    forall i | 0 <= i < |rows|
      ensures && (rows[i].action == IdleAction <==> a.charge[i] == 0.0 && a.discharge[i] == 0.0)
              && (rows[i].action == ChargeAction <==> a.charge[i] > 0.0)
              && 0.0 <= rows[i].value <= m.capacityMwh
              && (rows[i].action == ChargeAction && a.discharge[i] == 0.0 ==> rows[i].value == a.charge[i])
              && (rows[i].action == DischargeAction ==> rows[i].value == a.discharge[i])
              && rows[i].value == Max(a.charge[i], a.discharge[i])
    {
      assert IntervalLimits(m, a, i);
    }
  }

  /** create_schedule: build with 0.5-hour intervals and a cap of 5 cycles,
      solve, and extract whatever the solver left, whatever its status. */
  function CreateLegacySchedule(prices: seq<real>, p: LegacyParams, s: LegacyState, solve: LegacySolver): (rows: seq<ActionRow>)
    requires s.chargeEfficiency != 0.0 && s.dischargeEfficiency != 0.0
    ensures |rows| == |prices|
  {
    var m := BuildLegacyModel(prices, p, s, LegacyTimestepHours, LegacyMaxCycles);
    ExtractActions(solve(m).solution, m.numIntervals)
  }

  /** When the sound solver reports optimal, the rows describe a feasible
      plan for the battery's current soc. */
  lemma LegacyScheduleDescribesPlan(prices: seq<real>, p: LegacyParams, s: LegacyState, solve: LegacySolver)
    requires s.chargeEfficiency != 0.0 && s.dischargeEfficiency != 0.0 && LegacySoundSolver(solve)
    requires solve(BuildLegacyModel(prices, p, s, LegacyTimestepHours, LegacyMaxCycles)).IsOptimal()
    ensures var rows := CreateLegacySchedule(prices, p, s, solve);
            forall i :: 0 <= i < |rows| ==> 0.0 <= rows[i].value <= p.capacityMwh
  {
    var m := BuildLegacyModel(prices, p, s, LegacyTimestepHours, LegacyMaxCycles);
    ActionsDescribeFeasiblePlan(m, solve(m).solution);
  }
}
