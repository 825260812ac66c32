/** The linear programme the scheduler hands to the solver: its parameters
    (taken from the battery when it is built), the feasibility conditions an
    assignment of the decision variables must meet, and the objective the
    solver maximises. */
module OptimizerModel {
  import opened Wrappers
  import opened AssetsBattery

  const SocLowerBound: real := 0.05
  const SocUpperBound: real := 0.95

  /** What build_model captures: the horizon, the prices, and the battery's
      capacity, efficiencies and INITIAL soc, plus timestep and cycle cap. */
  datatype LpModel = LpModel(
    numIntervals: nat,
    prices: seq<real>,
    capacityMwh: Positive,
    chargeEfficiency: real,
    dischargeEfficiency: real,
    initialSoc: real,
    timestepHours: real,
    maxCycles: real)
  {
    predicate WellFormed() {
      numIntervals >= 1 && |prices| == numIntervals
      && chargeEfficiency != 0.0 && dischargeEfficiency != 0.0 && timestepHours != 0.0
    }
  }

  /** Values for the four indexed variable families, one entry per interval. */
  datatype Assignment = Assignment(charge: seq<real>, discharge: seq<real>, soc: seq<real>, energyCycled: seq<real>)

  datatype BuildError =
    | NoIntervals            // the initial-soc constraint indexes soc[0], which does not exist
    | PriceIndexOutOfRange   // the objective indexes a price past the end of the list

  /** build_model. The objective is built first (indexing prices[0..n)), then
      the constraints (indexing soc[0]); each failing lookup raises. */
  function BuildModel(numIntervals: int, prices: seq<real>, p: BatteryParams, s: LiveState,
                      timestepHours: real, maxCycles: real): (r: Result<LpModel, BuildError>)
    requires timestepHours != 0.0
    ensures r.Success? <==> 1 <= numIntervals <= |prices|
    ensures numIntervals <= 0 ==> r == Failure(NoIntervals)
    ensures r.Success? ==> r.value.WellFormed() && r.value.numIntervals == numIntervals
    ensures r.Success? ==> r.value.prices == prices[..numIntervals]
    // the soc[0] pin is the battery's construction-time soc, not its current soc
    ensures r.Success? ==> r.value.initialSoc == p.initialSoc
    ensures r.Success? ==> r.value.chargeEfficiency == s.chargeEfficiency
                           && r.value.dischargeEfficiency == s.dischargeEfficiency
  {
    if numIntervals > |prices| then Failure(PriceIndexOutOfRange)
    else if numIntervals <= 0 then Failure(NoIntervals)
    else Success(LpModel(numIntervals, prices[..numIntervals], p.capacityMwh, s.chargeEfficiency,
                         s.dischargeEfficiency, p.initialSoc, timestepHours, maxCycles))
  }

  predicate Shaped(m: LpModel, a: Assignment) {
    |a.charge| == m.numIntervals && |a.discharge| == m.numIntervals
    && |a.soc| == m.numIntervals && |a.energyCycled| == m.numIntervals
  }

  /** The variable bounds of define_variables at interval t. */
  predicate WithinBounds(m: LpModel, a: Assignment, t: nat)
    requires Shaped(m, a) && t < m.numIntervals
  {
    0.0 <= a.charge[t] <= m.capacityMwh
    && 0.0 <= a.discharge[t] <= m.capacityMwh
    && SocLowerBound <= a.soc[t] <= SocUpperBound
    && a.energyCycled[t] >= 0.0
  }

  /** _charging_discharging_rule at interval t. */
  predicate WithinCapacity(m: LpModel, a: Assignment, t: nat)
    requires Shaped(m, a) && t < m.numIntervals
  {
    a.charge[t] + a.discharge[t] <= m.capacityMwh
  }

  /** The soc change caused by interval k: charge scaled by efficiency, and
      discharge DIVIDED by efficiency, both over capacity. */
  function SocChange(m: LpModel, a: Assignment, k: nat): real
    requires m.WellFormed() && Shaped(m, a) && k < m.numIntervals
  {
    a.charge[k] * m.chargeEfficiency / m.capacityMwh - a.discharge[k] / m.dischargeEfficiency / m.capacityMwh
  }

  /** The energy cycled by interval k. */
  function CycledChange(m: LpModel, a: Assignment, k: nat): real
    requires m.WellFormed() && Shaped(m, a) && k < m.numIntervals
  {
    a.charge[k] * m.chargeEfficiency + a.discharge[k] * (1.0 / m.dischargeEfficiency)
  }

  /** _soc_update_rule at t >= 1 (t = 0 is skipped). */
  predicate SocUpdate(m: LpModel, a: Assignment, t: nat)
    requires m.WellFormed() && Shaped(m, a) && 1 <= t < m.numIntervals
  {
    a.soc[t] == a.soc[t - 1] + SocChange(m, a, t - 1)
  }

  /** _energy_cycled_update_rule at t >= 1 (t = 0 is skipped). */
  predicate EnergyCycledUpdate(m: LpModel, a: Assignment, t: nat)
    requires m.WellFormed() && Shaped(m, a) && 1 <= t < m.numIntervals
  {
    a.energyCycled[t] == a.energyCycled[t - 1] + CycledChange(m, a, t - 1)
  }

  /** Every constraint of define_variables and define_constraints. */
  predicate Feasible(m: LpModel, a: Assignment)
    requires m.WellFormed()
  {
    && Shaped(m, a)
    && (forall t: nat :: t < m.numIntervals ==> WithinBounds(m, a, t))
    && a.soc[0] == m.initialSoc
    && (forall t: nat :: t < m.numIntervals ==> WithinCapacity(m, a, t))
    && (forall t: nat :: 1 <= t < m.numIntervals ==> SocUpdate(m, a, t))
    && (forall t: nat :: 1 <= t < m.numIntervals ==> EnergyCycledUpdate(m, a, t))
    && a.energyCycled[m.numIntervals - 1] <= m.maxCycles * m.capacityMwh * 2.0
  }

  /** The summand of _objective_rule at interval t. */
  function IntervalValue(m: LpModel, a: Assignment, t: nat): real
    requires m.WellFormed() && Shaped(m, a) && t < m.numIntervals
  {
    a.discharge[t] * m.prices[t] * m.dischargeEfficiency / m.timestepHours
    - a.charge[t] * m.prices[t] / (m.chargeEfficiency * m.timestepHours)
  }

  /** Sum of the first k summands. */
  function ObjectiveUpTo(m: LpModel, a: Assignment, k: nat): real
    requires m.WellFormed() && Shaped(m, a) && k <= m.numIntervals
  {
    if k == 0 then 0.0 else ObjectiveUpTo(m, a, k - 1) + IntervalValue(m, a, k - 1)
  }

  /** The maximised objective. */
  function Objective(m: LpModel, a: Assignment): real
    requires m.WellFormed() && Shaped(m, a)
  {
    ObjectiveUpTo(m, a, m.numIntervals)
  }

  /** Sum of the soc changes of intervals 0..k-1. */
  function SocChangeSum(m: LpModel, a: Assignment, k: nat): real
    requires m.WellFormed() && Shaped(m, a) && k <= m.numIntervals
  {
    if k == 0 then 0.0 else SocChangeSum(m, a, k - 1) + SocChange(m, a, k - 1)
  }

  /** Sum of the energy cycled by intervals 0..k-1. */
  function CycledChangeSum(m: LpModel, a: Assignment, k: nat): real
    requires m.WellFormed() && Shaped(m, a) && k <= m.numIntervals
  {
    if k == 0 then 0.0 else CycledChangeSum(m, a, k - 1) + CycledChange(m, a, k - 1)
  }

  // ---------------------------------------------------------------------
  // Consequences of the constraints
  // ---------------------------------------------------------------------

  /** soc[t] is the pinned initial soc plus the changes of all earlier intervals. */
  lemma {:induction false} SocClosedForm(m: LpModel, a: Assignment, t: nat)
    requires m.WellFormed() && Feasible(m, a) && t < m.numIntervals
    ensures a.soc[t] == m.initialSoc + SocChangeSum(m, a, t)
  {
    if t > 0 {
      SocClosedForm(m, a, t - 1);
      assert SocUpdate(m, a, t);
    }
  }

  /** energy_cycled[t] is energy_cycled[0] plus the energy of all earlier
      intervals; energy_cycled[0] itself is only bounded below by 0. */
  lemma {:induction false} EnergyCycledClosedForm(m: LpModel, a: Assignment, t: nat)
    requires m.WellFormed() && Feasible(m, a) && t < m.numIntervals
    ensures a.energyCycled[t] == a.energyCycled[0] + CycledChangeSum(m, a, t)
  {
    if t > 0 {
      EnergyCycledClosedForm(m, a, t - 1);
      assert EnergyCycledUpdate(m, a, t);
    }
  }

  lemma CycledChangeNonNegative(m: LpModel, a: Assignment, k: nat)
    requires m.WellFormed() && Feasible(m, a) && k < m.numIntervals
    requires m.chargeEfficiency > 0.0 && m.dischargeEfficiency > 0.0
    ensures CycledChange(m, a, k) >= 0.0
  {
    assert WithinBounds(m, a, k);
    ProductNonNegative(a.charge[k], m.chargeEfficiency);
    ProductNonNegative(a.discharge[k], 1.0 / m.dischargeEfficiency);
  }

  /** With positive efficiencies, energy cycled never decreases along the horizon. */
  lemma {:induction false} EnergyCycledNonDecreasing(m: LpModel, a: Assignment, i: nat, j: nat)
    requires m.WellFormed() && Feasible(m, a) && i <= j < m.numIntervals
    requires m.chargeEfficiency > 0.0 && m.dischargeEfficiency > 0.0
    ensures a.energyCycled[i] <= a.energyCycled[j]
  {
    if i < j {
      EnergyCycledNonDecreasing(m, a, i, j - 1);
      assert EnergyCycledUpdate(m, a, j);
      CycledChangeNonNegative(m, a, j - 1);
    }
  }

  /** The cycle cap, imposed only on the last interval, bounds every interval. */
  lemma CycleCapEverywhere(m: LpModel, a: Assignment, t: nat)
    requires m.WellFormed() && Feasible(m, a) && t < m.numIntervals
    requires m.chargeEfficiency > 0.0 && m.dischargeEfficiency > 0.0
    ensures a.energyCycled[t] <= m.maxCycles * m.capacityMwh * 2.0
  {
    EnergyCycledNonDecreasing(m, a, t, m.numIntervals - 1);
  }

  /** The pin on soc[0] and its [0.05, 0.95] bound clash when the battery's
      initial soc is outside the band: no assignment is feasible. */
  lemma InitialSocOutsideBandInfeasible(m: LpModel, a: Assignment)
    requires m.WellFormed()
    requires m.initialSoc < SocLowerBound || m.initialSoc > SocUpperBound
    ensures !Feasible(m, a)
  {
    assert Feasible(m, a) ==> WithinBounds(m, a, 0);
  }

  /** The assignment that never charges or discharges. */
  function Idle(m: LpModel): (a: Assignment)
    ensures Shaped(m, a)
  {
    Assignment(seq(m.numIntervals, _ => 0.0), seq(m.numIntervals, _ => 0.0),
               seq(m.numIntervals, _ => m.initialSoc), seq(m.numIntervals, _ => 0.0))
  }

  lemma {:induction false} IdleObjectiveUpTo(m: LpModel, k: nat)
    requires m.WellFormed() && k <= m.numIntervals
    ensures ObjectiveUpTo(m, Idle(m), k) == 0.0
  {
    if k > 0 {
      IdleObjectiveUpTo(m, k - 1);
    }
  }

  /** Staying idle is feasible whenever the initial soc is in the band and the
      cycle cap is non-negative, and it earns nothing. */
  lemma IdleIsFeasible(m: LpModel)
    requires m.WellFormed()
    requires SocLowerBound <= m.initialSoc <= SocUpperBound && m.maxCycles >= 0.0
    ensures Feasible(m, Idle(m)) && Objective(m, Idle(m)) == 0.0
  {
    var a := Idle(m);
    forall t: nat | 1 <= t < m.numIntervals ensures SocUpdate(m, a, t) && EnergyCycledUpdate(m, a, t) {
    }
    IdleObjectiveUpTo(m, m.numIntervals);
  }

  /** The last interval's charge and discharge occur in no soc or
      energy-cycled equation (those look back one step and skip t = 0), so any
      values within their bounds and the capacity keep an assignment feasible. */
  lemma LastIntervalOnlyCapacityBound(m: LpModel, a: Assignment, c: real, d: real)
    requires m.WellFormed() && Feasible(m, a)
    requires 0.0 <= c <= m.capacityMwh && 0.0 <= d <= m.capacityMwh && c + d <= m.capacityMwh
    ensures var last := m.numIntervals - 1;
            Feasible(m, a.(charge := a.charge[last := c], discharge := a.discharge[last := d]))
  {
    var last := m.numIntervals - 1;
    var b := a.(charge := a.charge[last := c], discharge := a.discharge[last := d]);
    assert Shaped(m, b) && b.soc == a.soc && b.energyCycled == a.energyCycled;
    forall t: nat | t < m.numIntervals ensures WithinBounds(m, b, t) && WithinCapacity(m, b, t) {
      assert WithinBounds(m, a, t);
      if t < last {
        assert b.charge[t] == a.charge[t] && b.discharge[t] == a.discharge[t];
        assert WithinCapacity(m, a, t);
      }
    }
    forall t: nat | 1 <= t < m.numIntervals ensures SocUpdate(m, b, t) && EnergyCycledUpdate(m, b, t) {
      assert b.charge[t - 1] == a.charge[t - 1] && b.discharge[t - 1] == a.discharge[t - 1];
      assert SocUpdate(m, a, t) && EnergyCycledUpdate(m, a, t);
    }
  }
}
