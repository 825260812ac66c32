/** The battery asset: temperature-dependent efficiency, state-of-health
    degradation, and the Battery object whose charge and discharge calls
    update its state of charge, health and cycle bookkeeping in place. */
module AssetsBattery {
  import opened Wrappers

  type Positive = r: real | r > 0.0 witness 1.0

  const ReferenceTemperatureC: real := 25.0
  const EfficiencyPerDegree: real := 0.01
  const MinEfficiency: real := 0.5
  const MaxEfficiency: real := 1.0
  const BaseDegradation: real := 0.000005

  function Abs(x: real): real { if x < 0.0 then -x else x }
  function Min(a: real, b: real): real { if a <= b then a else b }
  function Max(a: real, b: real): real { if a >= b then a else b }

  // ---------------------------------------------------------------------
  // Pluggable policies (default variants)
  // ---------------------------------------------------------------------

  /** TemperatureEfficiencyAdjuster: both efficiencies lose 1% per degree away
      from 25 C and are clamped into [0.5, 1.0]. */
  function AdjustEfficiency(temperatureC: real, chargeEfficiency: real, dischargeEfficiency: real): (r: (real, real))
    ensures MinEfficiency <= r.0 <= MaxEfficiency && MinEfficiency <= r.1 <= MaxEfficiency
    // temperature can only lower an efficiency, except where the 0.5 floor lifts it
    ensures r.0 <= chargeEfficiency || r.0 == MinEfficiency
    ensures r.1 <= dischargeEfficiency || r.1 == MinEfficiency
    ensures temperatureC == ReferenceTemperatureC
            && MinEfficiency <= chargeEfficiency <= MaxEfficiency
            && MinEfficiency <= dischargeEfficiency <= MaxEfficiency
            ==> r == (chargeEfficiency, dischargeEfficiency)
  {
    var tempEffect := Abs(temperatureC - ReferenceTemperatureC) * EfficiencyPerDegree;
    (Max(MinEfficiency, Min(chargeEfficiency - tempEffect, MaxEfficiency)),
     Max(MinEfficiency, Min(dischargeEfficiency - tempEffect, MaxEfficiency)))
  }

  /** The unit test's case: 30 C takes 0.9 down to 0.85. */
  lemma AdjustEfficiencyAtThirtyDegrees()
    ensures AdjustEfficiency(30.0, 0.9, 0.9) == (0.85, 0.85)
  {
  }

  function DodFactor(dod: real): real { if dod > 0.5 then 2.0 else 1.0 }

  /** BasicSOHCalculator: soh * (1 - 0.000005 * energy * f), f = 2 exactly when dod > 0.5. */
  function CalculateSoh(soh: real, energyCycledMwh: real, dod: real): (r: real)
    ensures energyCycledMwh == 0.0 ==> r == soh
    ensures soh >= 0.0 && energyCycledMwh >= 0.0 && BaseDegradation * energyCycledMwh * DodFactor(dod) <= 1.0
            ==> 0.0 <= r <= soh
  {
    var degradationRate := BaseDegradation * energyCycledMwh * DodFactor(dod);
    DegradationKeepsRange(soh, degradationRate);
    soh * (1.0 - degradationRate)
  }

  lemma DegradationKeepsRange(soh: real, rate: real)
    ensures soh >= 0.0 && 0.0 <= rate <= 1.0 ==> 0.0 <= soh * (1.0 - rate) <= soh
  {
    if soh >= 0.0 && 0.0 <= rate <= 1.0 {
      assert soh * (1.0 - rate) == soh - soh * rate;
      assert 0.0 <= soh * rate <= soh;
    }
  }

  /** A deep discharge (dod above one half) never degrades less than a shallow one. */
  lemma {:induction false} DeeperDischargeDegradesMore(soh: real, energyMwh: real, shallow: real, deep: real)
    requires soh >= 0.0 && energyMwh >= 0.0 && shallow <= deep
    ensures CalculateSoh(soh, energyMwh, deep) <= CalculateSoh(soh, energyMwh, shallow)
  {
    var k := BaseDegradation * energyMwh;
    assert k >= 0.0;
    assert DodFactor(shallow) <= DodFactor(deep);
    assert soh * k >= 0.0;
    assert soh * (1.0 - k * DodFactor(deep)) == soh - soh * k * DodFactor(deep);
    assert soh * (1.0 - k * DodFactor(shallow)) == soh - soh * k * DodFactor(shallow);
    assert soh * k * DodFactor(shallow) <= soh * k * DodFactor(deep);
  }

  /** The unit test's case: full health, 1 MWh at dod 0.5 (not above one half). */
  lemma CalculateSohUnitCase()
    ensures CalculateSoh(1.0, 1.0, 0.5) == 0.999995
  {
  }

  // ---------------------------------------------------------------------
  // Construction checks
  // ---------------------------------------------------------------------

  datatype BatteryError = NonPositiveCapacity | InitialSocOutOfRange | InitialSohOutOfRange

  /** The three checks run in order; the first one that fails is reported. */
  function ValidateInitialConditions(capacityMwh: real, initialSoc: real, initialSoh: real): (r: Outcome<BatteryError>)
    ensures r == Pass <==> capacityMwh > 0.0 && 0.0 <= initialSoc <= 1.0 && 0.0 <= initialSoh <= 1.0
    ensures r == Fail(NonPositiveCapacity) <==> capacityMwh <= 0.0
    ensures r == Fail(InitialSocOutOfRange) <==> capacityMwh > 0.0 && !(0.0 <= initialSoc <= 1.0)
  {
    if capacityMwh <= 0.0 then Fail(NonPositiveCapacity)
    else if !(0.0 <= initialSoc <= 1.0) then Fail(InitialSocOutOfRange)
    else if !(0.0 <= initialSoh <= 1.0) then Fail(InitialSohOutOfRange)
    else Pass
  }

  // ---------------------------------------------------------------------
  // The battery's configuration and its evolving state, as values
  // ---------------------------------------------------------------------

  /** What a Battery fixes at construction and no operation changes. */
  datatype BatteryParams = BatteryParams(
    capacityMwh: Positive,
    maxChargeRateMw: real,
    maxDischargeRateMw: real,
    durationHours: real,
    temperatureC: real,
    initialSoc: real)
  {
    /** The most energy one charge call moves. */
    function ChargeBudget(): real { maxChargeRateMw * durationHours }
    /** The most energy one discharge call moves. */
    function DischargeBudget(): real { maxDischargeRateMw * durationHours }

    /** Rate budgets that are non-negative and small enough (at most 100000 MWh
        per call) for the degradation factor of one call to stay within 1. */
    predicate Sane() {
      0.0 <= ChargeBudget() <= 100000.0 && 0.0 <= DischargeBudget() <= 100000.0
    }
  }

  /** What charge and discharge update. `lastCycleSoc` is None until the first
      cycle check, since the constructor never sets it. */
  datatype BatteryState = BatteryState(
    soc: real,
    soh: real,
    chargeEfficiency: real,
    dischargeEfficiency: real,
    energyCycledMwh: real,
    cycleCount: real,
    lastCycleSoc: Option<real>)
  {
    /** The physical ranges the battery is meant to stay in. */
    predicate InRange() {
      0.0 <= soc <= 1.0 && 0.0 <= soh <= 1.0 && energyCycledMwh >= 0.0 && cycleCount >= 0.0
    }

    predicate EfficienciesInRange() {
      MinEfficiency <= chargeEfficiency <= MaxEfficiency && MinEfficiency <= dischargeEfficiency <= MaxEfficiency
    }
  }

  /** A state whose efficiencies can be divided by (every step lands them in [0.5, 1]). */
  type LiveState = s: BatteryState | s.chargeEfficiency != 0.0 && s.dischargeEfficiency != 0.0
    witness BatteryState(0.5, 1.0, 0.9, 0.9, 0.0, 0.0, None)

  /** adjust_efficiency_for_temperature: only the two efficiencies change. */
  function TemperatureAdjustedStep(p: BatteryParams, s: BatteryState): (r: BatteryState)
    ensures r.EfficienciesInRange()
    ensures r.(chargeEfficiency := s.chargeEfficiency, dischargeEfficiency := s.dischargeEfficiency) == s
    ensures (r.chargeEfficiency, r.dischargeEfficiency)
            == AdjustEfficiency(p.temperatureC, s.chargeEfficiency, s.dischargeEfficiency)
  {
    var (ce, de) := AdjustEfficiency(p.temperatureC, s.chargeEfficiency, s.dischargeEfficiency);
    s.(chargeEfficiency := ce, dischargeEfficiency := de)
  }

  /** check_and_update_cycles: adds the CUMULATIVE energy cycled over twice the
      capacity to the cycle count on every call, and records the soc. */
  function CheckAndUpdateCyclesStep(p: BatteryParams, s: BatteryState): (r: BatteryState)
    ensures r.(cycleCount := s.cycleCount, lastCycleSoc := s.lastCycleSoc) == s
    ensures r.lastCycleSoc == Some(s.soc)
    ensures (r.cycleCount - s.cycleCount) * (2.0 * p.capacityMwh) == s.energyCycledMwh
    ensures s.energyCycledMwh >= 0.0 ==> r.cycleCount >= s.cycleCount
  {
    var cycles := s.energyCycledMwh / (2.0 * p.capacityMwh);
    s.(cycleCount := s.cycleCount + cycles, lastCycleSoc := Some(s.soc))
  }

  /** update_soh_and_cycles: the increment is added to energy cycled, but only
      the increment (not the new total) goes to the SOH calculator, with the
      depth of discharge taken from the soc as it stands now. */
  function UpdateSohAndCyclesStep(p: BatteryParams, s: BatteryState, energyMwh: real): (r: BatteryState)
    ensures r.soc == s.soc && r.chargeEfficiency == s.chargeEfficiency && r.dischargeEfficiency == s.dischargeEfficiency
    ensures r.energyCycledMwh == s.energyCycledMwh + energyMwh
    ensures r.soh == CalculateSoh(s.soh, energyMwh, 1.0 - s.soc)
    ensures (r.cycleCount - s.cycleCount) * (2.0 * p.capacityMwh) == s.energyCycledMwh + energyMwh
    ensures r.lastCycleSoc == Some(s.soc)
  {
    var cycled := s.(energyCycledMwh := s.energyCycledMwh + energyMwh);
    var dod := 1.0 - cycled.soc;
    CheckAndUpdateCyclesStep(p, cycled.(soh := CalculateSoh(cycled.soh, energyMwh, dod)))
  }

  lemma ProductNonNegative(x: real, y: real)
    requires x >= 0.0 && y >= 0.0
    ensures x * y >= 0.0
  {
  }

  /** The soc after charging `e` at `efficiency`, capped at 1. */
  function ChargedSoc(soc: real, e: real, efficiency: real, capacityMwh: Positive): (r: real)
    ensures r <= 1.0
    ensures soc <= 1.0 && e >= 0.0 && efficiency >= 0.0 ==> soc <= r
  {
    ChargeArithmetic(e, efficiency, capacityMwh);
    Min(soc + e * efficiency / capacityMwh, 1.0)
  }

  /** The soc after discharging `e` at `efficiency`, floored at 0. */
  function DischargedSoc(soc: real, e: real, efficiency: real, capacityMwh: Positive): (r: real)
    ensures r >= 0.0
    ensures soc >= 0.0 && e >= 0.0 && efficiency >= 0.0 ==> r <= soc
  {
    ChargeArithmetic(e, efficiency, capacityMwh);
    Max(soc - e * efficiency / capacityMwh, 0.0)
  }

  /** charge: adjust efficiencies, cap the request at the rate budget, raise
      soc by the efficiency-scaled amount (clamped at 1), then account for the
      capped request. */
  function ChargeStep(p: BatteryParams, s: BatteryState, energyMwh: real): (r: BatteryState)
    ensures r.EfficienciesInRange()
    ensures r.energyCycledMwh == s.energyCycledMwh + Min(energyMwh, p.ChargeBudget())
    ensures r.lastCycleSoc == Some(r.soc)
    ensures r.soc <= 1.0
    ensures 0.0 <= s.soc <= 1.0 && energyMwh >= 0.0 && p.ChargeBudget() >= 0.0 ==> s.soc <= r.soc
    ensures s.InRange() && energyMwh >= 0.0 && p.Sane() ==> r.InRange() && r.soh <= s.soh
  {
    var adjusted := TemperatureAdjustedStep(p, s);
    var e := Min(energyMwh, p.ChargeBudget());
    var charged := adjusted.(soc := ChargedSoc(adjusted.soc, e, adjusted.chargeEfficiency, p.capacityMwh));
    assert e >= 0.0 && p.Sane() ==> BaseDegradation * e * DodFactor(1.0 - charged.soc) <= 1.0;
    UpdateSohAndCyclesStep(p, charged, e)
  }

  /** discharge: mirror of charge; soc falls by energy * discharge efficiency
      (multiplied, not divided) and is clamped at 0. */
  function DischargeStep(p: BatteryParams, s: BatteryState, energyMwh: real): (r: BatteryState)
    ensures r.EfficienciesInRange()
    ensures r.energyCycledMwh == s.energyCycledMwh + Min(energyMwh, p.DischargeBudget())
    ensures r.lastCycleSoc == Some(r.soc)
    ensures r.soc >= 0.0
    ensures 0.0 <= s.soc <= 1.0 && energyMwh >= 0.0 && p.DischargeBudget() >= 0.0 ==> r.soc <= s.soc
    ensures s.InRange() && energyMwh >= 0.0 && p.Sane() ==> r.InRange() && r.soh <= s.soh
  {
    var adjusted := TemperatureAdjustedStep(p, s);
    var e := Min(energyMwh, p.DischargeBudget());
    var discharged := adjusted.(soc := DischargedSoc(adjusted.soc, e, adjusted.dischargeEfficiency, p.capacityMwh));
    assert e >= 0.0 && p.Sane() ==> BaseDegradation * e * DodFactor(1.0 - discharged.soc) <= 1.0;
    UpdateSohAndCyclesStep(p, discharged, e)
  }

  /** ChargeStep spelled as the composition of its three stages. */
  lemma ChargeStepUnfold(p: BatteryParams, s: BatteryState, energyMwh: real)
    ensures var adjusted := TemperatureAdjustedStep(p, s);
            var e := Min(energyMwh, p.ChargeBudget());
            ChargeStep(p, s, energyMwh)
            == UpdateSohAndCyclesStep(p, adjusted.(soc := ChargedSoc(adjusted.soc, e, adjusted.chargeEfficiency, p.capacityMwh)), e)
  {
  }

  /** DischargeStep spelled as the composition of its three stages. */
  lemma DischargeStepUnfold(p: BatteryParams, s: BatteryState, energyMwh: real)
    ensures var adjusted := TemperatureAdjustedStep(p, s);
            var e := Min(energyMwh, p.DischargeBudget());
            DischargeStep(p, s, energyMwh)
            == UpdateSohAndCyclesStep(p, adjusted.(soc := DischargedSoc(adjusted.soc, e, adjusted.dischargeEfficiency, p.capacityMwh)), e)
  {
  }

  lemma ChargeArithmetic(e: real, efficiency: real, capacity: Positive)
    ensures e >= 0.0 && efficiency >= 0.0 ==> e * efficiency / capacity >= 0.0
  {
    if e >= 0.0 && efficiency >= 0.0 {
      ProductNonNegative(e, efficiency);
    }
  }

  // ---------------------------------------------------------------------
  // The Battery object
  // ---------------------------------------------------------------------

  class Battery {
    const capacityMwh: Positive
    const maxChargeRateMw: real
    const maxDischargeRateMw: real
    const initialSoc: real
    const temperatureC: real
    const durationHours: real
    var chargeEfficiency: real
    var dischargeEfficiency: real
    var soc: real
    var soh: real
    var cycleCount: real
    var energyCycledMwh: real
    var lastCycleSoc: Option<real>

    function Params(): BatteryParams {
      BatteryParams(capacityMwh, maxChargeRateMw, maxDischargeRateMw, durationHours, temperatureC, initialSoc)
    }

    function State(): BatteryState
      reads this
    {
      BatteryState(soc, soh, chargeEfficiency, dischargeEfficiency, energyCycledMwh, cycleCount, lastCycleSoc)
    }

    /** The keyword defaults of the Python constructor are the defaults here. */
    constructor (capacityMwh: real, chargeEfficiency: real := 0.9, dischargeEfficiency: real := 0.9,
                 maxChargeRateMw: real := capacityMwh, maxDischargeRateMw: real := capacityMwh,
                 initialSoc: real := 0.5, initialSoh: real := 1.0, temperatureC: real := 25.0,
                 startingCycleCount: real := 0.0, startingEnergyCycledMwh: real := 0.0,
                 durationHours: real := 1.0)
      requires ValidateInitialConditions(capacityMwh, initialSoc, initialSoh) == Pass
      ensures Params() == BatteryParams(capacityMwh, maxChargeRateMw, maxDischargeRateMw, durationHours, temperatureC, initialSoc)
      ensures State() == BatteryState(initialSoc, initialSoh, chargeEfficiency, dischargeEfficiency,
                                      startingEnergyCycledMwh, startingCycleCount, None)
    {
      this.capacityMwh := capacityMwh;
      this.chargeEfficiency := chargeEfficiency;
      this.dischargeEfficiency := dischargeEfficiency;
      this.maxChargeRateMw := maxChargeRateMw;
      this.maxDischargeRateMw := maxDischargeRateMw;
      this.initialSoc := initialSoc;
      this.soc := initialSoc;
      this.soh := initialSoh;
      this.temperatureC := temperatureC;
      this.cycleCount := startingCycleCount;
      this.energyCycledMwh := startingEnergyCycledMwh;
      this.durationHours := durationHours;
      this.lastCycleSoc := None;
    }

    /** Construction as the Python code does it: validate, then build; a failed
        check is the ValueError the constructor raises. */
    static method Create(capacityMwh: real, chargeEfficiency: real := 0.9, dischargeEfficiency: real := 0.9,
                         maxChargeRateMw: real := capacityMwh, maxDischargeRateMw: real := capacityMwh,
                         initialSoc: real := 0.5, initialSoh: real := 1.0, temperatureC: real := 25.0,
                         startingCycleCount: real := 0.0, startingEnergyCycledMwh: real := 0.0,
                         durationHours: real := 1.0)
      returns (r: Result<Battery, BatteryError>)
      ensures r.Failure? <==> ValidateInitialConditions(capacityMwh, initialSoc, initialSoh) != Pass
      ensures r.Failure? ==> ValidateInitialConditions(capacityMwh, initialSoc, initialSoh) == Fail(r.error)
      ensures r.Success? ==> fresh(r.value)
      ensures r.Success? ==>
        r.value.Params() == BatteryParams(capacityMwh, maxChargeRateMw, maxDischargeRateMw, durationHours, temperatureC, initialSoc)
      ensures r.Success? ==>
        r.value.State() == BatteryState(initialSoc, initialSoh, chargeEfficiency, dischargeEfficiency,
                                        startingEnergyCycledMwh, startingCycleCount, None)
    {
      var check := ValidateInitialConditions(capacityMwh, initialSoc, initialSoh);
      if check.Fail? {
        return Failure(check.error);
      }
      var b := new Battery(capacityMwh, chargeEfficiency, dischargeEfficiency, maxChargeRateMw, maxDischargeRateMw,
                           initialSoc, initialSoh, temperatureC, startingCycleCount, startingEnergyCycledMwh,
                           durationHours);
      return Success(b);
    }

    method AdjustEfficiencyForTemperature()
      modifies this
      ensures State() == TemperatureAdjustedStep(Params(), old(State()))
    {
      var adjusted := AdjustEfficiency(temperatureC, chargeEfficiency, dischargeEfficiency);
      chargeEfficiency, dischargeEfficiency := adjusted.0, adjusted.1;
    }

    method Charge(energyMwh: real)
      modifies this
      ensures State() == ChargeStep(Params(), old(State()), energyMwh)
    {
      AdjustEfficiencyForTemperature();
      ghost var adjusted := State();
      var e := Min(energyMwh, Params().ChargeBudget());
      var actualEnergyMwh := e * chargeEfficiency;
      soc := Min(soc + actualEnergyMwh / capacityMwh, 1.0);
      ghost var charged := State();
      assert charged == adjusted.(soc := ChargedSoc(adjusted.soc, e, adjusted.chargeEfficiency, capacityMwh));
      UpdateSohAndCycles(e);
      ChargeStepUnfold(Params(), old(State()), energyMwh);

    }

    method Discharge(energyMwh: real)
      modifies this
      ensures State() == DischargeStep(Params(), old(State()), energyMwh)
    {
      AdjustEfficiencyForTemperature();
      ghost var adjusted := State();
      var e := Min(energyMwh, Params().DischargeBudget());
      var actualEnergyMwh := e * dischargeEfficiency;
      soc := Max(soc - actualEnergyMwh / capacityMwh, 0.0);
      ghost var discharged := State();
      assert discharged == adjusted.(soc := DischargedSoc(adjusted.soc, e, adjusted.dischargeEfficiency, capacityMwh));
      UpdateSohAndCycles(e);
      DischargeStepUnfold(Params(), old(State()), energyMwh);
    }

    method UpdateSohAndCycles(energyMwh: real)
      modifies this
      ensures State() == UpdateSohAndCyclesStep(Params(), old(State()), energyMwh)
    {
      energyCycledMwh := energyCycledMwh + energyMwh;
      var dod := 1.0 - soc;
      soh := CalculateSoh(soh, energyMwh, dod);
      CheckAndUpdateCycles();
    }

    method CheckAndUpdateCycles()
      modifies this
      ensures State() == CheckAndUpdateCyclesStep(Params(), old(State()))
    {
      var cycles := energyCycledMwh / (2.0 * capacityMwh);
      cycleCount := cycleCount + cycles;
      lastCycleSoc := Some(soc);
    }
  }

  /** The unit tests' scenarios, replayed against the contracts above. */
  method ChargeScenario()
  {
    var b := new Battery(1.0);
    b.Charge(0.5);
    assert b.soc == 0.95 && b.energyCycledMwh == 0.5;
  }

  method ChargeAboveCapacityScenario()
  {
    var b := new Battery(1.0);
    b.Charge(2.0);
    assert b.soc == 1.0 && b.energyCycledMwh == 1.0;
  }

  method DischargeScenario()
  {
    var b := new Battery(1.0);
    b.soc := 1.0;
    b.Discharge(0.5);
    assert b.soc == 0.55 && b.energyCycledMwh == 0.5;
  }

  method UpdateSohAndCyclesScenario()
  {
    var b := new Battery(1.0);
    b.soc := 1.0;
    b.UpdateSohAndCycles(0.5);
    assert b.soh < 1.0 && b.energyCycledMwh == 0.5;
  }

  method DischargeBelowZeroScenario()
  {
    var b := new Battery(1.0);
    b.Discharge(2.0);
    assert b.soc == 0.0 && b.energyCycledMwh == 1.0;
  }

  method CycleCheckScenario()
  {
    var b := new Battery(1.0);
    b.energyCycledMwh := 1.0;
    b.CheckAndUpdateCycles();
    assert b.cycleCount == 0.5 && b.energyCycledMwh == 1.0;
  }

  method InvalidSocScenario()
  {
    var bad := Battery.Create(-1.0);
    assert bad == Failure(NonPositiveCapacity);
    bad := Battery.Create(1.0, initialSoc := 1.5);
    assert bad == Failure(InitialSocOutOfRange);
    bad := Battery.Create(1.0, initialSoh := 1.5);
    assert bad == Failure(InitialSohOutOfRange);
  }
}
