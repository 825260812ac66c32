/** The older battery (scripts/battery.py). It shares the efficiency and
    degradation formulas with the newer one, but counts cycles differently:
    once the energy cycled reaches the capacity it adds one cycle and takes
    one capacity's worth of energy off the counter. It keeps no initial soc. */
module LegacyBattery {
  import opened Wrappers
  import opened AssetsBattery

  /** A rate given as None or 0 (falsy) falls back to the capacity. */
  function ResolveRate(rate: Option<real>, capacityMwh: Positive): (r: real)
    ensures r != 0.0
    ensures rate.Some? && rate.value != 0.0 ==> r == rate.value
    ensures (rate.None? || rate.value == 0.0) ==> r == capacityMwh
  {
    if rate.Some? && rate.value != 0.0 then rate.value else capacityMwh
  }

  datatype LegacyParams = LegacyParams(
    capacityMwh: Positive,
    maxChargeRateMw: real,
    maxDischargeRateMw: real,
    durationHours: real,
    temperatureC: real)
  {
    function ChargeBudget(): real { maxChargeRateMw * durationHours }
    function DischargeBudget(): real { maxDischargeRateMw * durationHours }

    /** Non-negative budgets of at most one capacity (the defaults give exactly
        one) and at most 100000 MWh, so one call degrades soh by a factor in [0, 1]. */
    predicate Sane() {
      0.0 <= ChargeBudget() <= capacityMwh && 0.0 <= DischargeBudget() <= capacityMwh
      && capacityMwh <= 100000.0
    }
  }

  datatype LegacyState = LegacyState(
    soc: real,
    soh: real,
    chargeEfficiency: real,
    dischargeEfficiency: real,
    energyCycledMwh: real,
    cycleCount: real,
    lastCycleSoc: real)
  {
    /** The ranges the battery keeps: the cycle counter holds less than one
        capacity of energy once a cycle check has run. */
    predicate InRange(capacityMwh: real) {
      0.0 <= soc <= 1.0 && 0.0 <= soh <= 1.0 && 0.0 <= energyCycledMwh < capacityMwh && cycleCount >= 0.0
    }

    /** Energy accounted for by the counters: whole cycles plus the remainder. */
    function Throughput(capacityMwh: real): real {
      cycleCount * capacityMwh + energyCycledMwh
    }
  }

  /** adjust_efficiency_for_temperature. */
  function LegacyAdjustStep(p: LegacyParams, s: LegacyState): (r: LegacyState)
    ensures (r.chargeEfficiency, r.dischargeEfficiency)
            == AdjustEfficiency(p.temperatureC, s.chargeEfficiency, s.dischargeEfficiency)
    ensures r.(chargeEfficiency := s.chargeEfficiency, dischargeEfficiency := s.dischargeEfficiency) == s
  {
    var (ce, de) := AdjustEfficiency(p.temperatureC, s.chargeEfficiency, s.dischargeEfficiency);
    s.(chargeEfficiency := ce, dischargeEfficiency := de)
  }

  /** check_and_update_cycles: at most one cycle per call, and the cycle
      counter and energy counter together keep the throughput. */
  function LegacyCheckCyclesStep(p: LegacyParams, s: LegacyState): (r: LegacyState)
    ensures r.Throughput(p.capacityMwh) == s.Throughput(p.capacityMwh)
    ensures r.cycleCount == s.cycleCount + 1.0 <==> s.energyCycledMwh >= p.capacityMwh
    ensures r.cycleCount == s.cycleCount || r.cycleCount == s.cycleCount + 1.0
    ensures 0.0 <= s.energyCycledMwh < 2.0 * p.capacityMwh ==> 0.0 <= r.energyCycledMwh < p.capacityMwh
    ensures r.lastCycleSoc == s.soc
    ensures r.(cycleCount := s.cycleCount, energyCycledMwh := s.energyCycledMwh, lastCycleSoc := s.lastCycleSoc) == s
  {
    var counted := if s.energyCycledMwh >= p.capacityMwh
                   then s.(cycleCount := s.cycleCount + 1.0, energyCycledMwh := s.energyCycledMwh - p.capacityMwh)
                   else s;
    counted.(lastCycleSoc := counted.soc)
  }

  /** update_soh: the SOH calculation of the newer battery, applied in place. */
  function LegacyUpdateSohStep(s: LegacyState, energyMwh: real, dod: real): (r: LegacyState)
    ensures r.(soh := s.soh) == s
    ensures r.soh == CalculateSoh(s.soh, energyMwh, dod)
  {
    s.(soh := CalculateSoh(s.soh, energyMwh, dod))
  }

  /** The tail charge and discharge share once soc is updated: count the
      energy, age the battery by it at the new depth of discharge, check cycles. */
  function LegacyAccountStep(p: LegacyParams, s: LegacyState, energyMwh: real): (r: LegacyState)
    ensures r.Throughput(p.capacityMwh) == s.Throughput(p.capacityMwh) + energyMwh
    ensures r.soc == s.soc && r.lastCycleSoc == s.soc
    ensures r.chargeEfficiency == s.chargeEfficiency && r.dischargeEfficiency == s.dischargeEfficiency
    ensures (s.InRange(p.capacityMwh) && 0.0 <= energyMwh <= p.capacityMwh
             && BaseDegradation * energyMwh * DodFactor(1.0 - s.soc) <= 1.0)
            ==> r.InRange(p.capacityMwh) && r.soh <= s.soh
  {
    var counted := s.(energyCycledMwh := s.energyCycledMwh + energyMwh);
    var dod := 1.0 - counted.soc;
    LegacyCheckCyclesStep(p, LegacyUpdateSohStep(counted, energyMwh, dod))
  }

  /** charge: adjust efficiencies, cap the request at the rate budget, raise
      soc (capped at 1), then account for the capped request. */
  function LegacyChargeStep(p: LegacyParams, s: LegacyState, energyMwh: real): (r: LegacyState)
    ensures r.Throughput(p.capacityMwh) == s.Throughput(p.capacityMwh) + Min(energyMwh, p.ChargeBudget())
    ensures MinEfficiency <= r.chargeEfficiency <= MaxEfficiency && MinEfficiency <= r.dischargeEfficiency <= MaxEfficiency
    ensures r.lastCycleSoc == r.soc && r.soc <= 1.0
    ensures 0.0 <= s.soc <= 1.0 && energyMwh >= 0.0 && p.ChargeBudget() >= 0.0 ==> s.soc <= r.soc
    ensures s.InRange(p.capacityMwh) && energyMwh >= 0.0 && p.Sane()
            ==> r.InRange(p.capacityMwh) && r.soh <= s.soh
  {
    var adjusted := LegacyAdjustStep(p, s);
    var e := Min(energyMwh, p.ChargeBudget());
    var charged := adjusted.(soc := ChargedSoc(adjusted.soc, e, adjusted.chargeEfficiency, p.capacityMwh));
    assert energyMwh >= 0.0 && p.Sane() ==> BaseDegradation * e * DodFactor(1.0 - charged.soc) <= 1.0;
    LegacyAccountStep(p, charged, e)
  }

  /** discharge: the mirror of charge, lowering soc (floored at 0). */
  function LegacyDischargeStep(p: LegacyParams, s: LegacyState, energyMwh: real): (r: LegacyState)
    ensures r.Throughput(p.capacityMwh) == s.Throughput(p.capacityMwh) + Min(energyMwh, p.DischargeBudget())
    ensures MinEfficiency <= r.chargeEfficiency <= MaxEfficiency && MinEfficiency <= r.dischargeEfficiency <= MaxEfficiency
    ensures r.lastCycleSoc == r.soc && r.soc >= 0.0
    ensures 0.0 <= s.soc <= 1.0 && energyMwh >= 0.0 && p.DischargeBudget() >= 0.0 ==> r.soc <= s.soc
    ensures s.InRange(p.capacityMwh) && energyMwh >= 0.0 && p.Sane()
            ==> r.InRange(p.capacityMwh) && r.soh <= s.soh
  {
    var adjusted := LegacyAdjustStep(p, s);
    var e := Min(energyMwh, p.DischargeBudget());
    var discharged := adjusted.(soc := DischargedSoc(adjusted.soc, e, adjusted.dischargeEfficiency, p.capacityMwh));
    assert energyMwh >= 0.0 && p.Sane() ==> BaseDegradation * e * DodFactor(1.0 - discharged.soc) <= 1.0;
    LegacyAccountStep(p, discharged, e)
  }

  lemma LegacyChargeStepUnfold(p: LegacyParams, s: LegacyState, energyMwh: real)
    ensures var adjusted := LegacyAdjustStep(p, s);
            var e := Min(energyMwh, p.ChargeBudget());
            LegacyChargeStep(p, s, energyMwh)
            == LegacyAccountStep(p, adjusted.(soc := ChargedSoc(adjusted.soc, e, adjusted.chargeEfficiency, p.capacityMwh)), e)
  {
  }

  lemma LegacyDischargeStepUnfold(p: LegacyParams, s: LegacyState, energyMwh: real)
    ensures var adjusted := LegacyAdjustStep(p, s);
            var e := Min(energyMwh, p.DischargeBudget());
            LegacyDischargeStep(p, s, energyMwh)
            == LegacyAccountStep(p, adjusted.(soc := DischargedSoc(adjusted.soc, e, adjusted.dischargeEfficiency, p.capacityMwh)), e)
  {
  }

  class LegacyBattery {
    const capacityMwh: Positive
    const maxChargeRateMw: real
    const maxDischargeRateMw: real
    const temperatureC: real
    const durationHours: real

    var chargeEfficiency: real
    var dischargeEfficiency: real
    var soc: real
    var soh: real
    var cycleCount: real
    var lastCycleSoc: real
    var energyCycledMwh: real

    function Params(): LegacyParams {
      LegacyParams(capacityMwh, maxChargeRateMw, maxDischargeRateMw, durationHours, temperatureC)
    }

    function State(): LegacyState
      reads this
    {
      LegacyState(soc, soh, chargeEfficiency, dischargeEfficiency, energyCycledMwh, cycleCount, lastCycleSoc)
    }

    /** The Python keyword defaults, in the Python order (soh before soc). */
    constructor (capacityMwh: real, chargeEfficiency: real := 0.9, dischargeEfficiency: real := 0.9,
                 maxChargeRateMw: Option<real> := None, maxDischargeRateMw: Option<real> := None,
                 initialSoh: real := 1.0, initialSoc: real := 0.5, startingCycleCount: real := 0.0,
                 temperatureC: real := 25.0, durationHours: real := 1.0)
      requires ValidateInitialConditions(capacityMwh, initialSoc, initialSoh) == Pass
      ensures Params() == LegacyParams(capacityMwh, ResolveRate(maxChargeRateMw, capacityMwh),
                                       ResolveRate(maxDischargeRateMw, capacityMwh), durationHours, temperatureC)
      ensures State() == LegacyState(initialSoc, initialSoh, chargeEfficiency, dischargeEfficiency,
                                     0.0, startingCycleCount, initialSoc)
    {
      this.capacityMwh := capacityMwh;
      this.chargeEfficiency := chargeEfficiency;
      this.dischargeEfficiency := dischargeEfficiency;
      this.maxChargeRateMw := ResolveRate(maxChargeRateMw, capacityMwh);
      this.maxDischargeRateMw := ResolveRate(maxDischargeRateMw, capacityMwh);
      this.soc := initialSoc;
      this.soh := initialSoh;
      this.temperatureC := temperatureC;
      this.cycleCount := startingCycleCount;
      this.lastCycleSoc := initialSoc;
      this.energyCycledMwh := 0.0;
      this.durationHours := durationHours;
    }

    /** The constructor with its ValueError as a failure. */
    static method Create(capacityMwh: real, chargeEfficiency: real := 0.9, dischargeEfficiency: real := 0.9,
                         maxChargeRateMw: Option<real> := None, maxDischargeRateMw: Option<real> := None,
                         initialSoh: real := 1.0, initialSoc: real := 0.5, startingCycleCount: real := 0.0,
                         temperatureC: real := 25.0, durationHours: real := 1.0)
      returns (r: Result<LegacyBattery, BatteryError>)
      ensures r.Failure? <==> ValidateInitialConditions(capacityMwh, initialSoc, initialSoh) != Pass
      ensures r.Failure? ==> ValidateInitialConditions(capacityMwh, initialSoc, initialSoh) == Fail(r.error)
      ensures r.Success? ==> fresh(r.value)
      ensures r.Success? ==>
        r.value.Params() == LegacyParams(capacityMwh, ResolveRate(maxChargeRateMw, capacityMwh),
                                         ResolveRate(maxDischargeRateMw, capacityMwh), durationHours, temperatureC)
      ensures r.Success? ==>
        r.value.State() == LegacyState(initialSoc, initialSoh, chargeEfficiency, dischargeEfficiency,
                                       0.0, startingCycleCount, initialSoc)
    {
      var check := ValidateInitialConditions(capacityMwh, initialSoc, initialSoh);
      if check.Fail? {
        return Failure(check.error);
      }
      var b := new LegacyBattery(capacityMwh, chargeEfficiency, dischargeEfficiency, maxChargeRateMw,
                                 maxDischargeRateMw, initialSoh, initialSoc, startingCycleCount,
                                 temperatureC, durationHours);
      return Success(b);
    }

    method AdjustEfficiencyForTemperature()
      modifies this
      ensures State() == LegacyAdjustStep(Params(), old(State()))
    {
      var tempEffect := Abs(temperatureC - ReferenceTemperatureC) * EfficiencyPerDegree;
      chargeEfficiency := chargeEfficiency - tempEffect;
      dischargeEfficiency := dischargeEfficiency - tempEffect;
      chargeEfficiency := Max(MinEfficiency, Min(chargeEfficiency, MaxEfficiency));
      dischargeEfficiency := Max(MinEfficiency, Min(dischargeEfficiency, MaxEfficiency));
    }

    method Charge(energyMwh: real)
      modifies this
      ensures State() == LegacyChargeStep(Params(), old(State()), energyMwh)
    {
      AdjustEfficiencyForTemperature();
      ghost var adjusted := State();
      var chargeEnergyMwh := Min(energyMwh, Params().ChargeBudget());
      var actualChargeEnergyMwh := chargeEnergyMwh * chargeEfficiency;
      soc := Min(soc + actualChargeEnergyMwh / capacityMwh, 1.0);
      ghost var charged := State();
      assert charged == adjusted.(soc := ChargedSoc(adjusted.soc, chargeEnergyMwh, adjusted.chargeEfficiency, capacityMwh));
      Account(chargeEnergyMwh);
      LegacyChargeStepUnfold(Params(), old(State()), energyMwh);
    }

    method Discharge(energyMwh: real)
      modifies this
      ensures State() == LegacyDischargeStep(Params(), old(State()), energyMwh)
    {
      AdjustEfficiencyForTemperature();
      ghost var adjusted := State();
      var dischargeEnergyMwh := Min(energyMwh, Params().DischargeBudget());
      var actualDischargeEnergyMwh := dischargeEnergyMwh * dischargeEfficiency;
      soc := Max(soc - actualDischargeEnergyMwh / capacityMwh, 0.0);
      ghost var discharged := State();
      assert discharged == adjusted.(soc := DischargedSoc(adjusted.soc, dischargeEnergyMwh, adjusted.dischargeEfficiency, capacityMwh));
      Account(dischargeEnergyMwh);
      LegacyDischargeStepUnfold(Params(), old(State()), energyMwh);
    }

    /** The statements charge and discharge end with, after the soc update. */
    method Account(energyMwh: real)
      modifies this
      ensures State() == LegacyAccountStep(Params(), old(State()), energyMwh)
    {
      energyCycledMwh := energyCycledMwh + energyMwh;
      var dod := 1.0 - soc;
      UpdateSoh(energyMwh, dod);
      CheckAndUpdateCycles();
    }

    method CheckAndUpdateCycles()
      modifies this
      ensures State() == LegacyCheckCyclesStep(Params(), old(State()))
    {
      if energyCycledMwh >= capacityMwh {
        cycleCount := cycleCount + 1.0;
        energyCycledMwh := energyCycledMwh - capacityMwh;
      }
      lastCycleSoc := soc;
    }

    function GetSoc(): real
      reads this
    {
      soc
    }

    function GetSoh(): real
      reads this
    {
      soh
    }

    method UpdateSoh(energyCycledMwh: real, dod: real)
      modifies this
      ensures State() == LegacyUpdateSohStep(old(State()), energyCycledMwh, dod)
    {
      var degradationRate := BaseDegradation * energyCycledMwh * DodFactor(dod);
      soh := soh * (1.0 - degradationRate);
    }
  }
}
