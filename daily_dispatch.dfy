/** How a simulator turns the rows of a day's schedule into calls on the
    battery, and the battery state those calls lead to. The two simulators
    differ only in the test that picks the charge branch. */
module DailyDispatch {
  import opened Wrappers
  import opened AssetsBattery
  import opened OptimizerScheduler

  datatype Call = ChargeCall(energyMwh: real) | DischargeCall(energyMwh: real)

  /** The test on a row's Charge value that selects battery.charge. */
  datatype DispatchRule =
    | ChargeWhenNonNegative   // `Charge >= 0`, then `elif Discharge > 0`
    | ChargeWhenPositive      // `Charge > 0`, then `elif Discharge > 0`

  predicate TakesCharge(rule: DispatchRule, row: ScheduleRow) {
    match rule
    case ChargeWhenNonNegative => row.charge >= 0.0
    case ChargeWhenPositive => row.charge > 0.0
  }

  /** The call one row leads to, if any. */
  function RowCall(rule: DispatchRule, row: ScheduleRow): (c: Option<Call>)
    ensures c.Some? && c.value.ChargeCall? <==> TakesCharge(rule, row)
    ensures c.Some? && c.value.DischargeCall? <==> !TakesCharge(rule, row) && row.discharge > 0.0
    ensures c.Some? && c.value.ChargeCall? ==> c.value.energyMwh == row.charge
    ensures c.Some? && c.value.DischargeCall? ==> c.value.energyMwh == row.discharge
  {
    if TakesCharge(rule, row) then Some(ChargeCall(row.charge))
    else if row.discharge > 0.0 then Some(DischargeCall(row.discharge))
    else None
  }

  function OptionToSeq<T>(o: Option<T>): seq<T> {
    match o
    case None => []
    case Some(x) => [x]
  }

  /** The calls made for the rows, in row order. */
  function DailyCalls(rule: DispatchRule, rows: seq<ScheduleRow>): (calls: seq<Call>)
    ensures |calls| <= |rows|
  {
    if rows == [] then []
    else DailyCalls(rule, rows[..|rows| - 1]) + OptionToSeq(RowCall(rule, rows[|rows| - 1]))
  }

  /** One call on the battery: efficiencies re-derived, the energy counter
      grown by the capped request, and soc moved only in the call's direction. */
  function ApplyCall(p: BatteryParams, s: BatteryState, c: Call): (r: BatteryState)
    ensures r.EfficienciesInRange()
    ensures c.ChargeCall? ==> r.energyCycledMwh == s.energyCycledMwh + Min(c.energyMwh, p.ChargeBudget())
    ensures c.DischargeCall? ==> r.energyCycledMwh == s.energyCycledMwh + Min(c.energyMwh, p.DischargeBudget())
    ensures 0.0 <= s.soc <= 1.0 && c.energyMwh >= 0.0 && c.ChargeCall? && p.ChargeBudget() >= 0.0 ==> s.soc <= r.soc
    ensures 0.0 <= s.soc <= 1.0 && c.energyMwh >= 0.0 && c.DischargeCall? && p.DischargeBudget() >= 0.0 ==> r.soc <= s.soc
  {
    match c
    case ChargeCall(e) => ChargeStep(p, s, e)
    case DischargeCall(e) => DischargeStep(p, s, e)
  }

  /** The battery state after the calls, made in order. Every call first
      re-derives the efficiencies from the temperature, so after at least one
      call they lie in [0.5, 1]. */
  function ApplyCalls(p: BatteryParams, s: BatteryState, calls: seq<Call>): (r: BatteryState)
    ensures calls == [] ==> r == s
    ensures calls != [] ==> r.EfficienciesInRange()
  {
    if calls == [] then s
    else ApplyCall(p, ApplyCalls(p, s, calls[..|calls| - 1]), calls[|calls| - 1])
  }

  /** Non-zero efficiencies stay non-zero, whatever the calls. */
  lemma ApplyCallsKeepsLive(p: BatteryParams, s: LiveState, calls: seq<Call>)
    ensures ApplyCalls(p, s, calls).chargeEfficiency != 0.0
    ensures ApplyCalls(p, s, calls).dischargeEfficiency != 0.0
  {
  }

  lemma ApplyCallsAppend(p: BatteryParams, s: BatteryState, calls: seq<Call>, more: seq<Call>)
    requires |more| <= 1
    ensures ApplyCalls(p, s, calls + more) == if more == [] then ApplyCalls(p, s, calls)
                                              else ApplyCall(p, ApplyCalls(p, s, calls), more[0])
  {
    if more == [] {
      assert calls + more == calls;
    } else {
      assert (calls + more)[..|calls + more| - 1] == calls;
    }
  }

  lemma DailyCallsStep(rule: DispatchRule, rows: seq<ScheduleRow>, i: nat)
    requires i < |rows|
    ensures DailyCalls(rule, rows[..i + 1]) == DailyCalls(rule, rows[..i]) + OptionToSeq(RowCall(rule, rows[i]))
  {
    assert rows[..i + 1][..i] == rows[..i];
  }

  predicate EnergiesNonNegative(calls: seq<Call>) {
    forall k :: 0 <= k < |calls| ==> calls[k].energyMwh >= 0.0
  }

  /** Calls with non-negative energy keep soc and soh in [0, 1], energy
      cycled and the cycle count non-negative, and never raise soh. */
  lemma {:induction false} ApplyCallsKeepsInRange(p: BatteryParams, s: BatteryState, calls: seq<Call>)
    requires s.InRange() && p.Sane() && EnergiesNonNegative(calls)
    ensures ApplyCalls(p, s, calls).InRange()
    ensures ApplyCalls(p, s, calls).soh <= s.soh
  {
    if calls != [] {
      var init := calls[..|calls| - 1];
      assert EnergiesNonNegative(init) by {
        forall k | 0 <= k < |init| ensures init[k].energyMwh >= 0.0 {
          assert init[k] == calls[k];
        }
      }
      ApplyCallsKeepsInRange(p, s, init);
      assert calls[|calls| - 1].energyMwh >= 0.0;
    }
  }

  predicate OnlyCharges(calls: seq<Call>) {
    forall k :: 0 <= k < |calls| ==> calls[k].ChargeCall? && calls[k].energyMwh >= 0.0
  }

  /** Charge calls with non-negative energy never lower the soc. */
  lemma {:induction false} ChargeCallsNeverLowerSoc(p: BatteryParams, s: BatteryState, calls: seq<Call>)
    requires 0.0 <= s.soc <= 1.0 && p.ChargeBudget() >= 0.0 && OnlyCharges(calls)
    ensures s.soc <= ApplyCalls(p, s, calls).soc <= 1.0
  {
    if calls != [] {
      var init := calls[..|calls| - 1];
      assert OnlyCharges(init) by {
        forall k | 0 <= k < |init| ensures init[k].ChargeCall? && init[k].energyMwh >= 0.0 {
          assert init[k] == calls[k];
        }
      }
      ChargeCallsNeverLowerSoc(p, s, init);
      assert calls[|calls| - 1].ChargeCall? && calls[|calls| - 1].energyMwh >= 0.0;
    }
  }

  // ---------------------------------------------------------------------
  // The two rules over planned schedules
  // ---------------------------------------------------------------------

  function ChargedEnergy(calls: seq<Call>): real {
    if calls == [] then 0.0
    else ChargedEnergy(calls[..|calls| - 1]) + (if calls[|calls| - 1].ChargeCall? then calls[|calls| - 1].energyMwh else 0.0)
  }

  function DischargedEnergy(calls: seq<Call>): real {
    if calls == [] then 0.0
    else DischargedEnergy(calls[..|calls| - 1]) + (if calls[|calls| - 1].DischargeCall? then calls[|calls| - 1].energyMwh else 0.0)
  }

  function PlannedCharge(rows: seq<ScheduleRow>): real {
    if rows == [] then 0.0 else PlannedCharge(rows[..|rows| - 1]) + rows[|rows| - 1].charge
  }

  function PlannedDischarge(rows: seq<ScheduleRow>): real {
    if rows == [] then 0.0 else PlannedDischarge(rows[..|rows| - 1]) + rows[|rows| - 1].discharge
  }

  lemma EnergyOfAppend(calls: seq<Call>, more: seq<Call>)
    requires |more| <= 1
    ensures ChargedEnergy(calls + more) == ChargedEnergy(calls) + ChargedEnergy(more)
    ensures DischargedEnergy(calls + more) == DischargedEnergy(calls) + DischargedEnergy(more)
  {
    if more == [] {
      assert calls + more == calls;
    } else {
      assert (calls + more)[..|calls + more| - 1] == calls;
      assert more[..0] == [];
    }
  }

  /** Under `Charge >= 0`, every row whose planned charge is non-negative (all
      rows of a feasible plan) becomes a charge call: the planned discharges
      are never executed, and one call is made per row. */
  lemma {:induction false} NonNegativeRuleNeverDischarges(rows: seq<ScheduleRow>)
    requires forall i :: 0 <= i < |rows| ==> rows[i].charge >= 0.0
    ensures var calls := DailyCalls(ChargeWhenNonNegative, rows);
            && |calls| == |rows| && OnlyCharges(calls)
            && DischargedEnergy(calls) == 0.0
            && ChargedEnergy(calls) == PlannedCharge(rows)
  {
    if rows != [] {
      var init := rows[..|rows| - 1];
      NonNegativeRuleNeverDischarges(init);
      var last := RowCall(ChargeWhenNonNegative, rows[|rows| - 1]);
      EnergyOfAppend(DailyCalls(ChargeWhenNonNegative, init), OptionToSeq(last));
    }
  }

  /** Hence, under `Charge >= 0`, a day of a feasible plan can only keep or
      raise the battery's soc, whatever discharges the plan holds. */
  lemma NonNegativeRuleNeverLowersSoc(p: BatteryParams, s: BatteryState, rows: seq<ScheduleRow>)
    requires 0.0 <= s.soc <= 1.0 && p.ChargeBudget() >= 0.0
    requires forall i :: 0 <= i < |rows| ==> rows[i].charge >= 0.0
    ensures ApplyCalls(p, s, DailyCalls(ChargeWhenNonNegative, rows)).soc >= s.soc
  {
    NonNegativeRuleNeverDischarges(rows);
    ChargeCallsNeverLowerSoc(p, s, DailyCalls(ChargeWhenNonNegative, rows));
  }

  /** A row that plans only a discharge, dispatched under each rule. */
  lemma NonNegativeRuleCounterexample()
    ensures RowCall(ChargeWhenNonNegative, ScheduleRow(0, 0.0, 0.5, 0.5)) == Some(ChargeCall(0.0))
    ensures RowCall(ChargeWhenPositive, ScheduleRow(0, 0.0, 0.5, 0.5)) == Some(DischargeCall(0.5))
  {
  }

  /** A row that never charges and discharges at once. */
  predicate Exclusive(row: ScheduleRow) {
    row.charge >= 0.0 && row.discharge >= 0.0 && (row.charge == 0.0 || row.discharge == 0.0)
  }

  lemma ExclusiveRowCall(row: ScheduleRow)
    requires Exclusive(row)
    ensures var one := OptionToSeq(RowCall(ChargeWhenPositive, row));
            && EnergiesNonNegative(one)
            && ChargedEnergy(one) == row.charge && DischargedEnergy(one) == row.discharge
  {
    var one := OptionToSeq(RowCall(ChargeWhenPositive, row));
    if one != [] {
      assert one[..0] == [];
    }
  }

  lemma EnergiesNonNegativeAppend(calls: seq<Call>, more: seq<Call>)
    requires EnergiesNonNegative(calls) && EnergiesNonNegative(more)
    ensures EnergiesNonNegative(calls + more)
  {
    forall k | 0 <= k < |calls + more| ensures (calls + more)[k].energyMwh >= 0.0 {
      if k >= |calls| {
        assert (calls + more)[k] == more[k - |calls|];
      }
    }
  }

  /** Under `Charge > 0`, a plan whose rows never charge and discharge at once
      is executed as planned: the energy requested of charge and of discharge
      equals the plan's totals. */
  lemma {:induction false} PositiveRuleFollowsPlan(rows: seq<ScheduleRow>)
    requires forall i :: 0 <= i < |rows| ==> Exclusive(rows[i])
    ensures var calls := DailyCalls(ChargeWhenPositive, rows);
            && EnergiesNonNegative(calls)
            && ChargedEnergy(calls) == PlannedCharge(rows)
            && DischargedEnergy(calls) == PlannedDischarge(rows)
  {
    if rows != [] {
      var init := rows[..|rows| - 1];
      var row := rows[|rows| - 1];
      assert forall i :: 0 <= i < |init| ==> init[i] == rows[i];
      PositiveRuleFollowsPlan(init);
      var before := DailyCalls(ChargeWhenPositive, init);
      var one := OptionToSeq(RowCall(ChargeWhenPositive, row));
      assert DailyCalls(ChargeWhenPositive, rows) == before + one;
      ExclusiveRowCall(row);
      EnergyOfAppend(before, one);
      EnergiesNonNegativeAppend(before, one);
    }
  }
}
