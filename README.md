# OpenEnergy battery arbitrage, modelled in Dafny

OpenEnergy simulates a grid battery that trades on the electricity market.
For each day it takes the day's prices and asks a linear programme (LP) for
a charge/discharge schedule that maximises revenue within the battery's
limits. It then replays that schedule on the battery, which changes its
state of charge (soc), state of health (soh), efficiencies and cycle
counters. Finally it values the schedule against the prices that were
realised, as a profit and loss (P&L). The repository holds this pipeline
more than once, at different ages:

- the current pipeline:
  - the battery (`scripts/assets/battery.py`);
  - the LP (`scripts/optimizer/model.py`);
  - the scheduler (`scripts/optimizer/scheduler.py`);
  - the simulator and its P&L (`scripts/market_simulator/`);
- the older pipeline:
  - the battery (`scripts/battery.py`);
  - the LP scheduler (`scripts/scheduler.py`);
  - a second scheduler (`scripts/scheduler_2.py`);
  - a simulator (`scripts/energy_market_simulator.py`);
  - a label-based P&L script (`scripts/pnl.py`);
- the first prototype (`lib/script.py`);
- the sliding windows of the price forecaster (`scripts/forecast/ts_forecast.py`).

The model has one module per source file:

- `AssetsBattery`, `LegacyBattery` and `ToyScript` hold the three batteries.
- `OptimizerModel`, `LegacyScheduler` and `ToyScript` hold the three LPs:
  - the parameters;
  - a `Feasible` predicate, with one named predicate per constraint family;
  - the objective.
- `OptimizerScheduler`, `Scheduler2`, `LegacyScheduler` and `ToyScript` hold
  schedule extraction and `create_schedule`.
- `PnLCalculation`, `LegacySimulator` and `ScriptPnL` hold the P&L
  calculators.
- `MarketSimulator` and `LegacySimulator` hold the simulators.
- `TimeSeriesWindows` holds the forecaster's windows.

Some modules are shared:

- `Wrappers` has `Result`/`Option`.
- `DailyDispatch` covers how a simulator turns schedule rows into battery
  calls.
- `SimulationLoop` is the day-by-day fold that both simulators run, with its
  stop-on-first-error behaviour.

Each battery is a `class`. Its configuration is held in `const` fields and
its state in `var` fields. Every mutator is specified as
`State() == XStep(Params(), old(State()), ...)`, where XStep is a pure step
function. The step function's own contract carries the invariants: soc and
soh stay in [0, 1], soh never rises, the energy counters account for the
capped requests, and so on. The simulators are classes too. Their `Simulate`
loop is proved equal to the `RunDays` fold, and lemmas about the fold show
that the battery stays in range over any number of days.

The external LP solver (GLPK, driven by Pyomo or PuLP) is a function
parameter. What the code relies on when it reads an "optimal" result is
stated as `SoundSolver`: the result is feasible, and no feasible assignment
scores higher. Python `assert`s become `requires`. Raised exceptions become
`Result` failures: ValueError, KeyError, IndexError, the AttributeError of
the second scheduler, and a non-optimal solve.

Where the behaviour described for the system and the code disagree, the
model follows the code:

- `calculate_soh` is given the energy of the current call, not the battery's
  running total.
- The LP pins `soc[0]` to the battery's construction-time `initial_soc`, not
  to its current soc.
- The newer simulator's `Charge >= 0` test is modelled as written (see
  Findings).

## Model

| member | source | states |
|---|---|---|
| AssetsBattery.AdjustEfficiency | scripts/assets/battery.py:18-29 | the efficiencies are lowered by 0.01 per degree away from 25 °C and clamped, so both results lie in [0.5, 1]; each result is at most its input, unless the 0.5 floor lifts it; at 25 °C, inputs already in range come back unchanged |
| AssetsBattery.AdjustEfficiencyAtThirtyDegrees | scripts/assets/battery.py:24-28 | at 30 °C, efficiencies of 0.9 become 0.85 |
| AssetsBattery.CalculateSoh | scripts/assets/battery.py:46-62 | cycling no energy leaves soh unchanged; within the degradation bound, the new soh lies between 0 and the old one |
| AssetsBattery.DegradationKeepsRange | scripts/assets/battery.py:59-62 | scaling a non-negative soh by one minus a degradation rate in [0, 1] leaves it non-negative and never raises it |
| AssetsBattery.DeeperDischargeDegradesMore | scripts/assets/battery.py:59-62 | for the same energy, a deeper depth of discharge never gives a higher soh |
| AssetsBattery.CalculateSohUnitCase | scripts/assets/battery.py:59-62 | soh 1.0, 1 MWh at depth 0.5 gives 0.999995 |
| AssetsBattery.ValidateInitialConditions | scripts/assets/battery.py:126-145 | passes exactly when capacity > 0 and soc and soh lie in [0, 1]; otherwise it names the first check that fails |
| AssetsBattery.TemperatureAdjustedStep | scripts/assets/battery.py:147-156 | only the efficiencies change, and they become AdjustEfficiency of the old ones at the battery's temperature |
| AssetsBattery.CheckAndUpdateCyclesStep | scripts/assets/battery.py:196-202 | the cycle count grows by energy cycled / (2 × capacity), so it never falls for a non-negative counter; the last-cycle soc records the current soc; nothing else changes |
| AssetsBattery.UpdateSohAndCyclesStep | scripts/assets/battery.py:184-194 | the energy counter grows by the call's energy; soh is degraded by that energy at the current depth of discharge; cycles are recounted; soc and efficiencies are unchanged |
| AssetsBattery.ProductNonNegative | scripts/assets/battery.py:191-193 | the product of non-negative reals is non-negative, as the degradation bound needs |
| AssetsBattery.ChargedSoc | scripts/assets/battery.py:166-168 | charging never takes soc above 1; a non-negative charge never lowers a soc in [0, 1] |
| AssetsBattery.DischargedSoc | scripts/assets/battery.py:179-181 | discharging never takes soc below 0; a non-negative discharge never raises a soc in [0, 1] |
| AssetsBattery.ChargeStep | scripts/assets/battery.py:158-169 | the efficiencies land in [0.5, 1]; the energy counter grows by min(request, rate × duration); from an in-range state with a non-negative request, soc does not fall and stays in range and soh does not rise |
| AssetsBattery.DischargeStep | scripts/assets/battery.py:171-182 | the mirror of ChargeStep: soc does not rise and stays ≥ 0, and the energy counter grows by the capped request |
| AssetsBattery.ChargeStepUnfold | scripts/assets/battery.py:158-169 | proof helper for Battery.Charge: ChargeStep is adjust the efficiencies, set the capped soc, then account for the capped energy, in that order |
| AssetsBattery.DischargeStepUnfold | scripts/assets/battery.py:171-182 | proof helper for Battery.Discharge: DischargeStep is adjust the efficiencies, set the floored soc, then account for the capped energy, in that order |
| AssetsBattery.ChargeArithmetic | scripts/assets/battery.py:166-168 | a non-negative request at a non-negative efficiency adds a non-negative amount to the soc |
| AssetsBattery.Battery.constructor | scripts/assets/battery.py:94-123 | a validated battery starts at its initial soc and soh, with its given energy counter and cycle count, no last-cycle soc, and charge and discharge rates that default to the capacity |
| AssetsBattery.Battery.Create | scripts/assets/battery.py:94-123 | fails with the validation error exactly when ValidateInitialConditions fails; otherwise a fresh battery in its initial state |
| AssetsBattery.Battery.AdjustEfficiencyForTemperature | scripts/assets/battery.py:147-156 | the new state is TemperatureAdjustedStep of the old |
| AssetsBattery.Battery.Charge | scripts/assets/battery.py:158-169 | the new state is ChargeStep of the old |
| AssetsBattery.Battery.Discharge | scripts/assets/battery.py:171-182 | the new state is DischargeStep of the old |
| AssetsBattery.Battery.UpdateSohAndCycles | scripts/assets/battery.py:184-194 | the new state is UpdateSohAndCyclesStep of the old |
| AssetsBattery.Battery.CheckAndUpdateCycles | scripts/assets/battery.py:196-202 | the new state is CheckAndUpdateCyclesStep of the old |
| AssetsBattery.ChargeScenario | tests/unit_test/assets/test_battery.py:39-43 | charging 0.5 MWh into a fresh 1 MWh battery leaves soc 0.95 and 0.5 MWh cycled |
| AssetsBattery.DischargeScenario | tests/unit_test/assets/test_battery.py:46-51 | discharging 0.5 MWh from a full battery leaves soc 0.55 and 0.5 MWh cycled |
| AssetsBattery.UpdateSohAndCyclesScenario | tests/unit_test/assets/test_battery.py:54-59 | cycling 0.5 MWh from a full battery lowers soh below 1 and counts 0.5 MWh |
| AssetsBattery.ChargeAboveCapacityScenario | tests/unit_test/assets/test_battery.py:86-90 | a 2 MWh charge request is capped at the 1 MWh rate budget and soc stops at 1 |
| AssetsBattery.DischargeBelowZeroScenario | tests/unit_test/assets/test_battery.py:93-97 | a 2 MWh discharge request is capped at 1 MWh and soc stops at 0 |
| AssetsBattery.CycleCheckScenario | tests/unit_test/assets/test_battery.py:62-67 | 1 MWh cycled on a 1 MWh battery counts half a cycle and keeps the counter |
| AssetsBattery.InvalidSocScenario | tests/unit_test/assets/test_battery.py:77-83 | capacity −1, initial soc 1.5 and initial soh 1.5 are each rejected with their own error |
| OptimizerModel.BuildModel | scripts/optimizer/model.py:14-43 | succeeds exactly when 1 ≤ n ≤ number of prices: an empty horizon fails on soc[0], too few prices fail in the objective; the model holds the first n prices, the battery's efficiencies and its construction-time initial soc |
| OptimizerModel.WithinBounds | scripts/optimizer/model.py:55-79 | the variable bounds at one interval: charge and discharge in [0, capacity], soc in [0.05, 0.95], energy cycled ≥ 0 |
| OptimizerModel.WithinCapacity | scripts/optimizer/model.py:117-130 | charge plus discharge at most the capacity in one interval |
| OptimizerModel.SocUpdate | scripts/optimizer/model.py:132-154 | soc at t ≥ 1 is the previous soc plus the previous interval's charge × ce / capacity minus discharge / de / capacity |
| OptimizerModel.EnergyCycledUpdate | scripts/optimizer/model.py:156-176 | energy cycled at t ≥ 1 grows by the previous interval's charge × ce + discharge / de |
| OptimizerModel.Feasible | scripts/optimizer/model.py:55-205 | an assignment meets every bound and constraint of the model, with soc[0] pinned and the cycle cap on the last interval |
| OptimizerModel.ObjectiveUpTo | scripts/optimizer/model.py:81-104 | the objective's summands over the first k intervals |
| OptimizerModel.Objective | scripts/optimizer/model.py:81-115 | the maximised revenue: discharge × price × de / ts minus charge × price / (ce × ts), over all intervals |
| OptimizerModel.SocClosedForm | scripts/optimizer/model.py:132-154 | in a feasible plan, soc[t] is the initial soc plus the summed efficiency-weighted net charge of intervals 0..t-1 |
| OptimizerModel.EnergyCycledClosedForm | scripts/optimizer/model.py:156-176 | in a feasible plan, energy_cycled[t] is energy_cycled[0] plus the summed throughput of intervals 0..t-1 |
| OptimizerModel.CycledChangeNonNegative | scripts/optimizer/model.py:156-176 | with positive efficiencies, each interval's throughput term is non-negative |
| OptimizerModel.EnergyCycledNonDecreasing | scripts/optimizer/model.py:156-176 | energy cycled never decreases over the horizon |
| OptimizerModel.CycleCapEverywhere | scripts/optimizer/model.py:201-205 | the max-cycles cap, stated on the last interval only, bounds energy cycled in every interval |
| OptimizerModel.InitialSocOutsideBandInfeasible | scripts/optimizer/model.py:74-76 | an initial soc outside [0.05, 0.95] makes every assignment infeasible |
| OptimizerModel.Idle | scripts/optimizer/model.py:62-79 | the all-idle assignment has one value per interval in each variable family |
| OptimizerModel.IdleObjectiveUpTo | scripts/optimizer/model.py:91-104 | the idle plan earns 0 over any prefix |
| OptimizerModel.IdleIsFeasible | scripts/optimizer/model.py:189-205 | with an initial soc in the band and a non-negative cycle cap, idling is feasible and scores 0 |
| OptimizerModel.LastIntervalOnlyCapacityBound | scripts/optimizer/model.py:143-154 | the last interval's charge and discharge appear in no update equation, so any values within their bounds and the capacity keep a plan feasible |
| OptimizerScheduler.ExtractSchedule | scripts/optimizer/scheduler.py:17-29 | one row per interval 0..n-1, labelled with its interval |
| OptimizerScheduler.ExtractedScheduleFollowsModel | scripts/optimizer/scheduler.py:20-28 | rows read from a feasible plan start at the pinned soc, respect every bound and the capacity, and chain their soc by the update equation |
| OptimizerScheduler.ModelFor | scripts/optimizer/scheduler.py:52-60 | the model over all the prices builds exactly when there is at least one price |
| OptimizerScheduler.CreateSchedule | scripts/optimizer/scheduler.py:45-71 | no prices fails on the build; otherwise it succeeds exactly when the solve is ok and optimal, and otherwise fails with the solver's status and termination; a schedule has one row per price |
| OptimizerScheduler.CreatedScheduleWithinLimits | scripts/optimizer/scheduler.py:45-71 | with a sound solver, a returned schedule starts at the battery's initial soc and every row respects the charge, discharge, capacity and soc limits |
| OptimizerScheduler.OptimalPlanNeverLoses | scripts/optimizer/model.py:91-104 | with a sound solver and an initial soc in the band, the optimal objective is at least 0 |
| PnLCalculation.IntervalPnl | scripts/market_simulator/pnl_calculator.py:43-53 | an interval that neither charges nor discharges is worth 0; buying at a non-negative price never earns; selling never costs |
| PnLCalculation.PnL | scripts/market_simulator/pnl_calculator.py:24-54 | succeeds exactly when every realised price has a schedule row, and otherwise reports the first missing row |
| PnLCalculation.PnLUpTo | scripts/market_simulator/pnl_calculator.py:42-53 | the summed interval P&L of the first k rows |
| PnLCalculation.PnLCalculator.constructor | scripts/market_simulator/pnl_calculator.py:21-22 | keeps the battery it is given |
| PnLCalculation.PnLCalculator.Calculate | scripts/market_simulator/pnl_calculator.py:24-54 | the loop's result is PnL with the battery's current efficiencies |
| PnLCalculation.IdleScheduleEarnsNothing | scripts/market_simulator/pnl_calculator.py:43-53 | a schedule that never charges or discharges has a P&L of 0 |
| PnLCalculation.IntervalPnlMatchesObjectiveTerm | scripts/market_simulator/pnl_calculator.py:43-53 | with one-hour intervals, an interval that does not both charge and discharge is worth its objective term |
| PnLCalculation.PnLOfPlanIsObjective | scripts/optimizer/model.py:91-104 | valued at the planning prices with one-hour intervals, a feasible plan that never charges and discharges together earns its objective value over every prefix |
| PnLCalculation.PnLEqualsObjective | scripts/market_simulator/pnl_calculator.py:24-54 | the same over the whole horizon: the P&L succeeds and equals the objective |
| DailyDispatch.DailyCalls | scripts/market_simulator/energy_market_simulator.py:35-42 | at most one battery call per row |
| DailyDispatch.RowCall | scripts/market_simulator/energy_market_simulator.py:38-42 | a row makes a charge call exactly when the rule's charge test passes, a discharge call exactly when it fails and discharge > 0, and no call otherwise; the call carries the row's energy |
| DailyDispatch.ApplyCall | scripts/market_simulator/energy_market_simulator.py:39-42 | a call leaves the efficiencies in [0.5, 1], grows the energy counter by the capped request, and moves soc only in the call's direction |
| DailyDispatch.ApplyCalls | scripts/market_simulator/energy_market_simulator.py:35-42 | no calls leave the battery unchanged; any call leaves both efficiencies in [0.5, 1] |
| DailyDispatch.ApplyCallsKeepsLive | scripts/market_simulator/energy_market_simulator.py:35-42 | non-zero efficiencies stay non-zero, so the P&L's division stays defined |
| DailyDispatch.ApplyCallsAppend | scripts/market_simulator/energy_market_simulator.py:35-42 | replaying one more call applies it to the state reached so far |
| DailyDispatch.DailyCallsStep | scripts/market_simulator/energy_market_simulator.py:36-42 | one more row adds that row's call, if any |
| DailyDispatch.ApplyCallsKeepsInRange | scripts/assets/battery.py:158-194 | calls with non-negative energy keep soc, soh and the counters in range and never raise soh |
| DailyDispatch.ChargeCallsNeverLowerSoc | scripts/assets/battery.py:158-169 | non-negative charge calls never lower soc, and soc stays at most 1 |
| DailyDispatch.EnergyOfAppend | scripts/market_simulator/energy_market_simulator.py:36-41 | the energy charged and discharged is additive over call sequences |
| DailyDispatch.NonNegativeRuleNeverDischarges | scripts/market_simulator/energy_market_simulator.py:38-41 | under `Charge >= 0`, rows with non-negative charge give one charge call each: nothing is discharged, and exactly the planned charge is bought |
| DailyDispatch.NonNegativeRuleNeverLowersSoc | scripts/market_simulator/energy_market_simulator.py:38-41 | under `Charge >= 0`, such a day never lowers soc |
| DailyDispatch.NonNegativeRuleCounterexample | scripts/market_simulator/energy_market_simulator.py:39 | the row (charge 0, discharge 0.5) becomes a charge of 0 under `>= 0` and a discharge of 0.5 under `> 0` |
| DailyDispatch.ExclusiveRowCall | scripts/market_simulator/energy_market_simulator.py:38-41 | under `Charge > 0`, a row that does not both charge and discharge makes a call with exactly its planned charge and discharge |
| DailyDispatch.EnergiesNonNegativeAppend | scripts/market_simulator/energy_market_simulator.py:36-41 | non-negative energies are preserved by concatenation |
| DailyDispatch.PositiveRuleFollowsPlan | scripts/energy_market_simulator.py:56-61 | under `Charge > 0`, a day of exclusive rows charges exactly the planned charge and discharges exactly the planned discharge, with non-negative energies |
| SimulationLoop.RunDays | scripts/market_simulator/energy_market_simulator.py:51-69 | a successful run of k days yields k results dated start, start+1, … |
| SimulationLoop.RunDaysState | scripts/market_simulator/energy_market_simulator.py:55-67 | the state after k+1 days is that after k days when the run already failed, and otherwise the next day's state |
| SimulationLoop.RunDaysPreserves | scripts/market_simulator/energy_market_simulator.py:55-67 | a property of the battery state that every day keeps, whether the day succeeds or fails, holds after any number of days |
| SimulationLoop.DayKeeps | scripts/market_simulator/energy_market_simulator.py:63-65 | the day-invariant hypothesis, applied at one state and date |
| SimulationLoop.RunDaysSucceeds | scripts/market_simulator/energy_market_simulator.py:56-66 | a successful day appends its dated result |
| SimulationLoop.RunDaysFails | scripts/market_simulator/energy_market_simulator.py:56-66 | a failing day ends the run with its error and its state |
| SimulationLoop.FailureStopsTheRun | scripts/market_simulator/energy_market_simulator.py:56-66 | once a day fails, running more days changes neither the result nor the state |
| SimulationLoop.SuccessfulRunExtendsPrefix | scripts/market_simulator/energy_market_simulator.py:56-66 | the results of a successful run of k days begin with those of any shorter run |
| SimulationLoop.TotalPnlAppend | scripts/market_simulator/energy_market_simulator.py:66-67 | the total P&L is additive over days |
| MarketSimulator.DayIs | scripts/market_simulator/energy_market_simulator.py:58-65 | one day is the daily operation on that date's prices |
| MarketSimulator.DailyOperation | scripts/market_simulator/energy_market_simulator.py:44-49 | a scheduling failure leaves the battery untouched; otherwise the battery ends where the replay of the schedule leaves it, the day fails exactly when there are more realised prices than schedule rows, and a success carries the schedule and its P&L at the post-replay efficiencies |
| MarketSimulator.DayExtendsRun | scripts/market_simulator/energy_market_simulator.py:56-66 | a day's outcome extends the run by one day, as a failure or as a dated result |
| MarketSimulator.DayKeepsBatteryInRange | scripts/market_simulator/energy_market_simulator.py:44-49 | with a sound solver, a day keeps the battery in range, never raises soh, and (under `Charge >= 0`) never lowers soc |
| MarketSimulator.DayStaysWithin | scripts/market_simulator/energy_market_simulator.py:58-65 | one day that starts in range, with soh at most a bound and soc at least a bound, ends so too |
| MarketSimulator.SimulationKeepsBatteryInRange | scripts/market_simulator/energy_market_simulator.py:51-69 | over any number of days the battery stays in range, soh never rises and soc never falls |
| MarketSimulator.EnergyMarketSimulator.constructor | scripts/market_simulator/energy_market_simulator.py:15-33 | requires end ≥ start, as the assert does, and stores its collaborators |
| MarketSimulator.EnergyMarketSimulator.ProcessDailySchedule | scripts/market_simulator/energy_market_simulator.py:35-42 | the battery's new state is the replay of the rows under `Charge >= 0` |
| MarketSimulator.EnergyMarketSimulator.RunDailyOperation | scripts/market_simulator/energy_market_simulator.py:44-49 | result and new battery state are DailyOperation: schedule (failure if not optimal), replay, then value with the post-replay efficiencies |
| MarketSimulator.EnergyMarketSimulator.SimulateDay | scripts/market_simulator/energy_market_simulator.py:56-66 | one loop iteration extends RunDays by one day |
| MarketSimulator.EnergyMarketSimulator.Simulate | scripts/market_simulator/energy_market_simulator.py:51-69 | results and final battery state are RunDays over end − start + 1 days, and the total P&L is the sum of the day P&Ls |
| SimulationLoop.NumDays | scripts/market_simulator/energy_market_simulator.py:55-57 | no days when the end date is before the start; otherwise the last simulated date is the end date, as both simulators' `range((end - start).days + 1)` (also scripts/energy_market_simulator.py:73-75) |
| LegacyBattery.ResolveRate | scripts/battery.py:60-65 | a rate given as None or 0 falls back to the capacity; the result is never 0 |
| LegacyBattery.LegacyAdjustStep | scripts/battery.py:74-79 | only the efficiencies change, exactly as in AdjustEfficiency |
| LegacyBattery.LegacyCheckCyclesStep | scripts/battery.py:105-109 | at most one cycle is added, exactly when the counter reached the capacity; cycles × capacity + counter is preserved; a counter below twice the capacity ends below the capacity |
| LegacyBattery.LegacyUpdateSohStep | scripts/battery.py:117-121 | only soh changes, to CalculateSoh of it |
| LegacyBattery.LegacyAccountStep | scripts/battery.py:88-91 | throughput grows by the energy; soc and efficiencies are kept; with a bounded energy, the range invariant holds and soh does not rise |
| LegacyBattery.LegacyChargeStep | scripts/battery.py:81-91 | throughput grows by the capped request; the efficiencies land in [0.5, 1]; soc ≤ 1 and does not fall; the range invariant is kept and soh does not rise |
| LegacyBattery.LegacyDischargeStep | scripts/battery.py:93-103 | the mirror: soc ≥ 0 and does not rise, with the same invariant |
| LegacyBattery.LegacyChargeStepUnfold | scripts/battery.py:81-91 | proof helper for LegacyBattery.LegacyBattery.Charge: LegacyChargeStep is adjust, set the capped soc, account for the capped energy, in that order |
| LegacyBattery.LegacyDischargeStepUnfold | scripts/battery.py:93-103 | proof helper for LegacyBattery.LegacyBattery.Discharge: LegacyDischargeStep is adjust, set the floored soc, account for the capped energy, in that order |
| LegacyBattery.LegacyBattery.constructor | scripts/battery.py:22-72 | a validated battery starts at its initial soc and soh, no energy cycled, last-cycle soc = initial soc, and resolved rates |
| LegacyBattery.LegacyBattery.Create | scripts/battery.py:22-72 | fails with the validation error exactly when validation fails; otherwise a fresh battery with the given capacity, duration and temperature and rates resolved against the capacity, in its initial state |
| LegacyBattery.LegacyBattery.AdjustEfficiencyForTemperature | scripts/battery.py:74-79 | the new state is LegacyAdjustStep of the old |
| LegacyBattery.LegacyBattery.Charge | scripts/battery.py:81-91 | the new state is LegacyChargeStep of the old |
| LegacyBattery.LegacyBattery.Discharge | scripts/battery.py:93-103 | the new state is LegacyDischargeStep of the old |
| LegacyBattery.LegacyBattery.Account | scripts/battery.py:88-91 | the new state is LegacyAccountStep of the old |
| LegacyBattery.LegacyBattery.CheckAndUpdateCycles | scripts/battery.py:105-109 | the new state is LegacyCheckCyclesStep of the old |
| LegacyBattery.LegacyBattery.UpdateSoh | scripts/battery.py:117-121 | the new state is LegacyUpdateSohStep of the old |
| LegacyBattery.LegacyBattery.GetSoc | scripts/battery.py:111-112 | the current soc |
| LegacyBattery.LegacyBattery.GetSoh | scripts/battery.py:114-115 | the current soh |
| LegacyScheduler.BuildLegacyModel | scripts/scheduler.py:80-87 | one interval per price, and soc[0] pinned to the battery's current soc |
| LegacyScheduler.IntervalLimits | scripts/scheduler.py:30-97 | charge and discharge of one interval lie in [0, capacity] and sum to at most the capacity |
| LegacyScheduler.BoundaryLimits | scripts/scheduler.py:45-53 | soc at a boundary lies in [0.05, 0.95] and energy cycled is non-negative |
| LegacyScheduler.BoundaryUpdate | scripts/scheduler.py:99-121 | the next boundary's soc and energy cycled follow from the interval's charge and discharge |
| LegacyScheduler.LegacyFeasible | scripts/scheduler.py:30-126 | an assignment meets every bound and constraint, with soc[0] pinned to the current soc and energy cycled starting at 0 |
| LegacyScheduler.LegacyObjectiveUpTo | scripts/scheduler.py:55-78 | the objective's summands over the first k intervals |
| LegacyScheduler.LegacyObjective | scripts/scheduler.py:55-78 | the maximised revenue over all intervals |
| LegacyScheduler.LegacySocClosedForm | scripts/scheduler.py:99-110 | in a feasible plan, the soc at each boundary is the initial soc plus the summed net charge before it |
| LegacyScheduler.LegacyEnergyCycledIsThroughput | scripts/scheduler.py:112-121 | energy cycled at each boundary is the summed throughput before it (it starts at 0) |
| LegacyScheduler.LegacyDayWithinBandAndCap | scripts/scheduler.py:99-126 | the end-of-day soc lies in [0.05, 0.95], and the day's throughput is within max cycles × capacity × 2 |
| LegacyScheduler.LegacyIdle | scripts/scheduler.py:30-53 | the idle assignment has n values per interval family and n + 1 per boundary family |
| LegacyScheduler.LegacyIdleObjectiveUpTo | scripts/scheduler.py:55-78 | idling earns 0 over any prefix |
| LegacyScheduler.LegacyIdleIsFeasible | scripts/scheduler.py:80-126 | with the current soc in the band, idling is feasible and scores 0 |
| LegacyScheduler.ExtractActions | scripts/scheduler.py:155-172 | one row per interval, labelled with its interval |
| LegacyScheduler.ActionOf | scripts/scheduler.py:159-163 | "charge" exactly when charge > 0, "discharge" exactly when it does not charge but discharge > 0, "idle" otherwise |
| LegacyScheduler.ActionsDescribeFeasiblePlan | scripts/scheduler.py:155-172 | a row is idle exactly when its interval does nothing, "charge" exactly when it charges, its value is within the capacity and is always the larger of the interval's charge and discharge, so a discharge row reports its discharge and a charge row reports its charge unless the plan also discharges more in that interval |
| LegacyScheduler.CreateLegacySchedule | scripts/scheduler.py:174-186 | one row per price, whatever the solver reports |
| LegacyScheduler.LegacyScheduleDescribesPlan | scripts/scheduler.py:174-186 | with a sound solver that reports optimal, every reported value is within the capacity |
| Scheduler2.FromBattery | scripts/scheduler_2.py:68 | the newer battery offers its initial soc and its non-zero efficiencies to the builder |
| Scheduler2.FromLegacyBattery | scripts/scheduler_2.py:7 | the imported battery offers no initial soc |
| Scheduler2.BuildModel2 | scripts/scheduler_2.py:24-72 | no prices fails on soc[0]; a battery without initial soc fails; otherwise the model holds all the prices, the initial soc and the capacity |
| Scheduler2.BuildersAgree | scripts/scheduler_2.py:24-72 | for the newer battery, this builder and the optimizer package's builder give the same model |
| Scheduler2.CreateSchedule2 | scripts/scheduler_2.py:102-114 | fails exactly when the build fails; an optimal solve gives one row per price, any other solve an empty schedule |
| Scheduler2.LegacyBatteryNeverScheduled | scripts/scheduler_2.py:68 | with the imported battery, every non-empty price list fails for want of an initial soc |
| Scheduler2.Scheduler2MatchesNewerScheduler | scripts/scheduler_2.py:102-123 | with the newer battery, the result equals the optimizer package's schedule when that succeeds, and is empty when it fails |
| Scheduler2.Schedule2WithinLimits | scripts/scheduler_2.py:116-123 | with a sound solver, a non-empty schedule starts at the initial soc and keeps every row within limits |
| LegacySimulator.LegacyIntervalPnl | scripts/energy_market_simulator.py:22-32 | equals the newer interval P&L whenever discharge is non-negative; a negative discharge at a positive price is a loss |
| LegacySimulator.LegacyPnL | scripts/energy_market_simulator.py:15-33 | succeeds exactly when every realised price has a row; otherwise it reports the first missing row |
| LegacySimulator.LegacyPnLUpTo | scripts/energy_market_simulator.py:22-32 | the summed older interval P&L of the first k rows |
| LegacySimulator.LegacyPnLUpToAgrees | scripts/energy_market_simulator.py:22-32 | with non-negative discharges, the older and newer P&L agree on every prefix |
| LegacySimulator.LegacyPnLAgreesWithNewer | scripts/energy_market_simulator.py:15-33 | with non-negative discharges, the two P&L calculators agree |
| LegacySimulator.LegacyPnLCalculator.constructor | scripts/energy_market_simulator.py:12-13 | keeps the battery it is given |
| LegacySimulator.LegacyPnLCalculator.Calculate | scripts/energy_market_simulator.py:15-33 | the loop's result is LegacyPnL with the battery's current efficiencies |
| LegacySimulator.ApplyLegacyCalls | scripts/energy_market_simulator.py:54-61 | no calls leave the battery unchanged; any call leaves the efficiencies in [0.5, 1] |
| LegacySimulator.ApplyLegacyCallsAppend | scripts/energy_market_simulator.py:54-61 | one more call is applied to the state reached so far |
| LegacySimulator.PositiveRuleRequestsPositiveEnergy | scripts/energy_market_simulator.py:58-61 | under `Charge > 0`, every call requests positive energy, whatever the planner returns |
| LegacySimulator.ApplyLegacyCallsKeepsInRange | scripts/battery.py:81-109 | calls with non-negative energy keep the older battery's range invariant and never raise soh |
| LegacySimulator.LegacyDayIs | scripts/energy_market_simulator.py:76-83 | one day is the daily operation on that date's prices |
| LegacySimulator.LegacyDailyOperation | scripts/energy_market_simulator.py:63-67 | the battery ends where the `Charge > 0` replay of the plan leaves it; the day fails exactly when there are more realised prices than plan rows, and a success carries the plan and its P&L at the post-replay efficiencies |
| LegacySimulator.LegacyDayExtendsRun | scripts/energy_market_simulator.py:73-85 | a day's outcome extends the run by one day |
| LegacySimulator.LegacyDayKeepsBatteryInRange | scripts/energy_market_simulator.py:63-67 | whatever the planner returns, a day keeps the battery in range and never raises soh |
| LegacySimulator.LegacyDayStaysBelow | scripts/energy_market_simulator.py:76-83 | one day that starts in range with soh at most a bound ends so too |
| LegacySimulator.LegacySimulationKeepsBatteryInRange | scripts/energy_market_simulator.py:69-88 | over any number of days, the battery stays in range and soh never rises |
| LegacySimulator.LegacyEnergyMarketSimulator.constructor | scripts/energy_market_simulator.py:37-52 | requires end ≥ start (line 46) and stores its collaborators |
| LegacySimulator.LegacyEnergyMarketSimulator.ProcessDailySchedule | scripts/energy_market_simulator.py:54-61 | the battery's new state is the replay of the rows under `Charge > 0` |
| LegacySimulator.LegacyEnergyMarketSimulator.RunDailyOperation | scripts/energy_market_simulator.py:63-67 | result and new state are LegacyDailyOperation |
| LegacySimulator.LegacyEnergyMarketSimulator.SimulateDay | scripts/energy_market_simulator.py:73-85 | one loop iteration extends RunDays by one day |
| LegacySimulator.LegacyEnergyMarketSimulator.Simulate | scripts/energy_market_simulator.py:69-88 | results and final state are RunDays over the date range, and the total is the sum of the day P&Ls |
| ScriptPnL.ScriptPnl | lib/script.py:110-120 | with no labels or no prices, the P&L is 0 |
| ScriptPnL.LabelPnl | lib/script.py:116-119 | a "charge" label costs price × ce; any other label earns price × de |
| ScriptPnL.ScriptPnlUpTo | lib/script.py:115-120 | the summed label P&L of the first k pairs |
| ScriptPnL.CalculatePnl | lib/script.py:110-120 | the loop over zip computes ScriptPnl |
| ScriptPnL.ChargeCount | lib/script.py:116 | at most k of the first k labels are "charge" |
| ScriptPnL.ConstantPricePnl | lib/script.py:114-120 | at a constant price, the P&L is price × (de × non-charges − ce × charges) |
| ScriptPnL.HalfAndHalf | tests/test_script.py:30 | n "charge" labels then n "discharge" labels, 2n in all |
| ScriptPnL.HalfAndHalfChargeCount | tests/test_script.py:30 | the first k labels hold min(k, n) charges |
| ScriptPnL.HalfAndHalfBreaksEven | tests/test_script.py:28-36 | with equal efficiencies and a constant price, n charges then n discharges break even |
| ScriptPnL.ExtraLabelsIgnored | lib/script.py:115 | labels beyond the prices never change the P&L |
| ScriptPnL.RelabelAsCharge | lib/script.py:116-119 | relabelling one interval as "charge" changes the P&L by exactly −price × (ce + de) at that interval |
| ScriptPnL.SamePrefixSamePnl | lib/script.py:115 | two schedules that agree on the first k labels have the same P&L over k |
| ScriptPnL.AllChargeNeverEarns | lib/script.py:116-117 | at non-negative prices, an all-charge schedule never earns |
| ScriptPnL.ColumnLabels | scripts/pnl.py:22 | zip over a non-empty schedule frame sees its 3 column labels, none of which is "charge" |
| ScriptPnL.Actions | scripts/scheduler.py:157-171 | the Action column, one label per row |
| ScriptPnL.RunDailyOperation | scripts/pnl.py:30-39 | the schedule is the older scheduler's plan for a fresh 1 MWh battery (soc 0.5, efficiencies 0.9, rates of one capacity, 25 °C), one row per price, and the P&L is computed over its column labels |
| ScriptPnL.ColumnLabelPnlIgnoresSchedule | scripts/pnl.py:38 | whatever the schedule, the day's P&L is 0.9 × the sum of the first three realised prices |
| ScriptPnL.RunDailyOperationByAction | scripts/pnl.py:30-39 | the same schedule for the same fresh battery, and the P&L computed over its Action column |
| ScriptPnL.ActionPnlFollowsSchedule | scripts/pnl.py:17-27 | valued by action, an all-charge day at positive prices loses, while the column-label valuation shows a gain |
| ToyScript.ToyChargeStep | lib/script.py:16-19 | soc + mw × efficiency, capped at the capacity; from an in-range soc it does not fall and stays in range |
| ToyScript.ToyDischargeStep | lib/script.py:21-24 | soc − mw × efficiency, floored at 0; from a non-negative soc it does not rise |
| ToyScript.ToyBattery.constructor | lib/script.py:10-14 | defaults of 0.9 for both efficiencies, and soc 0 |
| ToyScript.ToyBattery.Charge | lib/script.py:16-19 | the new soc is ToyChargeStep of the old, which keeps the range and does not fall |
| ToyScript.ToyBattery.Discharge | lib/script.py:21-24 | the new soc is ToyDischargeStep of the old, which keeps the range and does not rise |
| ToyScript.ToyBattery.GetSoc | lib/script.py:26-28 | the current soc |
| ToyScript.ToyBatteryScenarios | tests/test_script.py:7-16 | charging 0.5 from empty stores 0.45; charging 1 then discharging 0.5 leaves 0.9 − 0.45 |
| ToyScript.ToySocClosedForm | lib/script.py:69-89 | in a feasible plan, soc[k] × de is soc[0] × de plus the net inflow before k |
| ToyScript.ToyIdle | lib/script.py:44-57 | the idle plan has 48 values per interval family and 49 soc values |
| ToyScript.ToyIdleObjectiveUpTo | lib/script.py:60-66 | idling earns 0 over any prefix |
| ToyScript.ToyIdleFeasibleFromAnySoc | lib/script.py:54-89 | soc[0] is free, so idling at any level in [0, capacity] is feasible and earns 0 |
| ToyScript.BuildToyModel | lib/script.py:60-66 | succeeds exactly when there are at least 48 prices (otherwise an IndexError) and keeps the first 48 |
| ToyScript.ToyFeasible | lib/script.py:44-89 | an assignment meets the bounds, the capacity constraint and the soc evolution of every interval; soc[0] is unconstrained |
| ToyScript.ToyObjectiveUpTo | lib/script.py:60-66 | the objective's summands over the first k intervals |
| ToyScript.ToyExtract | lib/script.py:95-97 | 48 labels, each "charge" exactly when its interval charges and "discharge" otherwise |
| ToyScript.IdleIntervalLabelledDischarge | lib/script.py:96 | an interval that does nothing is reported as "discharge" |
| ToyScript.ToyCreateSchedule | lib/script.py:38-98 | succeeds exactly with at least 48 prices, giving 48 labels, each "charge" or "discharge" |
| ToyScript.ToyRunDailyOperation | lib/script.py:123-132 | a fresh 1 MW battery's schedule and its label P&L at efficiency 0.9; fails exactly when there are fewer than 48 prices |
| ToyScript.ToyDayAtConstantPrice | tests/test_script.py:47-56 | at a constant realised price, the day's P&L is price × 0.9 × (48 − 2 × charges) |
| TimeSeriesWindows.PreprocessData | scripts/forecast/ts_forecast.py:17-21 | one (history, target) pair per start position, with h and f rows respectively |
| TimeSeriesWindows.PairIsContiguous | scripts/forecast/ts_forecast.py:17-21 | each history followed by its target is a contiguous run of the data |
| TimeSeriesWindows.HistoriesSlide | scripts/forecast/ts_forecast.py:17-21 | consecutive histories drop the oldest row and append the next |
| TimeSeriesWindows.WindowsCoverTheData | scripts/forecast/ts_forecast.py:17-21 | the first history starts the data and the last target ends it |
| TimeSeriesWindows.ForecastInputAsWritten | scripts/forecast/ts_forecast.py:30-33 | `df[-h:]`: h rows for h ≥ 1, the whole frame for h = 0 |
| TimeSeriesWindows.LastRows | scripts/forecast/ts_forecast.py:32 | the last h rows, for every h |
| TimeSeriesWindows.ZeroHistoryCounterexample | scripts/forecast/ts_forecast.py:32 | with h = 0 on one row, the slice gives that row where the last zero rows are empty |
| TimeSeriesWindows.ForecastInputIsLastRows | scripts/forecast/ts_forecast.py:32 | for h ≥ 1, the written slice is the last h rows |
| TimeSeriesWindows.ForecastInputIsNextHistory | scripts/forecast/ts_forecast.py:17-33 | the forecast history is the last training history when the data is extended by its future |

## Left out

- GLPK, Pyomo and PuLP are not modelled. The solver is a function parameter, and its optimality is the `SoundSolver` assumption (the `LegacySoundSolver` assumption for the older LP).
- The value Pyomo holds for a variable after a failed solve is not modelled. Each solve result carries some assignment of the right shape.
- Logging, `tqdm` progress bars, `print` and `tee` output are left out.
- Random price generation (`load_price_data`), the price models and the date arithmetic are left out. The price source is a function parameter from a day number to (forecast, realised) prices, and dates are integers.
- `main()` of `scripts/pnl.py` and of `lib/script.py` is left out, because it is only a loop of the daily operation over dates with printing.
- `TimeSeriesForecaster.train`, `evaluate`, `set_model`, `save_model` and `load_model` are left out. They are scikit-learn fitting, metrics and pickling. Only the windowing that feeds the model is modelled.
- Floating point is left out. Every quantity is an exact `real`, so rounding, NaN and overflow are not modelled.
- Python's ZeroDivisionError for a zero charge efficiency or a zero timestep is not modelled. Those inputs are excluded by `requires` (the `LiveState` subset type, and `timestepHours != 0`).
- MarketSimulator.EnergyMarketSimulator.RunDailyOperation requires that the P&L calculator holds the simulator's own battery. The Python objects could be two different batteries, and that aliasing is not modelled.
- LegacySimulator.LegacyEnergyMarketSimulator.RunDailyOperation, LegacySimulator.LegacyEnergyMarketSimulator.SimulateDay and LegacySimulator.LegacyEnergyMarketSimulator.Simulate likewise require that the P&L calculator holds the simulator's own battery. The source's calculator reads the efficiencies of whatever battery it was given (scripts/energy_market_simulator.py:12-13, 30-32), and its constructor accepts any; a calculator holding a different battery is not modelled. The same holds for MarketSimulator.EnergyMarketSimulator.SimulateDay and MarketSimulator.EnergyMarketSimulator.Simulate.
- ToyScript.ToyCreateSchedule ignores the solver status, as the prototype does. With fewer than 48 prices the IndexError is modelled as a failure.
- LegacySimulator.LegacyIntervalPnl adds `discharge × price × de` for a negative discharge too, as the source does. The model keeps that behaviour and proves it agrees with the newer calculator only for non-negative discharges.
- The planner used by `scripts/energy_market_simulator.py` is a function parameter. That file imports `BatteryOptimizationScheduler` from `scripts/scheduler.py`, which defines only `MarketScheduler`, so its scheduler cannot be resolved from the source.
- The simulators' requirement that the battery is in range and its rates are sane is a precondition of the range lemmas. It is not an assert in the source.
- AssetsBattery.BatteryParams.Sane bounds each call's rate budget by 100000 MWh. Above that, one call's degradation factor 0.000005 × energy × 2 exceeds 1 and `calculate_soh` drives soh below 0; the range lemmas say nothing about such a battery.
- LegacyBattery.LegacyParams.Sane bounds the capacity by 100000 MWh, so one call's budget (at most one capacity) keeps the degradation factor 0.000005 × energy × 2 of `update_soh` (scripts/battery.py:117-121) at or below 1; above that, soh can go below 0 and the legacy range lemmas say nothing about such a battery. It also bounds each call's rate budget by one capacity. With a larger budget, one call can leave energy_cycled at two capacities or more, and `check_and_update_cycles` (scripts/battery.py:105-109) subtracts only one capacity, so the counter stays at or above the capacity; the model does not say what the cycle count then records.
- MarketSimulator.DailyOperation plans with `CreateSchedule` for the simulator's own battery, built with the Pyomo model builder, solver and extractor, as main.py wires them. In the source the scheduler is an injected object that holds its own battery and its own builder, solver and extractor (scripts/optimizer/scheduler.py:33-43), so it could plan for a different battery or with another builder; that is not modelled. Only the solver is a parameter.
- AssetsBattery.Battery models only the default `TemperatureEfficiencyAdjuster` and `BasicSOHCalculator`. The `efficiency_adjuster` and `soh_calculator` the constructor accepts (scripts/assets/battery.py:99-100, 118-123) are not parameters of the model.
- PV assets, feature engineering, the interface (ABC) modules, the app and the stale tests are not part of this model.

## Findings

| source | as written | input that shows it | evidently intended | confidence | as-written member | corrected member |
|---|---|---|---|---|---|---|
| scripts/market_simulator/energy_market_simulator.py:39 | `if charge_value >= 0:` (with `charge_value = row["Charge"]` at line 37) takes the charge branch for every LP row, since charge ≥ 0 is a bound of the LP, so the battery is never discharged | a row with Charge 0 and Discharge 0.5 becomes `charge(0)` | `> 0`, as in scripts/energy_market_simulator.py:58, so the day follows the plan | not executed; high | DailyDispatch.NonNegativeRuleNeverDischarges | DailyDispatch.PositiveRuleFollowsPlan |
| scripts/pnl.py:38 | `calculate_pnl(schedule, …)` zips a DataFrame, which iterates its column labels ("Interval", "Action", "Value"), so every day is valued as three discharges | any non-empty schedule with at least 3 realised prices | value the "Action" column | not executed; high | ScriptPnL.ColumnLabelPnlIgnoresSchedule | ScriptPnL.ActionPnlFollowsSchedule |
| scripts/forecast/ts_forecast.py:32 | `df[-self.history_length:]` with history_length 0 is `df[0:]`, the whole frame | history_length 0 and one row of data | the last history_length rows (none) | not executed; low | TimeSeriesWindows.ZeroHistoryCounterexample | TimeSeriesWindows.ForecastInputIsNextHistory |
| scripts/scheduler_2.py:68 | the builder reads `battery.initial_soc`, but the Battery imported at line 7 (scripts/battery.py) has no such attribute, so building always raises | any non-empty price list with that battery | a battery that has an initial soc, as in scripts/assets/battery.py | not executed; medium | Scheduler2.LegacyBatteryNeverScheduled | Scheduler2.Scheduler2MatchesNewerScheduler |
