# Unit commitment for a dashboard fleet, modelled in Dafny

The system is a dashboard that keeps a store of generating, storage and
demand units. A button builds a 24-hour unit-commitment program over the
store and hands it to a MILP solver (cbc or glpk). The program has plants
(coal, gas, nuclear), batteries, demand units, and wind and pv farms. The
dashboard then shows the hourly dispatch and the system cost.

This project models two parts of it:

- **The program itself** (`uc_model.py`):
  - the split of the store into five role maps;
  - the 1-based hourly profile maps;
  - the static variable bounds;
  - the two-piece variable cost `vc`;
  - the objective;
  - every constraint rule, including the load/reload disjunction stated by its meaning;
  - the MODE-driven solver choice;
  - the reading of the solver's status and termination condition;
  - the results summary, written as the nested loops that fill it.

  The solver is an input, a `SolverAnswer`: its status, its termination condition and the schedule it assigns.
  The model defines feasibility and the objective of any schedule. It does not check optimality.
- **The dashboard callbacks that change state** (`pages/dashboard/callbacks.py`):
  - the name check that enables creation;
  - the checks of the numeric fields;
  - creating, updating and deleting a unit;
  - the alert list;
  - the branch in `run_model` on the model's result.

  The unit store, the alert list and the stored results are fields of one `Dashboard` class, and each callback is a method that changes them in place.

Modules and files:

| file | module | contents |
|---|---|---|
| wrappers.dfy | Wrappers | Option and Result |
| errors.dfy | Exceptions | the Python exceptions a run can raise |
| units.dfy | Units | the unit record, the horizon and every constant of the program |
| sums.dfy | Sums | finite sums over unit names and over hours 1..n |
| classify.dfy | Classify | the role partition and the profile maps |
| schedule.dfy | Schedule | the decision variables, their domains and bound functions |
| cost.dfy | Cost | `vc`, the start-up and charging terms, the objective |
| constraints.dfy | Constraints | one predicate per rule, `Feasible` |
| thermal.dfy | Thermal | what the plant rules imply |
| storage.dfy | Storage | what the battery rules imply |
| balance.dfy | Balance | what the exact demand balance implies |
| costbounds.dfy | CostBounds | the lower bound on the objective of every feasible schedule |
| results.dfy | Results | the results summary, as loops and as a function |
| solve.dfy | Solve | one run: build errors, MODE, outcome classification |
| callbacks.dfy | Callbacks | the dashboard callbacks and the `Dashboard` class |
| scenario.dfy | Scenario | one store worked through the whole model |

Points where the code's behaviour is easy to misread:

- **Negative deviation.** `power_n` is bounded by [-0.5·P, 0] (`power_n_bounds`), while `vc` has its minimum-power breakpoint at -0.1·P. The wider bound is what lets an off hour satisfy the operating-point identity (`Thermal.OffHour`).
- **Failed solves.** An infeasible model and every other unsuccessful solve return the same `False`, so the caller cannot distinguish them (`Solve.FailuresCollapse`).
- **Renewable rows in the results.** They hold power times profile and are not rounded. Only plant and battery rows pass through rounding.
- **Profile length.** It is never checked explicitly. When no plant is rated 0 and there is at least one plant or battery, a profile shorter than 24 hours that belongs to a role with units makes the program raise KeyError while it builds the demand balance (`Solve.ShortProfileRaises`). Without plants and batteries the balance is trivial, and the build raises ValueError unless a needed profile lacks hour 1 (then KeyError comes first). A plant rated 0 raises ZeroDivisionError before either (`Solve.BuildError`).
- **Order of failures.** The MODE check runs after the build, so a build error comes before a configuration error (`Solve.BuildErrorComesFirst`).
- **Zero rated power.** A plant with rated power 0 makes `vc` divide by zero, so the build raises ZeroDivisionError (`Solve.ZeroPowerPlantRaises`).
- **Trivial balance.** With no plants and no batteries, both sides of the balance are constants and the rule returns a plain truth value. The modelling library rejects that, and the build raises ValueError.

## Model

| member | source | states |
|---|---|---|
| Classify.RoleOf | uc_model.py:27-31 | coal, gas and nuclear go to the plants; demand, wind, pv and battery each go to their own role; every other tag goes to none |
| Classify.RoleMap | uc_model.py:27-31 | one role's map holds exactly the units whose tag goes to that role, with their records unchanged |
| Classify.Partition | uc_model.py:27-31 | each of the five maps holds exactly the units of its tags, with their records unchanged |
| Classify.PartitionIsDisjoint | uc_model.py:27-31 | no unit is in two role maps |
| Classify.PartitionCovers | uc_model.py:27-31 | a unit is in some role map iff its tag is one of the seven known tags, so a unit with any other tag is dropped |
| Classify.ProfileMap | uc_model.py:23-25 | the profile map has exactly the keys 1..n, and key i+1 holds list element i |
| Classify.ProfileMapHasHours | uc_model.py:23-25 | a profile map covers hours 1..24 iff its list has at least 24 entries |
| Cost.Vc | uc_model.py:51-69 | the b terms cancel, so vc = BASE + a_n·power_n + a_p·power_p; within the deviation signs vc ≥ BASE |
| Cost.SlopeValues | uc_model.py:58-64 | a_n = -2.5·BASE/P and a_p = 0.5·BASE/P |
| Cost.VcAtOperatingPoint | uc_model.py:51-69 | vc equals BASE at the operating point |
| Cost.VcAtMinPower | uc_model.py:57-61 | vc equals 1.25·BASE at minimum power (power_n = -0.1·P) |
| Cost.VcAtFullPower | uc_model.py:63-67 | vc equals 1.25·BASE at full power (power_p = 0.5·P) |
| Cost.VcAtZeroPower | uc_model.py:57-61 | vc equals 2.25·BASE at power_n = -0.5·P, where every off hour sits |
| Cost.VcSingleActivePieceIsCheapest | uc_model.py:51-69 | summing both pieces unconditionally costs at least as much as putting the whole deviation in a single piece |
| Constraints.PlantHourFeasible | uc_model.py:42-131 | defines every rule on plant k in hour h: the domains and bounds, the power limits and the operating-point identity, the ramp limits after hour 1, and the start-up logic |
| Constraints.PlantFeasible | uc_model.py:121-131 | defines the plant rules over hours 1..24 |
| Constraints.BatteryHourFeasible | uc_model.py:36-152 | defines every rule on battery k in hour h: the bounds, the volume recursion, the volume, load and reload limits, one direction at a time, and b_power = load + reload |
| Constraints.BatteryFeasible | uc_model.py:134-152 | defines the battery rules over hours 1..24 |
| Constraints.DemandBalance | uc_model.py:109-117 | defines the exact balance of hour h: plant output plus discharge equals demand minus wind and pv plus load |
| Constraints.Feasible | uc_model.py:109-152 | defines a schedule that has a variable for every plant, battery and hour and keeps every rule |
| Cost.Objective | uc_model.py:98-106 | defines the system cost: vc over every plant-hour, on or off, plus start-up cost, plus charging cost |
| CostBounds.PlantHourCost | uc_model.py:101-103 | in each hour of a feasible schedule, the plants' variable cost is at least their base cost and their start-up cost is non-negative |
| CostBounds.BatteryHourCost | uc_model.py:105 | in each hour of a feasible schedule, the charging cost is non-negative |
| CostBounds.PlantHourBounds | uc_model.py:101-103 | the per-hour bounds, restated over the hourly cost series |
| CostBounds.VcOverHorizon | uc_model.py:101 | the variable cost over the horizon is at least 24 times the base cost of the plants, on or off |
| CostBounds.StartUpOverHorizon | uc_model.py:103 | the start-up cost over the horizon is non-negative |
| CostBounds.PlantCostOverHorizon | uc_model.py:101-103 | both plant cost bounds over the horizon |
| CostBounds.ChargeCostOverHorizon | uc_model.py:105 | the charging cost over the horizon is non-negative |
| CostBounds.UnitRulesBoundObjective | uc_model.py:98-106 | when every plant has a positive rating and a non-negative vc, every battery a non-negative vc, and every plant and battery rule holds, the objective is at least 24 times the plants' summed base cost (battery vc is not part of the bound) |
| CostBounds.ObjectiveLowerBound | uc_model.py:98-106 | every feasible schedule of plants with positive ratings and non-negative vc, and of batteries with non-negative vc, costs at least 24 times the plants' summed base cost (battery vc is not part of the bound) |
| Thermal.OffHour | uc_model.py:121-123 | when on = 0: power = 0, power_n = -0.5·P and power_p = 0 |
| Thermal.OnHour | uc_model.py:121-122 | when on = 1: power lies in [0.4·P, P] |
| Thermal.CommittedIffProducing | uc_model.py:121-122 | for P > 0, a plant is on iff it produces |
| Thermal.RampBound | uc_model.py:126-127 | in a feasible schedule, after hour 1, \|power[h] - power[h-1]\| ≤ ramp |
| Thermal.FirstHourRampFree | uc_model.py:126-127 | hour 1 has no ramp rule: hour-1 variables that keep the domains, power limits and start-up rule are feasible whatever the ramp |
| Thermal.StartIndicatorRange | uc_model.py:130-131 | start ∈ {-1, 0, 1}; start_p ≥ max(start, 0); start[1] = on[1]; after hour 1, start = 1 iff the plant switches on |
| Thermal.StartStep | uc_model.py:130-131 | one hour of the start-up rule, read off the plant's rules |
| Thermal.Telescope | uc_model.py:130 | the summed start indicator telescopes to the commitment |
| Thermal.StartTelescopes | uc_model.py:130 | in a feasible schedule, start indicators summed over 1..h equal on[h] |
| Thermal.OnImpliesStartUpPaid | uc_model.py:103 | a plant that is on in hour h has paid for at least one start-up by then |
| Storage.FirstHourNoReload | uc_model.py:134-148 | the initial volume term is 0, so in hour 1 reload = 0 and volume = 0.6·load |
| Storage.NetPowerOneSided | uc_model.py:148-152 | b_power has the sign of whichever of load and reload is active, and lies in [-P, P] |
| Storage.VolumeStep | uc_model.py:134-137 | one hour of the volume recursion, read off the battery's rules |
| Storage.VolumeIsAccumulatedCharge | uc_model.py:134-137 | the volume in hour h is the sum of 0.6·load + reload over hours 1..h |
| Storage.NetChargeSplits | uc_model.py:135 | the accumulated net charge is 0.6·Σ load + Σ reload |
| Storage.DischargeBoundedByCharge | uc_model.py:134-141 | up to any hour, a battery returns at most 0.6 of the energy it has loaded and holds at most 5·P |
| Balance.PlantOutputBounded | uc_model.py:121-122 | the plants' total output lies between 0 and their total rated power |
| Balance.BatteryFlowsBounded | uc_model.py:144-145 | total discharge and total load each lie between 0 and the batteries' total rated power |
| Balance.BalanceBounds | uc_model.py:109-117 | in a feasible schedule, net demand lies in [-battery capacity, plant capacity + battery capacity] in every hour |
| Balance.ExcessDemandIsInfeasible | uc_model.py:109-117 | net demand above the fleet's rating in one hour leaves no feasible schedule, since there is no slack term |
| Balance.ExcessRenewablesIsInfeasible | uc_model.py:109-117 | renewable surplus beyond the batteries' charging capacity leaves no feasible schedule |
| Results.PartialRow | uc_model.py:186-188 | a row filled for hours 1..n has exactly those keys |
| Results.FillRow | uc_model.py:185-188 | the inner loop fills a unit's row for hours 1..24 with its source's values |
| Results.AddRows | uc_model.py:184-188 | one role's loop gives every unit of the role a fresh row, over any table |
| Results.SummarizeResults | uc_model.py:183-203 | the four loops build the summary: plants, then batteries, pv and wind |
| Results.Summary | uc_model.py:183-203 | defines the table the four loops leave behind: plant rows, then battery, pv and wind rows, later ones overwriting earlier ones |
| Results.SummaryRow | uc_model.py:183-203 | a unit's row is the one written by the last loop that visits it |
| Results.SummaryKeys | uc_model.py:183-203 | the key set is plants ∪ batteries ∪ pv ∪ wind |
| Results.SummaryOmitsDemand | uc_model.py:183-203 | no demand unit has a row |
| Results.SummaryRowsCoverHorizon | uc_model.py:185-188 | every row has exactly the hours 1..24 |
| Results.SummaryCell | uc_model.py:183-203 | each cell holds the value its source gives for that hour |
| Results.SummaryValues | uc_model.py:183-203 | plant cell = rounded power; battery cell = -(rounded b_power); pv and wind cells = P·profile[h], not rounded |
| Results.RenewableRowsIgnoreSchedule | uc_model.py:194-203 | pv and wind rows do not depend on the solver's values |
| Results.RenewableRowFixed | uc_model.py:194-203 | a renewable row is the same whatever the schedule |
| Results.ChargingShowsNonPositive | uc_model.py:189-193 | a battery that charges in a feasible hour shows a value ≤ 0 |
| Solve.SelectSolver | uc_model.py:155-162 | LOCAL selects cbc with the executable cbc.exe, PRODUCTION selects glpk with no executable, and any other MODE, or none, raises the MODE message |
| Solve.BuildError | uc_model.py:58-117 | ZeroDivisionError iff some plant has rating 0; no exception iff no plant has rating 0, the balance is not trivial, and every role with units has a profile value for hours 1..24; otherwise KeyError or ValueError |
| Solve.UcOutcome | uc_model.py:9-216 | defines one run: the build's exception, else the MODE exception, else the results summary of a successful solve, else False |
| Solve.ClassifyOutcome | uc_model.py:167-216 | success iff status is ok and termination is optimal or feasible; infeasible is the next branch |
| Solve.RunUcModel | uc_model.py:9-216 | a failing build raises its exception; a sound build with a bad MODE raises the MODE message; the run is False iff build and MODE are sound and the solve did not succeed; it returns results iff the status is ok and termination optimal or feasible, and then they are the summary of the solver's values |
| Solve.BuildErrorComesFirst | uc_model.py:98-162 | a failing build raises its exception whatever MODE and the solver say |
| Solve.ModeErrorBeforeSolve | uc_model.py:155-162 | with a sound build, a bad MODE raises before any solve, whatever the solver would answer |
| Solve.NotSolvedIsFalsy | uc_model.py:208-216 | every unsuccessful solve returns False |
| Solve.FailuresCollapse | uc_model.py:208-216 | an infeasible model and any other failed solve return the same False |
| Solve.ComputedIffSolved | uc_model.py:167-205 | a run returns results iff the solve succeeded, and the results are the summary of the solver's values |
| Solve.ZeroPowerPlantRaises | uc_model.py:58 | a plant with rated power 0 makes every run raise ZeroDivisionError |
| Solve.ShortProfileRaises | uc_model.py:109-117 | with non-zero ratings and a non-trivial balance, the build raises KeyError iff a role with units has a profile shorter than 24, and otherwise raises nothing |
| Callbacks.Dashboard.MakeAlerts | pages/dashboard/callbacks.py:19-30 | exactly one alert is appended at the end, open, with the given message and colour and a duration of 10 000 ms; earlier alerts and all other state are unchanged |
| Callbacks.CheckUnitName | pages/dashboard/callbacks.py:379-383 | creation is disabled iff the text is None, shorter than 3 characters, or already in the store |
| Callbacks.Abs | pages/dashboard/callbacks.py:320 | the result of math.fabs is non-negative and equals x or -x |
| Callbacks.CheckPosNumberAsWritten | pages/dashboard/callbacks.py:318-323 | as written: \|parsed value\|, the fallback on ValueError, and an uncaught TypeError for a cleared field |
| Callbacks.CheckPosNumber | pages/dashboard/callbacks.py:353-358 | as intended: \|parsed value\| when the text parses, otherwise the fallback; never negative when the fallback is not |
| Callbacks.CheckPosNumberAgrees | pages/dashboard/callbacks.py:318-323 | on every non-cleared field, both checks give the same value |
| Callbacks.NewUnit | pages/dashboard/callbacks.py:360-367 | the new record has the given type, lat and lon, and non-negative power, vc and ramp |
| Callbacks.Created | pages/dashboard/callbacks.py:350-368 | afterwards the store has the old keys plus the name, whose record has the given type, lat and lon; every other unit is unchanged |
| Callbacks.CreatedAsWritten | pages/dashboard/callbacks.py:350-368 | as written, creation raises iff a numeric field is cleared, and otherwise gives the intended store |
| Callbacks.ClearedFieldRaises | pages/dashboard/callbacks.py:353-364 | a cleared power field raises TypeError as written and gives power 0 as intended |
| Callbacks.Updated | pages/dashboard/callbacks.py:315-331 | the keys and every other unit are unchanged; the type is kept; lat and lon are overwritten; power, vc and ramp each become the absolute value of the parsed input, or keep their old value when the input is cleared or does not parse |
| Callbacks.UpdatedAsWritten | pages/dashboard/callbacks.py:315-331 | as written, a missing name raises KeyError, a cleared numeric field raises TypeError, and otherwise the result is the intended update |
| Callbacks.ClearedUpdateFieldRaises | pages/dashboard/callbacks.py:318-326 | a cleared vc field raises TypeError as written and keeps the old vc as intended |
| Callbacks.CreatedNonNegative | pages/dashboard/callbacks.py:353-367 | creation keeps every power, vc and ramp in the store non-negative |
| Callbacks.UpdatedNonNegative | pages/dashboard/callbacks.py:318-329 | updating keeps every power, vc and ramp in the store non-negative |
| Callbacks.CreateThenDeleteRestores | pages/dashboard/callbacks.py:368 | creating a name that the check lets through and then deleting it restores the store |
| Callbacks.CreateGrowsStore | pages/dashboard/callbacks.py:368 | creating a name that the check lets through adds exactly one unit |
| Callbacks.ZeroPowerCreateBreaksRun | pages/dashboard/callbacks.py:353-364 | a plant created with an empty or unparsable power field makes every run raise ZeroDivisionError |
| Callbacks.Dashboard.CreateUnit | pages/dashboard/callbacks.py:350-370 | the store becomes the created map, nothing else changes, and non-negativity is kept |
| Callbacks.Dashboard.UpdateUnit | pages/dashboard/callbacks.py:315-331 | a missing name raises KeyError and changes nothing; otherwise the store becomes the updated map and non-negativity is kept |
| Callbacks.Dashboard.DeleteUnit | pages/dashboard/callbacks.py:291-299 | a missing name raises KeyError and changes nothing; otherwise exactly that key goes and one info alert "Deleted unit: name" is appended |
| Callbacks.Dashboard.RunModel | pages/dashboard/callbacks.py:42-62 | an exception changes nothing; a falsy run clears the results, shows no cost and appends one warning; a solved run stores its results, shows the rounded objective and appends one success alert |
| Scenario.StorePartition | uc_model.py:27-31 | the single-plant store splits into one plant and one demand unit |
| Scenario.DayHour | uc_model.py:86-89 | the day schedule starts the plant in hour 1 and keeps it running |
| Scenario.DayPlantFeasible | uc_model.py:121-131 | that plant keeps all of its rules in every hour |
| Scenario.DayBalance | uc_model.py:109-117 | its output matches the flat demand exactly in every hour |
| Scenario.DayFeasible | uc_model.py:109-152 | the day schedule keeps every rule of the program |
| Scenario.DayHourCosts | uc_model.py:98-106 | each hour costs 1 in variable cost, with 1000 for the start-up in hour 1 and no charging cost |
| Scenario.DayObjective | uc_model.py:98-106 | the day schedule costs 1024 |
| Scenario.StoreBuilds | uc_model.py:98-117 | the build of this store raises nothing |
| Scenario.DayRun | uc_model.py:155-205 | with a valid MODE, a solved run returns the summary of the day schedule |
| Scenario.DaySummary | uc_model.py:183-188 | that summary has a row for the plant only, showing rounded 50 in every hour |

## Left out

- **Pyomo and the solvers.** The modelling library's objects, the cbc/glpk solve and the `gdp.hull` rewrite of the disjunction are foreign code. The constraints are a predicate over a candidate schedule, and the disjunction is stated by its meaning (load = 0 or reload = 0). The solver's answer is a parameter. Optimality of that answer is not modelled; only feasibility and the objective's value are.
- **Rounding and number parsing.** These are floating-point behaviour. `round(·, 2)` is a parameter `rnd`. `float()` is a `FieldValue`: cleared, or text that parses to a real or does not. Arithmetic is exact `real`, so NaN, infinities and float error are not modelled.
- **Environment and missing modules.** The MODE variable is a parameter `Option<string>`, since `load_dotenv` and `os.environ` are environment I/O. The `input` module is not part of this model; its profiles are the parameter `RawProfiles`.
- **Debug output.** The `dev` printing, and the plotting helpers in `model/uc_results.py` whose calls are commented out, are diagnostics.
- **Presentation code.** All Dash and Plotly layout, graphs, grids, modals and map callbacks are left out. So are the lat/lon normalisation and the text of the displayed cost. A unit's lat and lon are taken as given reals.
- **Dictionary iteration order.** Sums are over sets of names, and a table is a map. The order in which the loops visit units affects nothing observable, because each unit's row is written once per loop that visits it.
- Callbacks.Dashboard.RunModel: the displayed cost is a ghost field. It is the rounding `rndCost` of the objective, which is a sum over the finite set of unit names and is not computed by executable code here.
- Callbacks.Dashboard.CreateUnit: it uses the corrected numeric check. The code as written raises TypeError on a cleared field; that behaviour is modelled by `CreatedAsWritten` (see Findings).
- Callbacks.Dashboard.UpdateUnit: it likewise uses the corrected numeric check. The code as written raises TypeError on a cleared field; that behaviour is modelled by `UpdatedAsWritten` (see Findings).
- **Trivial balance.** The ValueError is raised inside the modelling library when a constraint rule returns a plain truth value. It is modelled as a condition on the roles (no plants and no batteries), not as library code.

## Findings

| source | as written | input that shows it | evidently intended | confidence | as-written member | corrected member |
|---|---|---|---|---|---|---|
| pages/dashboard/callbacks.py:318-323 | `check_pos_number` in `update_unit` catches only ValueError. A numeric input of type number that the user clears sends None, and `float(None)` raises TypeError, so the callback fails and the store is not updated. | updating a unit with the vc field cleared (vc = None) | a field that cannot be read keeps the old value, as unparsable text does | not executed | Callbacks.UpdatedAsWritten | Callbacks.CheckPosNumber |
| pages/dashboard/callbacks.py:353-358 | The same `check_pos_number` in `create_unit` raises TypeError on a cleared field, so the unit is not created. | creating a unit with the power field cleared (power = None) | a field that cannot be read falls back to the default 0, as unparsable text does | not executed | Callbacks.CreatedAsWritten | Callbacks.CheckPosNumber |
