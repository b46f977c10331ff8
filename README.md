# mf6het3d in Dafny

mf6het3d sets up and runs MODFLOW 6 groundwater-flow experiments on a
heterogeneous three-dimensional conductivity field. An experiment is a sweep
of parameters. `combine` expands the sweep into a table of scenarios.
`configure` turns one scenario into a MODFLOW 6 deck:
- time discretisation;
- constant-head boundaries;
- wells;
- vertical conductivity;
- storage;
- output files.

`build` is the general well builder: it picks a pumping method for each well
and spreads each well's rate over its screened layers. The run driver executes
the scenarios and keeps a runs table, where each row goes from `pending` through
`running` to `failed`, `alert` or `success`.

The model has eight modules, one per file:

- `Basics` (basics.dfy): `Option`, `Result`, Python's `str()` of an integer with its decimal read-back, and a left-to-right `Sum` of reals.
- `Mf6Packages` (mf6_packages.dfy): layered fields, the pumping entry, the well boundary name, and the node-property-flow package as a class. Its `k33` is the field the kzz correction rewrites.
- `Scenarios` (scenarios.dfy): `combine`. This covers the scalar-or-list sweep, the counter loop, `itertools.product` with the last parameter varying fastest, and the simulation and model names.
- `Wells` (wells.dfy): `build`. This covers the method dispatch, the four allocation methods, the `wel_stress_period` dictionary, and the `k33` correction. A well is a class whose `pumping_method` field `build` writes.
- `Runs` (runs.dfy): the run driver. This covers index selection from `--start`/`--end`, initialisation or reload of the runs table, and the status written for each scenario. The table is a class whose status column the loop updates and whose every `to_csv` is recorded.
- `FlopyConfig` (flopy_config.dfy): the value-level rules of `configure`. These are the defaults, the forced Newton formulation, the stress periods and `perioddata`, the storage flags, the layer bottoms and screened-layer selection, the constant-head list, and the output file names.
- `FlopyWells` (flopy_wells.dfy): the four wells of `configure`, located by a method that writes their cell ids and layers, the `wel_stress_period` loop, and the rewriting of `k33` for each pumping entry.
- `Configure` (configure.dfy): `configure` end to end for a 10 × 100 × 100 grid, with its consequences for the configured experiment.

Imperative parts of the source are methods with loop invariants, and each one
is proved equal to a recursive specification function:
- the loops of `combine` and `build`;
- the loop of the run driver;
- the loops of `configure`.

Lemmas about those functions state the behaviour the source promises.

Inputs the program reads from files, from the grid intersection or from the
solver are parameters of the model:
- the conductivity field;
- the cells a point or line intersects;
- whether a run terminated normally, and its budget discrepancies.

## Model

| member | source | states |
|---|---|---|
| Basics.NatToString | mf6het3d/wells.py:69 | `str(n)` is a non-empty string of decimal digits, of length one exactly when `n < 10` |
| Basics.IntToString | mf6het3d/wells.py:69 | `str(i)` is non-empty and starts with a minus sign exactly when `i < 0` |
| Basics.IntRoundTrip | mf6het3d/wells.py:69 | `str(i)` is an optional minus sign followed by decimal digits, and reading it back gives `i` |
| Basics.IntToStringInjective | mf6het3d/wells.py:69 | distinct integers have distinct `str` |
| Mf6Packages.BoundNamesDistinct | mf6het3d/wells.py:69 | one well's boundary names `id + '_SP' + str(sp)` differ for different stress periods |
| Basics.DecimalRoundTrip | mf6het3d/wells.py:69 | reading the decimal string of `n` back gives `n` |
| Basics.NatToStringInjective | utils/scenarios.py:49 | distinct numbers have distinct decimal strings |
| Basics.SumAppend | mf6het3d/wells.py:88 | `sum` of a concatenation is the sum of the sums |
| Basics.SumConstant | mf6het3d/wells.py:120 | `n` equal values sum to `n` times the value |
| Mf6Packages.KzzCorrectedAt | mf6het3d/wells.py:103-105 | the correction multiplies by ten exactly the listed layers at the well node and leaves every other cell of `k` as it is |
| Mf6Packages.KzzCorrectionOfSingleLayer | mf6het3d/flopy_config.py:490-493 | with no layer above the pumped one the corrected field equals `k` |
| Mf6Packages.NpfPackage.constructor | mf6het3d/flopy_config.py:232-237 | the package holds `k` and has no `k33` yet |
| Mf6Packages.NpfPackage.SetKzzCorrection | mf6het3d/wells.py:102-105 | `k33` becomes a copy of `k` with the listed layers at the cell scaled by ten |
| Scenarios.CountScenarios | utils/scenarios.py:26-38 | the counter is the product of the list lengths; a scalar is wrapped as a one-element list and a list is kept |
| Scenarios.Combine | utils/scenarios.py:8-54 | an error exactly when no keyword argument is given. Otherwise the columns are the two name columns and then the parameters, and there is one row per product tuple, as many as the counter. Row `i` is named base + `str(i)` and base + `str(i)` + `_MODEL`, and carries tuple `i` |
| Scenarios.SweepCountIsRadix | utils/scenarios.py:26-38 | the loop's counter equals the product of the wrapped lists' lengths |
| Scenarios.ProductLength | utils/scenarios.py:41-44 | `itertools.product` yields as many tuples as the product of the lengths |
| Scenarios.ProductAt | utils/scenarios.py:41-44 | component `k` of tuple `i` is the `k`-th mixed-radix digit of `i`: the last parameter varies fastest |
| Scenarios.RowCount | utils/scenarios.py:37-44 | the number of rows equals `number_of_scenarios` |
| Scenarios.AllScalarsGiveOneRow | utils/scenarios.py:31-34 | with no list-valued parameter there is exactly one scenario |
| Scenarios.NamesDistinct | utils/scenarios.py:49-50 | simulation names of different rows differ, and so do model names |
| Scenarios.TwoByTwoExample | utils/scenarios.py:41-50 | `a=[1,2], b=[10,20]` gives (1,10), (1,20), (2,10), (2,20) and the names SIM0 … SIM3, SIM3_MODEL |
| Scenarios.SetupHasThirtyTwoScenarios | mf6het3d/setup.py:51-61 | the experiment's five two-valued parameters give 32 scenarios |
| Wells.ParsePolicyRoundTrip | mf6het3d/wells.py:63-126 | the four method names select four distinct branches, and every recognised name maps back to itself |
| Wells.PumpingMethodSelection | mf6het3d/wells.py:43-53 | a well with at most one layer uses `deepest_layer`; a multi-layer well uses the scenario's method, else `distributed_by_transmissivities` |
| Wells.UnsupportedMethodNamed | mf6het3d/wells.py:125-126 | the exception message embeds the method name |
| Wells.EmptyPeriodsAre | mf6het3d/wells.py:26-29 | the dictionary starts with the keys `0 .. nper - 1`, each with an empty list |
| Wells.InitialPeriods | mf6het3d/wells.py:26-29 | the initialisation loop builds that dictionary |
| Wells.Well.constructor | mf6het3d/wells.py:10-19 | a well definition starts without a pumping method |
| Wells.SplitHomogeneously | mf6het3d/wells.py:114-123 | the loop gives one entry per screened layer with rate / number of layers |
| Wells.SplitByWeights | mf6het3d/wells.py:88-97 | the loop gives one entry per screened layer with `T_i * rate / sum(T)` |
| Wells.AllocatePumping | mf6het3d/wells.py:61-123 | the entries of one pumping entry under one method, including the errors for an empty layer list and a one-layer grid |
| Wells.AddPumping | mf6het3d/wells.py:59-130 | turn `j` of the pumping loop: under the kzz method `k33` becomes the corrected copy of `k`; the entries of the `j`-th pumping entry extend the list of its stress period, giving the specified dictionary after `j + 1` entries; an error (unknown period, no screened layer) is the result of the whole loop |
| Wells.AddWellPumpings | mf6het3d/wells.py:59-130 | the pumping loop of one well yields the specified dictionary; under the kzz method `k33` is the corrected copy of `k`, otherwise it is unchanged |
| Wells.ProcessWell | mf6het3d/wells.py:38-130 | a non-pumping well is skipped; a pumping well records its method and adds its entries, or raises for an unknown method |
| Wells.Build | mf6het3d/wells.py:10-130 | the dictionary handed to the well package is the specified one. On success `k33` is the one the wells' corrections leave, and every pumping well records its method |
| Wells.DeepestLayerAllocation | mf6het3d/wells.py:63-71 | `deepest_layer` puts the full rate at the deepest screened layer (error if there is none), and the kzz method pumps the same entry |
| Wells.SingleLayerWellTakesFullRate | mf6het3d/wells.py:51-53 | a single-layer well always falls back to `deepest_layer` and takes the full rate at its layer |
| Wells.TopLayerUsesBottomThickness | mf6het3d/wells.py:76-78 | layer 0's height reads `np.diff` at index -1, the thickness of the bottom layer |
| Wells.HomogeneousSplit | mf6het3d/wells.py:114-123 | one entry per layer, each with an equal share, the shares adding up to the rate |
| Wells.HomogeneousTotal | mf6het3d/wells.py:114-123 | the equal shares of the homogeneous method add up to the rate |
| Wells.TransmissivitySplit | mf6het3d/wells.py:76-97 | layer `i` gets `T_i * rate / sum(T)`, and the shares add up to the rate |
| Wells.AllocationConserves | mf6het3d/wells.py:61-123 | every method labels its entries with the well's node and boundary name, and conserves the rate of a screened well |
| Wells.AddPumpingsExtends | mf6het3d/wells.py:129-130 | one well's entries keep the stress periods and only append entries of that well |
| Wells.AddPumpingsConserves | mf6het3d/wells.py:59-130 | one screened well adds exactly its scheduled rate to each period, and appends only its own entries and only to periods it has a pumping entry for |
| Wells.UnscreenedWellFails | mf6het3d/wells.py:67 | a pumping well without screened layers under a deepest-layer method raises |
| Wells.AddWellConserves | mf6het3d/wells.py:38-130 | one well appends its own entries, only to periods it has a pumping entry for, adds its scheduled rates, and changes nothing else |
| Wells.AddWellsConserves | mf6het3d/wells.py:33-130 | all wells keep the periods and earlier entries; every appended entry of period `sp` comes from a well with a pumping entry for `sp`; the wells add their scheduled rates |
| Wells.StressPeriodsConserveRates | mf6het3d/wells.py:26-130 | the result's keys are exactly `0 .. nper - 1`; every entry of period `sp` lies at the node and in a screened layer of a well that has a pumping entry for `sp`, and carries that well's boundary name for `sp`; each period's rates add up to what the wells scheduled |
| Wells.AddPumpingsNeverUnsupported | mf6het3d/wells.py:59-130 | the pumping loop never raises the unknown-method error |
| Wells.UnknownMethodRejected | mf6het3d/wells.py:125-126 | a pumping well with an unknown method makes `build` fail |
| Wells.UnsupportedErrorNamesMethod | mf6het3d/wells.py:125-126 | an unknown-method error names the method of a pumping well |
| Wells.NonPumpingWellIgnored | mf6het3d/wells.py:38-41 | a well with an empty pumping list changes neither the dictionary nor `k33` |
| Wells.NoKzzWellKeepsK33 | mf6het3d/wells.py:99-105 | without a pumping well under the kzz method, `k33` is left as it was |
| Wells.KzzCorrectionOfLastWell | mf6het3d/wells.py:99-105 | the kzz method applies only to multi-layer wells. `k33` is then `k` scaled by ten at the node in every screened layer but the deepest, from the last such well only |
| Runs.StatusNamesDistinct | mf6het3d/run.py:81-174 | the five statuses are written as five different strings |
| Runs.VerdictCases | mf6het3d/run.py:104-131 | an executed scenario ends `failed` exactly when MODFLOW did not terminate normally. It ends `success` exactly when it did and every discrepancy is below 1 %, and `alert` exactly when it did and some discrepancy is at least 1 % |
| Runs.ThresholdIsStrict | mf6het3d/run.py:28 | a discrepancy of exactly 1 % is an alert; empty budgets pass |
| Runs.RangeMembers | mf6het3d/run.py:59 | `np.arange(lo, hi, 1)` has `hi - lo` members, exactly `lo ≤ x < hi`, ascending |
| Runs.IndexSelection | mf6het3d/run.py:57-65 | both bounds run `[start, end)` and only `end` runs `[0, end)`. Only `start` raises, because `SCENARIOS` is undefined. No bound runs every scenario, and a start of 0 counts as absent |
| Runs.Position | mf6het3d/run.py:136 | `iloc` reads position `index`, or `n + index` for a negative one |
| Runs.AllPendingAre | mf6het3d/run.py:80-81 | a fresh table has the rows `0 .. n - 1`, all `pending` |
| Runs.InitialTableCases | mf6het3d/run.py:78-85 | without a runs file or with `--clean` every row starts `pending` and is written; otherwise the stored table is used as read |
| Runs.RunsTable.Fresh | mf6het3d/run.py:80-82 | the fresh table is all `pending` and saved once |
| Runs.RunsTable.Reload | mf6het3d/run.py:85 | the reloaded table is the stored one, not yet saved |
| Runs.RunsTable.Save | mf6het3d/run.py:97 | `to_csv` appends the current column to the saved versions |
| Runs.RunsTable.Record | mf6het3d/run.py:96-97 | `loc[index, 'status'] = s` sets (or adds) that row, then saves |
| Runs.RunsTable.RunScenario | mf6het3d/run.py:143-175 | one scenario writes `running`, saves, then writes its verdict and saves; an abnormal termination is modelled as intended, marking the row `failed` (see Findings; the script as written is Runs.RunOneAsWritten) |
| Runs.RunsTable.RunIndexes | mf6het3d/run.py:135-175 | the loop's table and error are those of the specification; it stops at an index outside the table; a failed run is modelled as intended and the loop goes on (see Findings; the script as written is Runs.RunAllAsWritten) |
| Runs.Execute | mf6het3d/run.py:56-175 | the script's outcome for given arguments, table size, stored runs file and run outcomes, with a failed run handled as intended (see Findings; the script as written is Runs.RunAllAsWritten) |
| Runs.NoRunWithoutFlag | mf6het3d/run.py:69-74 | without `--run` nothing is executed and no table is written |
| Runs.RunOneRow | mf6het3d/run.py:143-175 | one scenario writes `running` and then its verdict for its row, touches no other row, and saves twice |
| Runs.RunAllRows | mf6het3d/run.py:135-175 | the loop keeps every row, adds only executed ones, leaves the others alone and ends each executed row terminal. An error names an index outside the table |
| Runs.RunAllCompletes | mf6het3d/run.py:135-157 | when every index is inside the table the loop runs them all, failed runs included, and saves twice per scenario |
| Runs.RunEverything | mf6het3d/run.py:87-131 | with `--run` and no bounds, each row `0 .. n - 1` ends with its own verdict |
| Runs.AsWrittenDiffersOnlyOnFailure | mf6het3d/run.py:104-157 | the script as written agrees with the corrected loop except after an abnormal termination, where it leaves `running` instead of `failed` |
| Runs.FailedRunExample | mf6het3d/run.py:149-157 | two scenarios, the first failing: as written the script stops with rows `running`, `pending`; corrected they end `failed`, `success` |
| FlopyConfig.JoinPathParts | mf6het3d/flopy_config.py:49 | `os.path.join(a, b)` ends with `b`, and for a relative `b` it is `a` then `/` then `b` |
| FlopyConfig.ResolveDefaults | mf6het3d/flopy_config.py:37-60 | a given argument is used and a missing one takes its default. A named simulation lives in the experiment folder joined with its name, and an unnamed one is `mf6_sim` in `mf6_sim`. The iteration limits are 250 and 100 |
| FlopyConfig.AlwaysNewton | mf6het3d/flopy_config.py:60-181 | the model always uses the Newton option `UNDER_RELAXATION`, whatever `newton_raphson` is passed |
| FlopyConfig.OutputFilesDistinct | mf6het3d/flopy_config.py:543-544 | the budget and head files are named after the model and never coincide |
| FlopyConfig.PeriodDataRows | mf6het3d/flopy_config.py:130-132 | one `[length, n_time_steps, ts_multiplier]` row per stress period, in order |
| FlopyConfig.BuildPeriodData | mf6het3d/flopy_config.py:130-132 | the `perioddata` loop builds those rows |
| FlopyConfig.ConfiguredPeriods | mf6het3d/flopy_config.py:79-108 | four periods numbered 0 to 3: a steady period of 100 days, then three transient one-hour periods of 15 steps |
| FlopyConfig.BuildStorageMaps | mf6het3d/flopy_config.py:515-519 | the storage loop builds the steady and transient maps |
| FlopyConfig.StorageMapsComplementary | mf6het3d/flopy_config.py:515-519 | both maps have one key per period id, and each period is transient exactly when it is not steady |
| FlopyConfig.StorageMapsOwnFlags | mf6het3d/flopy_config.py:518 | with distinct ids each period keeps its own flag |
| FlopyConfig.ConfiguredStorage | mf6het3d/flopy_config.py:515-519 | period 0 is steady and periods 1 to 3 are transient |
| FlopyConfig.Bottoms | mf6het3d/flopy_config.py:207-211 | one bottom per layer |
| FlopyConfig.ScreenedLayers | mf6het3d/flopy_config.py:456-462 | every selected layer is a layer of the grid |
| FlopyConfig.ScreenedLayersExact | mf6het3d/flopy_config.py:456-462 | a layer is selected exactly when its bottom lies within the screen (with the tolerance), and the layers ascend |
| FlopyConfig.ScreenExamples | mf6het3d/flopy_config.py:447-462 | with ten unit layers a screen from 1 to 2 selects layer 7 and one from 3 to 4 selects layer 5 |
| FlopyConfig.LayerEntries | mf6het3d/flopy_config.py:293-294 | one constant-head entry per intersected cell |
| FlopyConfig.BoundaryEntryAt | mf6het3d/flopy_config.py:292-294 | entry `l * |cells| + c` of a boundary is layer `l`, cell `c` at the boundary's head |
| FlopyConfig.BuildChd | mf6het3d/flopy_config.py:282-294 | the three nested loops build the specified constant-head list |
| FlopyConfig.ConfiguredChd | mf6het3d/flopy_config.py:252-294 | the list is the inlet's entries at head 110 followed by the outlet's at head 100, `nlay` entries per cell |
| FlopyConfig.BoundaryHeads | mf6het3d/flopy_config.py:294 | every entry of a boundary carries that boundary's head |
| FlopyWells.ScheduleRate | mf6het3d/flopy_config.py:342-359 | a well's schedule gives its rate to its active period and zero to the others |
| FlopyWells.WellsDataBalanced | mf6het3d/flopy_config.py:334-439 | in every period the four wells inject exactly what they extract |
| FlopyWells.ConfigWell.constructor | mf6het3d/flopy_config.py:334-341 | a well starts with no cell ids and no layers |
| FlopyWells.ConfigWell.Locate | mf6het3d/flopy_config.py:451-462 | the well gets the intersected cells and its screened layers |
| FlopyWells.LocateWells | mf6het3d/flopy_config.py:449-462 | the location loop locates every well |
| FlopyWells.AddWellPumpings | mf6het3d/flopy_config.py:481-502 | the pumping loop of one well yields the specified dictionary and `k33`, in the order of `.item()`, the `k33` rewrite, `layers[-1]`, and the period key |
| FlopyWells.InitialWel | mf6het3d/flopy_config.py:468-470 | one empty list per stress period |
| FlopyWells.ProcessWell | mf6het3d/flopy_config.py:473-502 | a well without pumping is skipped; otherwise its pumping loop runs |
| FlopyWells.BuildWel | mf6het3d/flopy_config.py:466-502 | the dictionary is the specified one, and on success `k33` is the one the wells leave |
| FlopyWells.EmptyWelAre | mf6het3d/flopy_config.py:468-470 | the keys are the period ids, each with an empty list |
| FlopyWells.AddPumpingsOk | mf6het3d/flopy_config.py:481-502 | one well's entries are added exactly when it has one cell and a screened layer and all its periods exist |
| FlopyWells.AddWellContents | mf6het3d/flopy_config.py:473-502 | one well is added exactly when it fits, adds no key, and appends its entries to each period |
| FlopyWells.AddWellsOk | mf6het3d/flopy_config.py:473-502 | adding wells succeeds exactly when every well fits |
| FlopyWells.AddWellsAppends | mf6het3d/flopy_config.py:473-502 | each period's list receives the entries of each well in turn |
| FlopyWells.WelContents | mf6het3d/flopy_config.py:466-502 | the dictionary exists exactly when every well fits. Its keys are the period ids, and each list holds, well by well, the entries of that period |
| FlopyWells.PumpingsAtShape | mf6het3d/flopy_config.py:494-500 | every entry sits at the deepest screened layer in the well's cell and is named after the well and the period |
| FlopyWells.PumpingsAtRate | mf6het3d/flopy_config.py:497 | a period's entries of one well carry the rates scheduled for it |
| FlopyWells.WelConservesRates | mf6het3d/flopy_config.py:466-502 | the rates of each period's list add up to the rates the wells schedule for it |
| FlopyWells.SingleLayerWellsKeepK | mf6het3d/flopy_config.py:490-493 | wells screened in at most one layer leave `k33` equal to `k` once one of them pumps |
| FlopyWells.LastPumpingWellWins | mf6het3d/flopy_config.py:481-493 | after the wells' loop `k33` is `k` corrected for the last well alone, when that well pumps from a single cell, whatever the earlier wells did |
| Configure.NewWells | mf6het3d/flopy_config.py:334-439 | `wells_data` is four distinct new well dictionaries holding the given data |
| Configure.Configure | mf6het3d/flopy_config.py:25-550 | `configure` returns the specified deck or the error that stops it |
| Configure.ConfiguredLayers | mf6het3d/flopy_config.py:338-339 | wells W1 and W2 are screened in layer 7, W3 and W4 in layer 5 |
| Configure.ConfiguredSchedules | mf6het3d/flopy_config.py:342-358 | every well schedules the four periods 0 to 3 in order |
| Configure.ConfiguredPeriodIds | mf6het3d/flopy_config.py:79-108 | the period ids are 0 to 3 |
| Configure.ConfigureSucceeds | mf6het3d/flopy_config.py:483 | `configure` succeeds exactly when each well's intersection found exactly one cell |
| Configure.ConfiguredDeck | mf6het3d/flopy_config.py:130-181 | a successful deck uses the Newton options, has four periods, and has storage maps marking period 0 steady and periods 1 to 3 transient |
| Configure.ConfiguredWelBalanced | mf6het3d/flopy_config.py:466-502 | the well package has one list per period 0 to 3, and each list's rates sum to zero |
| Configure.ConfiguredK33 | mf6het3d/flopy_config.py:490-493 | every configured well is screened in one layer, so `k33` ends equal to `k` |
| Configure.ConfiguredRateBalanced | mf6het3d/flopy_config.py:334-439 | the located wells' scheduled rates cancel in every period |
| Configure.ConfiguredConstantHeads | mf6het3d/flopy_config.py:252-294 | the constant-head list has ten entries per boundary cell, at head 110 for the inlet and 100 for the outlet |

## Left out

- File and process I/O: reading CSV files, `to_csv`, `MFSimulation.load`, `write_simulation`, `run_simulation`, `sys.exit` and the prints. The runs file is a parameter, and each `to_csv` is recorded as a snapshot of the status column.
- The flopy package constructors (`ModflowTdis`, `ModflowIms`, `ModflowGwfdis`, `ModflowGwfchd`, `ModflowGwfic`, `ModflowGwfwel`, `ModflowGwfsto`, `ModflowGwfoc`): the model stops at the data handed to them. The solver settings are modelled only as the iteration limits and the head convergence.
- Grid intersection (`grid.intersect`, `GridIntersect`): the cells and nodes it returns are inputs.
- Wells.Build: the node of each well is an input, so the `.item()` failure on an intersection without exactly one cell (mf6het3d/wells.py:56) is not modelled there. `FlopyWells` does model it.
- `sc`, which wells.py reads but does not define: the scenario's `pumping_method` is an optional input, and `sc['gwf']` is the bottoms and the flow package passed explicitly.
- Wells.Build: requires the transmissivity sum of a well split by transmissivity to be non-zero; every weight is a layer height times a conductivity, so none is negative and a zero sum means every weight is 0; numpy would then compute 0/0 for every layer and give NaN rates, with a RuntimeWarning and no exception (infinities only if non-zero weights cancel).
- `sqrt(k * k22)` in wells.py: the flow package carries the cell-wise geometric mean as a field, since square roots of reals are not modelled.
- The conductivity field: reading `hk_field.csv`, the reshape and swap of axes, and the `exp(sqrt(variance) * x)` transform. The field `k` is an input of `configure`, and its grid size is fixed at 10 × 100 × 100.
- Floating point: rates, bottoms and conductivities are exact reals. `1/24` and `1e-7` are exact, and rounding in `np.linspace` and the tolerance tests is not modelled.
- The initial-condition interpolation of `configure` (mf6het3d/flopy_config.py:310-328) and the specific yield and iconvert settings of the storage package.
- `Mf6ListBudget` parsing: each run's normal termination and budget discrepancies are inputs.
- Runs.Execute: the `iterrows` branch assumes the scenario table's labels are `0 .. n - 1`, as `combine` writes them; the casts of the indexes to `np.int32` are not modelled (indexes are unbounded integers).
- Runs.Execute: the checks on `--experiment`, the experiment folder and `config.exe_name` that raise before any index is chosen are not modelled.
- Wells.Build: requires every screened layer of every well to be a layer of the grid (`InGrid`), also for wells with no pumping entries and for the `deepest_layer` and `homogeneous` methods. A screened layer `>= nlay` under `distributed_by_transmissivities` (mf6het3d/wells.py:78-83), or a layer `>= nlay` above the deepest one under `deepest_layer_kzz_correction` (mf6het3d/wells.py:104), makes numpy raise an `IndexError`; that error path is not modelled.
- Wells.Build: on an error path `k33` is left unspecified; flopy's `get_data` is taken to return a copy, so each correction starts again from `k`.
- FlopyWells.BuildWel: on an error path `k33` is left unspecified; flopy's `get_data` is taken to return a copy, so each correction starts again from `k`.
- The command-line parsing of flopy_config.py and its `__main__` loop over the scenarios.

## Findings

| source | as written | input that shows it | evidently intended | confidence | as-written member | corrected member |
|---|---|---|---|---|---|---|
| mf6het3d/run.py:107 and mf6het3d/run.py:151 | `warnings.warn` is called, but `warnings` is never imported, so an abnormal termination raises `NameError`. The row stays `running` and the remaining scenarios are not run | `--run --end 2` over two scenarios, the first of which does not terminate normally | the row is marked `failed`, saved, and the loop continues | not executed | Runs.FailedRunExample | Runs.RunAllCompletes |

Notes on behaviour the model keeps as written:

- For layer 0 the transmissivity split of `build` uses `np.diff(...)[-1]`, the thickness of the bottom layer (Wells.TopLayerUsesBottomThickness).
- In `configure` every pumping entry rewrites `k33` from a fresh copy of `k`, so only the last pumping well's correction survives (FlopyWells.LastPumpingWellWins).
- `newton_raphson` is forced to `True` before use, so the scenario parameter has no effect (FlopyConfig.AlwaysNewton).
