# PID tuning for motion optimisation — a Dafny model

This project models the host side of a PID-gain tuning rig. A host sends
a frame of PID gains to a robot arm over a serial line. It waits for the
device to acknowledge the frame with a line containing `done`, then
reads back the arm's angle series. It scores the series by settling time,
overshoot and rise time, and two optimiser sessions use those scores:
differential evolution and Bayesian optimisation. The model covers:

- the metrics: relative overshoot, settling time as a backward scan, and
  the integral of squared error over the most recent samples;
- the serial handshake over a scripted device;
- both optimiser sessions. Each has an experiment counter, an append-only
  trial table and an experiment cache keyed on the exact gain triple;
- `get_config` over an in-memory configuration;
- the `select_optimizer` dispatch;
- the results index of the analysis scripts: the `generate_dict` skeleton,
  and `populate_optimizer_results` filing result files under keys derived
  from their names;
- the simulated PID loop of the motion script;
- the peripheral registry and the selector switch;
- the robot context's mode transitions.

Modules, one per source component:

| module | file | source |
|---|---|---|
| `Common` | common.dfy | exceptions, `Result`/`Option`, Python list indexing |
| `Text` | text.dfy | `split`, `join`, `strip`, `in` on strings, `str(n)` |
| `Metrics` | metrics.dfy | `src/utils/helper.py` metrics |
| `Protocol` | protocol.dfy | `src/utils/helper.py` line decoding and handshake |
| `Evaluation` | evaluation.dfy | what both optimiser sessions share |
| `DifferentialEvolution` | de_optimizer.dfy | `src/optimizers/differential_evolution.py` |
| `Bayesian` | bo_optimizer.dfy | `src/optimizers/bayesian_optimizer.py` |
| `Configs` | configs.dfy | `src/configs.py` |
| `Dispatch` | dispatch.dfy | `select_optimizer` in `src/utils/utils_funcs.py` |
| `Analysis` | analysis.dfy | `src/analysis/analysis_utils.py` |
| `Simulation` | simulation.dfy | `src/scripts/motion_simulation.py` |
| `Peripherals` | peripherals.dfy | `src/models/peripherals.py` |
| `Robot` | robot_context.dfy | `src/robot_context.py` |

The device is a `SerialLink` object. It holds the finite script of lines
the device will send, a read cursor and the log of packets the host has
written. Once the script runs out, every read yields an empty line. In
that case the Python handshake loops would spin forever. The model
returns `NeverAcknowledged` (no `done` ever arrives) or `NoSeriesReceived`
(no acceptable series ever arrives) instead.

Some behaviour is modelled as the code has it, because the code does not
do what its documentation suggests:

- `calculate_settling_time` walks its index below 0 into Python's negative
  indices. A series that lies entirely inside the tolerance band therefore
  ends in `IndexError` rather than a settling time of 0.
- For a negative set point with a positive tolerance, the band is empty, so
  the settling time is the whole run.
- `calculate_relative_overshoot` divides by the set point. A set point of 0
  raises `ZeroDivisionError`.
- The default selector mapper sends the optimization pin to the idle mode
  and the idle pin to the optimization mode.
- The Bayesian session bumps `experiment_id` both in `_run_experiment` and
  in `log_trial_results`. Logged ids therefore increase but are not
  consecutive.
- `populate_optimizer_results` tests `config_1` … `config_3` as substrings
  of the root. A root such as `.../config_12/...` is not skipped, and its
  results then raise `KeyError` against an index that has no `config_12`.
- The differential-evolution session accepts a negative
  `selected_init_state` and writes it into its file names. The key derived
  from such a name is `de.csv_csv` or `de.txt_txt`, not `init_-1_csv`.

## Model

| member | source | states |
|---|---|---|
| `Metrics.Overshoot` | src/utils/helper.py:39-60 | ValueError exactly for an empty series; ZeroDivisionError exactly for a set point of 0; `-inf` exactly when a positive set point is never reached or a negative one never undershot |
| `Metrics.OvershootAbovePositiveSetPoint` | src/utils/helper.py:47-57 | for a positive set point that is reached, the overshoot o is at least 0 and the highest sample is exactly `fv * (1 + o/100)` |
| `Metrics.OvershootBelowNegativeSetPoint` | src/utils/helper.py:49-57 | for a negative set point that is reached, the overshoot o is at most 0 and the lowest sample is exactly `fv * (1 - o/100)` |
| `Metrics.OvershootExamples` | src/utils/helper.py:42-57 | a peak of 120 over 100 is 20 %; a response staying below 100 gives `-inf` |
| `Metrics.LastOutside` | src/utils/helper.py:97-106 | the index of the last sample outside the band: every later sample is inside; with no such index every sample is inside |
| `Metrics.SettlingTime` | src/utils/helper.py:88-110 | the backward scan, negative indices included, returns ValueError for an empty series, `per_value_time * (k + 1)` for the last out-of-band index k, and IndexError when no sample is out of band |
| `Metrics.SettlingTimeExample` | src/utils/helper.py:91-110 | `[50,60,70,85,90,91,90,89,90]` with set point 90 and tolerance 0.05 settles at 400 ms |
| `Metrics.SettledThroughoutRaises` | src/utils/helper.py:97-106 | a non-empty series entirely inside the band raises IndexError |
| `Metrics.BandNarrows` | src/utils/helper.py:91-92 | for a positive set point a smaller tolerance gives a band nested in the larger one |
| `Metrics.LastOutsideMonotone` | src/utils/helper.py:100-106 | a nested band has its last outside sample no earlier |
| `Metrics.SettlingTimeMonotoneInTolerance` | src/utils/helper.py:91-110 | for a positive set point, narrowing the tolerance never decreases the settling time |
| `Metrics.NegativeSetPointBandIsEmpty` | src/utils/helper.py:91-101 | for a negative set point and positive tolerance the upper bound is below the lower one and the settling time is `per_value_time * len` |
| `Metrics.Trunc` | src/utils/helper.py:131 | `int()` of a float truncates toward zero |
| `Metrics.SliceStart` | src/utils/helper.py:131 | a slice start counts negative values from the end and is clamped to the list |
| `Metrics.IntegralOfSquaredErrorBasics` | src/utils/helper.py:130-132 | the sum is never negative, and when `int(n * p)` is 0 the slice `[-0:]` covers the whole list |
| `Metrics.IntegralOfSquaredErrorIsTrailing` | src/utils/helper.py:130-132 | for a proportion in [0, 1] selecting m > 0 elements, the sum is over exactly the last m errors |
| `Metrics.IntegralOfSquaredErrorExample` | src/utils/helper.py:130-132 | `[1,1,1,1,10,10]` with proportion 0.5 gives 201 |
| `Text.StripSpec` | src/utils/helper.py:199-201 | a stripped line starts and ends with a non-space and is the original minus leading and trailing whitespace |
| `Text.SplitJoin` | src/analysis/analysis_utils.py:110 | splitting a join of separator-free pieces gives the pieces back |
| `Text.JoinSplit` | src/analysis/analysis_utils.py:110 | joining the pieces of a split gives the string back |
| `Protocol.ParseAllSpec` | src/utils/helper.py:205-207 | the float comprehension succeeds exactly when every token parses, and then yields each token's value in order |
| `Protocol.DecodeSeriesSpec` | src/utils/helper.py:203-208 | a line is accepted exactly when it is longer than 80 characters and every non-empty `;` token parses; the series is those values in order |
| `Protocol.DecodeReadingSpec` | src/utils/helper.py:152-159 | a reading is accepted exactly when it has at least 40 characters and every non-empty `,` token parses |
| `Protocol.NonEmptyDropsTrailingEmpty` | src/utils/helper.py:206 | a trailing `;` adds only an empty token, which is dropped |
| `Protocol.DecodeRendered` | src/utils/helper.py:203-208 | round trip: a series rendered as `v;v;...;` with a parse-inverse renderer decodes back to the same series |
| `Protocol.CheckReceivedAngles` | src/utils/helper.py:197-216 | reads one line; returns `(True, series)` and writes one `angles received` exactly when the stripped line decodes, else `(False, [])` and writes nothing |
| `Protocol.SendUntilAcknowledged` | src/utils/helper.py:248-256 | the frame is written once per status line up to and including the first one containing `done`, and reading stops there |
| `Protocol.ReceiveSeries` | src/utils/helper.py:260-278 | returns the series of the first accepted line, reads exactly up to it, and writes one acknowledgement |
| `Protocol.StartExperimentalRun` | src/utils/helper.py:241-278 | the result, the packets written (frames in the order kp, ki, kd, run time, dump rate) and the lines consumed are those of the handshake over the script |
| `Protocol.UnacknowledgedLineRetries` | src/utils/helper.py:248-256 | a status line without `done` costs one more frame and does not change the result |
| `Protocol.RejectedLineSkipped` | src/utils/helper.py:260-265 | after the acknowledgement, a line that does not decode is skipped without changing the result |
| `Protocol.HandshakeReturnsFirstSeries` | src/utils/helper.py:248-278 | a successful handshake returns the series of the first accepted line after the first `done`, with nothing accepted in between |
| `Evaluation.ErrorValues` | src/optimizers/differential_evolution.py:250 | one error per sample, each the sample minus the set point |
| `Evaluation.ExperimentForCases` | src/optimizers/differential_evolution.py:233-252 | a cached triple is answered from the cache without reading the device; a new triple runs the handshake and caches its pair only on success; a run succeeds exactly when its triple is cached afterwards, holding the pair returned; no other entry changes |
| `Evaluation.CacheAfterConsistent` | src/optimizers/differential_evolution.py:233-252 | every cached pair keeps the errors of its own response |
| `Evaluation.SecondRunIsReplayed` | src/optimizers/differential_evolution.py:233-234 | asking twice for the same triple runs the device once; the second call returns the first pair and reads nothing |
| `Evaluation.ClearedCacheRerunsDevice` | src/optimizers/differential_evolution.py:294 | after the cache is cleared a triple runs the device again |
| `Evaluation.ObjectiveScores` | src/optimizers/differential_evolution.py:129-136 | settling time (tolerance 0.05, 100 ms per sample), then overshoot, then rise time; the first exception wins |
| `Evaluation.ConstraintValues` | src/optimizers/differential_evolution.py:111-117 | `(overshoot, rise_time)`, failing exactly for an empty response or a set point of 0 |
| `Evaluation.ConsecutiveIdsIncrease` | src/optimizers/differential_evolution.py:308-328 | ids 1, 2, 3, … in log order increase strictly |
| `Evaluation.AppendKeepsIncreasing` | src/optimizers/bayesian_optimizer.py:211-231 | appending a row stamped with the current id keeps logged ids increasing for any later bump |
| `Evaluation.ConstraintBoundVectors` | src/optimizers/differential_evolution.py:154-161 | the lower and upper vectors list each constraint's bounds in the mapping's order; a missing mapping raises TypeError |
| `Evaluation.RandomRowOnGrid` | src/optimizers/differential_evolution.py:172-191 | every random seed row has an integer Kp in 1..25 and Ki, Kd on the hundredths grid of [0, 1] |
| `Evaluation.SeedGridCovered` | src/optimizers/differential_evolution.py:172-191 | every point of that grid is the row of some draw |
| `Evaluation.InitialPopulation` | src/optimizers/differential_evolution.py:169-194 | five rows: the selected seed state first, then four rows on the grid |
| `DifferentialEvolution.ObjectiveIsSettlingTime` | src/optimizers/differential_evolution.py:129-148 | the objective value is the settling time; a response settled throughout fails with IndexError |
| `DifferentialEvolution.DifferentialEvolutionOptimizer.constructor` | src/optimizers/differential_evolution.py:69-93 | id 1, no trials, empty table and cache, no summary; the gain bounds, constraint mapping, iteration count, run time, dump rate, seed index and early-stop limit are kept as given |
| `DifferentialEvolution.DifferentialEvolutionOptimizer.Create` | src/optimizers/differential_evolution.py:69-93 | the seed state is `init_states[selected_init_state]`; an index outside `-len .. len - 1` raises IndexError; every constructor argument (link, parser, rise-time function, set point, gain bounds, constraint mapping, seed index, early-stop limit, iteration count, run time, dump rate) is kept as given; id 1, no trials, empty table and cache, no summary, not exited |
| `DifferentialEvolution.DifferentialEvolutionOptimizer.RunExperiment` | src/optimizers/differential_evolution.py:233-252 | the memoised run: result, cache, device reads and writes as the cache specification says |
| `DifferentialEvolution.DifferentialEvolutionOptimizer.LogTrialResults` | src/optimizers/differential_evolution.py:296-328 | appends exactly one row stamped with the current id, then advances the id; ids stay 1, 2, 3, … |
| `DifferentialEvolution.DifferentialEvolutionOptimizer.ConstraintFunction` | src/optimizers/differential_evolution.py:95-117 | counts the trial first, then returns `(overshoot, rise_time)` of the memoised run |
| `DifferentialEvolution.DifferentialEvolutionOptimizer.ObjectiveFunction` | src/optimizers/differential_evolution.py:119-148 | returns the settling time and logs exactly one row with the scores; an exception logs nothing |
| `DifferentialEvolution.DifferentialEvolutionOptimizer.Finalize` | src/optimizers/differential_evolution.py:254-294 | records the summary dictionary field by field (gain bounds, constraint mapping, `n_iter`, `n_trials` the trial counter, run time, dump rate, seed index, early-stop limit, `x`, settling time) and clears the cache |
| `DifferentialEvolution.DifferentialEvolutionOptimizer.ResultsCallback` | src/optimizers/differential_evolution.py:217-231 | stops the session exactly when the candidate's settling time is within the early-stop limit, after finalising with that candidate |
| `DifferentialEvolution.DifferentialEvolutionOptimizer.ServeOfCases` | src/optimizers/differential_evolution.py:95-231 | an objective call raises exactly when the memoised run or its scores fail, and otherwise logs exactly the row of those scores under the next id; a registered constraint call counts one trial whatever it returns, an unregistered one changes nothing; a callback raises exactly when the run or its settling time fails, and stops the session exactly when that settling time is within the early-stop limit, the summary then holding the trial counter, the candidate and that settling time, and the cache being empty; no other call touches the summary or the exit flag |
| `DifferentialEvolution.DifferentialEvolutionOptimizer.Serve` | src/optimizers/differential_evolution.py:200-213 | one library call into the session: the exception raised, the cache, the device lines left, the trial counter, the table, the summary and the exit flag are exactly those of the call's case (see `ServeOfCases`) applied to the memoised run of its triple |
| `DifferentialEvolution.DifferentialEvolutionOptimizer.ServePlan` | src/optimizers/differential_evolution.py:193-214 | the library serving its calls in order: the outcome and every state field are those of serving the plan until the first exception or the first exit |
| `DifferentialEvolution.ServeAllStops` | src/optimizers/differential_evolution.py:229-231 | once a prefix of the calls has raised or exited, the later calls change nothing |
| `DifferentialEvolution.ServeAllFirstStop` | src/optimizers/differential_evolution.py:193-231 | a plan that stopped the session stopped it at one call: the calls before it were served without stopping, and that call's outcome and state are the plan's |
| `DifferentialEvolution.ServeAllCounts` | src/optimizers/differential_evolution.py:95-148 | serving a plan keeps the table's rows, adds at most one row per objective call and at most one trial per constraint call (none without a registered constraint); a plan served to its end adds exactly that many |
| `DifferentialEvolution.ServeAllExitClears` | src/optimizers/differential_evolution.py:229-231 | if every call that exits clears the cache, a served plan that exited has an empty cache |
| `DifferentialEvolution.DifferentialEvolutionOptimizer.Run` | src/optimizers/differential_evolution.py:151-215 | a missing constraint mapping raises TypeError and changes nothing; otherwise the bound vectors and seed population are handed over, and the error, table, trial counter, device lines and exit flag are those of serving the plan; an exception or exit happened at one call of the plan with everything before it served; the table gains at most one row per objective call and the counter at most one per registered constraint call, exactly that many when the plan runs out; the result is the summary of the exiting callback, or else `finalize` of the library's best point with the final trial counter; a successful run leaves an empty cache |
| `Bayesian.BayesianOptimizer.constructor` | src/optimizers/bayesian_optimizer.py:59-66 | id 1, empty table and cache; the gain bounds, iteration count, run time, dump rate and constraint bound vectors are kept as given |
| `Bayesian.BayesianOptimizer.Create` | src/optimizers/bayesian_optimizer.py:59-76 | IndexError for a bad seed index first, then TypeError for a missing constraint mapping; otherwise the bound vectors of the mapping, and every other argument (link, parser, rise-time function, set point, gain bounds, iteration count, run time, dump rate) kept as given; id 1, empty table and cache |
| `Bayesian.BayesianOptimizer.RunExperiment` | src/optimizers/bayesian_optimizer.py:171-197 | the memoised run; only a device run advances `experiment_id` |
| `Bayesian.BayesianOptimizer.LogTrialResults` | src/optimizers/bayesian_optimizer.py:199-231 | appends one row with the current id and advances the id |
| `Bayesian.BayesianOptimizer.ConstraintFunction` | src/optimizers/bayesian_optimizer.py:95-113 | `(overshoot, rise_time)` of the memoised run, no row logged |
| `Bayesian.BayesianOptimizer.ObjectiveFunction` | src/optimizers/bayesian_optimizer.py:115-147 | returns the negated settling time and logs one row whose id skips one after a device run |
| `Bayesian.ProbeOfCases` | src/optimizers/bayesian_optimizer.py:95-147 | a probe succeeds exactly when the memoised run and its scores do; a failure logs nothing and raises the run's or the scoring's exception; a success observes the point with the negated settling time and the `(overshoot, rise_time)` of the cached response, and logs exactly one row for it, with that response, under the id the device run left |
| `Bayesian.BayesianOptimizer.Probe` | src/optimizers/bayesian_optimizer.py:83-91 | the objective then the constraint for one point: the result, cache, device lines, id and table are exactly those of one probe (see `ProbeOfCases`) applied to the memoised run of the point |
| `Bayesian.BayesianOptimizer.ProbePlan` | src/optimizers/bayesian_optimizer.py:81-91 | probing points in order: the result and every state field are those of probing until the first exception |
| `Bayesian.ProbeAllStops` | src/optimizers/bayesian_optimizer.py:81-91 | once a prefix of the points has failed, the later points change nothing |
| `Bayesian.ProbeAllFirstFailure` | src/optimizers/bayesian_optimizer.py:81-91 | a failed run failed at one point: every earlier point was probed successfully, and that point's exception and state are the run's |
| `Bayesian.ProbeAllRecords` | src/optimizers/bayesian_optimizer.py:81-91 | for a probe that logs what it observes, a successful run has one observation and one new row per point, in order, each row's gains the point and each target its negated settling time |
| `Bayesian.BayesianOptimizer.Run` | src/optimizers/bayesian_optimizer.py:81-91 | the seed state is probed first, then each proposal in order: the result and every state field are those of that probe sequence; an exception is that of the first failing point, with every earlier point probed; on success each point has one observation and one logged row, in order, and the library sees its negated settling time |
| `Configs.Subscript` | src/configs.py:58 | a key of a mapping returns its value; a missing key raises KeyError; indexing a non-mapping raises TypeError |
| `Configs.GetConfig` | src/configs.py:56-65 | the only exceptions are KeyError and TypeError |
| `Configs.UndottedName` | src/configs.py:60-65 | an undotted present name returns its value, an absent one raises KeyError |
| `Configs.SectionKey` | src/configs.py:56-58 | `section.key` is the key inside the section |
| `Configs.MiddleSegmentsIgnored` | src/configs.py:57-58 | `a.b.c` resolves exactly like `a.c` |
| `Configs.DottedKeyUnreachable` | src/configs.py:56-58 | a top-level key containing a dot is never reached by a lookup of that name |
| `Configs.ConfigTestExamples` | tests/test_configs.py:13-30 | the lookups of the repository's tests |
| `Dispatch.BoundPair` | src/utils/utils_funcs.py:113-116 | both lookups succeed or the first failing lookup's error is raised |
| `Dispatch.GainBounds` | src/utils/utils_funcs.py:112-125 | three pairs named Kp, Ki, Kd |
| `Dispatch.ConstraintBounds` | src/utils/utils_funcs.py:126-143 | two pairs named overshoot and risetime, in that order |
| `Dispatch.BuildArgs` | src/utils/utils_funcs.py:111-152 | succeeds exactly when every lookup does, and otherwise raises the first failing lookup's exception in reading order; the record holds the bounds, iteration count, run time, seed index and configuration read, dump rate 100, early stop 2500 and the set point |
| `Dispatch.SelectOptimizer` | src/utils/utils_funcs.py:109-199 | success only for BO or DE, the kind follows the name, the bounds are those of the configuration |
| `Dispatch.SelectOptimizerDispatch` | src/utils/utils_funcs.py:109-199 | a missing set point raises KeyError whatever the name; another name raises ValueError; BO and DE read the same arguments and fail alike |
| `Dispatch.SectionThroughReader` | src/utils/utils_funcs.py:114-115 | a dotted lookup is the key inside the section |
| `Dispatch.GainBoundsFromSection` | src/utils/utils_funcs.py:112-125 | the gain bounds are the six `parameters_bounds` entries; one missing raises KeyError |
| `Dispatch.ToConstraintMap` | src/utils/utils_funcs.py:126-143 | the constraint mapping is defined exactly when every bound is a number, and keeps names and values in order |
| `Dispatch.ConstraintBoundsFromSection` | src/utils/utils_funcs.py:126-143 | the constraint bounds are the four `constraint` entries |
| `Dispatch.TwoBoundVectors` | src/optimizers/differential_evolution.py:154-161 | two named pairs become the lower vector and the upper vector in order |
| `Dispatch.ConstraintVectorsFollowSelection` | src/utils/utils_funcs.py:126-143 | end to end: the optimiser's bound vectors are `[overshoot_lower, rise_time_lower]` and `[overshoot_upper, rise_time_upper]` |
| `Analysis.InitSkeletonKeys` | src/analysis/analysis_utils.py:39-44 | a trial's keys are exactly `init_<i>_<f>` for i below 6 and f an init file, all mapped to None |
| `Analysis.ConfigSkeletonKeys` | src/analysis/analysis_utils.py:36-45 | a configuration's keys are its trials and `configs_file` (None); each trial holds the init dictionary |
| `Analysis.InitKeysStep` | src/analysis/analysis_utils.py:40-43 | each init file adds its six keys |
| `Analysis.GenerateDict` | src/analysis/analysis_utils.py:34-47 | the nested loops build exactly the skeleton |
| `Analysis.BuildInitDict` | src/analysis/analysis_utils.py:39-44 | the two inner loops build exactly one trial's init dictionary |
| `Analysis.SelectedFileKey` | src/analysis/analysis_utils.py:109-113 | the key derivation fails only with IndexError |
| `Analysis.KeyOfName` | src/analysis/analysis_utils.py:109-113 | a name `<prefix>-<a>_<b>_<c>_<d>.<e>` gets the key `<b>_<c>_<e>` |
| `Analysis.KeyOfShortName` | src/analysis/analysis_utils.py:109-113 | a name `<prefix>-<a>_<d>.<e>` with a single piece after the first `_` keeps that piece whole: the key is `<d>.<e>_<e>` |
| `Analysis.DEResultKey` | src/analysis/analysis_utils.py:109-113 | round trip with `differential_evolution.py:91,259`: a result named `<timestamp>_init_<k>_de.<ext>` is filed under `init_<k>_<ext>` for `k >= 0`; for a negative `k`, which the session accepts, the `-` in the name makes it filed under `de.<ext>_<ext>` |
| `Analysis.AssignInConfig` | src/analysis/analysis_utils.py:102-104 | sets one key of a configuration; KeyError for a missing configuration, TypeError for a non-dictionary |
| `Analysis.AssignInTrial` | src/analysis/analysis_utils.py:115-120 | sets one key of a trial; KeyError or TypeError on the way down |
| `Analysis.PopulateAllStops` | src/analysis/analysis_utils.py:92-122 | once an exception is raised, later files change nothing |
| `Analysis.ResultsIndex.PopulateOptimizerResults` | src/analysis/analysis_utils.py:92-122 | the index and the exception are those of filing every walked file in order |
| `Analysis.ResultsIndex.PopulateRoot` | src/analysis/analysis_utils.py:93-120 | the files of one root filed in order |
| `Analysis.ResultsIndex.FileOne` | src/analysis/analysis_utils.py:94-120 | one file filed as specified |
| `Analysis.OtherRootsSkipped` | src/analysis/analysis_utils.py:94-97 | a root naming no allowed configuration leaves the index unchanged |
| `Analysis.LongerConfigNameNotSkipped` | src/analysis/analysis_utils.py:94-97 | a root containing `config_1<suffix>` is not skipped |
| `Analysis.SetConfigsFileUpdates` | src/analysis/analysis_utils.py:99-106 | `configs_file` is set in exactly the listed configurations occurring in the root |
| `Analysis.ConfigsFileSetsOnlyConfigsFile` | src/analysis/analysis_utils.py:99-106 | a `configs` file changes only `configs_file` entries |
| `Analysis.RootComponents` | src/analysis/analysis_utils.py:107-108 | the last two components of `<base>/<config>/<trial>` are the configuration and the trial |
| `Analysis.DEResultNameTests` | src/analysis/analysis_utils.py:99-118 | a result name, for any seed index, does not contain `configs`; it contains `csv` exactly when its extension is csv, and a txt name contains `txt` |
| `Analysis.ResultFileOutcome` | src/analysis/analysis_utils.py:107-120 | a result file is stored under its configuration, trial and key |
| `Analysis.RootUnderLongerConfig` | src/analysis/analysis_utils.py:94-97 | a configuration name extending `config_1` is treated as allowed |
| `Analysis.DEResultFiled` | src/analysis/analysis_utils.py:107-117 | end to end: a result file lands on the slot the skeleton prepared for it |
| `Analysis.LongerConfigNameRaises` | src/analysis/analysis_utils.py:94-117 | a result under `config_12`-style roots raises KeyError |
| `Simulation.FirstStep` | src/scripts/motion_simulation.py:46-53 | at step 1 the integral and derivative both equal the error, so the control is `(kp + ki + kd) * (set_point - 50)` |
| `Simulation.FollowsPidUnique` | src/scripts/motion_simulation.py:43-59 | the run is determined by the gains, set point and plant |
| `Simulation.FindMovement` | src/scripts/motion_simulation.py:33-59 | 1500 samples starting at 50, each the plant's answer to the PID control computed from the samples before it |
| `Peripherals.SelectedMode` | src/models/peripherals.py:176-184 | the normal pin wins, then optimization, then idle; no mode exactly when no pin is 1 |
| `Peripherals.HigherPinWins` | src/models/peripherals.py:177-182 | a higher-priority pin at 1 decides the mode whatever the lower pins read |
| `Peripherals.DefaultMapperAsWritten` | src/models/peripherals.py:138-142 | the default mapper: normal to running, optimization pin to idle, idle pin to optimization |
| `Peripherals.SwitchMode` | src/models/peripherals.py:176 | a reading that is not a pin triple raises TypeError |
| `Peripherals.PeripheralsManager.constructor` | src/models/peripherals.py:17-25 | the registry is the given mapping, fixed from then on |
| `Peripherals.PeripheralsManager.ReadData` | src/models/peripherals.py:40-49 | an unregistered name raises ValueError; otherwise the named peripheral's reading |
| `Peripherals.PeripheralsManager.GetPeripheral` | src/models/peripherals.py:84-92 | exactly the registered object; ValueError for an unregistered name |
| `Peripherals.PeripheralsManager.RegisteredNames` | src/models/peripherals.py:94-102 | every registered name exactly once and nothing else |
| `Peripherals.PeripheralsManager.WriteData` | src/models/peripherals.py:61-69 | only the named peripheral receives the data; an unregistered name raises ValueError and nothing is delivered |
| `Peripherals.ReadThroughGetPeripheral` | src/models/peripherals.py:40-92 | reading through the manager reads the object `get_peripheral` returns; both reject the same names |
| `Robot.EntersMatchExits` | src/robot_context.py:31-34 | in a log that follows the rules, enters and exits differ by one exactly when a mode is active |
| `Robot.RobotContext.constructor` | src/robot_context.py:19-21 | no mode is set and nothing is logged |
| `Robot.RobotContext.SetMode` | src/robot_context.py:31-34 | exits the previous mode only if one was set, always before entering the new one, which becomes current; the log stays well formed |
| `Robot.RobotContext.GetMode` | src/robot_context.py:44 | the current mode, the one the log leaves active |
| `Robot.RobotContext.RunMode` | src/robot_context.py:48-49 | executes the current mode exactly once; nothing without a mode |
| `Robot.RobotContext.CheckIfModeChanged` | src/robot_context.py:58-62 | true exactly when the switch selects the same kind of mode as the current one; changes nothing; ValueError without a switch, TypeError for a reading that is not a pin triple |
| `Robot.RobotContext.CheckStartButton` | src/robot_context.py:66-70 | runs the mode exactly when the button reads 1; ValueError without a button |
| `Robot.RobotContext.Update` | src/robot_context.py:51-54 | the mode check, then the button check; the current mode never changes |

Functions that only compute a value are stated by the lemmas beside them. `Metrics.IntegralOfSquaredError` is covered by the `IntegralOfSquaredError*` rows. `Protocol.DecodeSeries` and `Protocol.DecodeReading` are covered by `DecodeSeriesSpec`, `DecodeReadingSpec` and `DecodeRendered`. `Analysis.PopulateFile` is covered by `FileOne`, `OtherRootsSkipped`, `SetConfigsFileUpdates` and `ResultFileOutcome`. `Analysis.DEResultName` is covered by `DEResultKey` and `DEResultNameTests`. `SummaryOf` is covered by the `Finalize`, `ServeOfCases` and `Run` rows.

## Left out

- Serial transport: `clear_input_buffer`, the sleeps and `in_waiting` are not modelled. The device is a finite script of lines, and a read past its end yields an empty line.
- The IEEE-754 layout of the `struct.pack` frame is not modelled. The frame is an ordered record of five reals.
- UTF-8 decoding is not modelled: lines are already strings. `strip` removes ASCII whitespace only.
- Float parsing (`float(token)`) is a function parameter, and samples are reals without rounding.
- The handshake loops wait forever when the device stays silent. The model returns `NeverAcknowledged` or `NoSeriesReceived` instead.
- The scipy and bayes_opt libraries are not modelled. They become the sequence of calls they make into a session (`DriverCall`s, or the proposals of `maximize`) and the best point they report.
- The `init_points` random probes and `print(self.optimizer.max)` are not modelled.
- `sys.exit` in the early-stop callback becomes the session's `exited` flag.
- CSV writes of the trial table, the summary file write, `log_optimizaer_data`, wall-clock `total_exp_time` and all plotting are not modelled.
- `calculate_rise_time` is not part of this model. It is a function parameter.
- `DifferentialEvolution.DifferentialEvolutionOptimizer.Run` does not model the `np.float32` cast of the seed population.
- The `lru_cache` on `_run_experiment` is keyed on `self` too and is shared by all instances of a class. The model gives each session its own cache.
- `select_optimizer` passes keyword arguments that the optimiser constructors do not accept, so the call as written would raise. `Dispatch.SelectOptimizer` produces a tagged argument record instead of constructing the optimiser.
- `load_init_states`, `read_txt_file` and their `eval` are not modelled. Init states are passed in as data. A text result is the value `TxtResults(path)` and a CSV result is `CsvFrame(path)`.
- The `monitor_resources` thread is not modelled (concurrency).
- `load_yaml` file reading is not modelled. The configuration is an in-memory map.
- `os.walk` is a parameter (a sequence of roots with their files). `os.path.join` and `os.sep` use `/`.
- Python dictionary key order is not modelled for the index maps.
- The plant of the motion script (`np.sin` with `np.round`) is a function parameter. `create_random_movement` and the plotting helpers are not modelled (random and visual).
- The hardware classes `StartButton`, `SelectorSwitch` and `OLEDDisplay` are not modelled (GPIO is commented out). A peripheral is reduced to its current reading and the data written to it. Modes are compared by kind, which is what `type(...) ==` does for the three mode classes.
- `src/interfaces/interfaces.py`, `src/models/modes.py` (logging only), `src/settings.py`, the result schemas and the scripts `tmp.py`, `tmp_reciever.py`, `src/optimizers/trial.py` and `setup.py` are not part of this model.
