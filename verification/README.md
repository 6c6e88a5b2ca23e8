# stan3 HMC-NUTS glue, modelled in Dafny

stan3 wraps Stan's NUTS sampler in a small command-line and C-embeddable
front end. This project models the deterministic part of that front end:

- **Argument records and their checks.** There are two versions: the nested
  `hmc_nuts_args` of `arguments.hpp` and the older flat copy in
  `hmc_nuts_arguments.hpp`. The model covers thinning against the number of
  samples, the 0 / 1 / `num_chains` rule for the `--inits` and `--metric`
  file lists, the per-chain file lookups, the name-to-enum maps, and the
  output-directory guard of finalisation.
- **Sampler setup** (`load_samplers.hpp`). For each chain, the setup loop:
  - creates the chain's generator from the seed and stream `i + 1`;
  - initialises the chain;
  - constructs a sampler and configures its metric, with a fallback to ones
    or the identity;
  - applies the step-size settings and the adaptation window.

  The first exception ends the loop and is rethrown with a fixed prefix.
  `create_samplers` dispatches on the metric enumerant.
- **Chain runner** (`run_samplers.hpp`). Chain 0 runs alone, or all chains
  run in order. The first chain that throws ends the run. No-op writers
  stand in for absent diagnostic and metric writers.
- **Output naming** (`output_writers.hpp`, `hmc_output_writers.hpp`). This
  covers file names and paths, and the per-chain writer sets the save flags
  select. Each writer is its target path, plus a comment prefix for CSV.
- **C API** (`stan3_c_api.hpp`, `stan3_c_api.cpp`). This covers the bounded
  copy into the caller's error buffer and the `argc`/`argv` conversions. It
  also covers the entry points over the two globals, the loaded model and
  the last error, and the substring classification of a failure message
  into a status code.

Stan itself is not part of the model. That covers `initialize`, the metric
readers and validators, `run_adaptive_sampler`, model loading and the CLI11
parse. Each appears as a function-typed field of a record passed in:
`Stan.Services`, `CApi.Backend`, or the `runAdaptive` argument of the
runner. So every property holds whatever those functions compute or
throw. A thrown exception is the `Failure` of a `Result`, or the `Threw`
of an `Outcome`.

Each of the core files has its own module: `Arguments`, `HmcNutsArguments`,
`LoadSamplers`, `RunSamplers`, `OutputWriters`, `HmcOutputWriters`,
`CApiHelpers` (`stan3_c_api.hpp`) and `CApi` (`stan3_c_api.cpp`). The
shared modules are:

- `Wrappers`: Option and Result.
- `Text`: substring search, prefixes and `std::to_string`.
- `MetricType` and `AlgorithmType`: the enumerations.
- `ArgumentChecks`: the checks both argument headers share.
- `Stan`: the collaborators that are not modelled.

The model follows the form of the code. The sampler, the logger, the run
log, the runner and the C API globals are classes whose methods update
fields. The setup loop, the chain loop, the writer loop and the buffer
copies are methods with loop invariants, each proved against a
specification function. The argument checks, the naming and the
error-code classification are functions.

## Model

| member | source | states |
|---|---|---|
| MetricType.FromCode | src/stan3/metric_type.hpp:6-10 | only 0, 1 and 2 name a metric (UNIT_E, DIAG_E, DENSE_E); a decoded value encodes back to the same number |
| MetricType.CodeRoundTrip | src/stan3/metric_type.hpp:6-10 | decoding an enumerant's value gives the enumerant back, so the three values are distinct |
| AlgorithmType.CodeInjective | src/stan3/algorithm_type.hpp:6-12 | the five algorithms have distinct underlying values in 1..5 |
| Arguments.DefaultHmcNutsArgs | src/stan3/arguments.hpp:26-73 | the defaults: one chain, seed 1, no init or metric files, no output directory, metric DIAG_E |
| Arguments.ValidateHmcArguments | src/stan3/arguments.hpp:221-250 | validation passes iff thinning is not longer than a non-empty sampling run and both file lists have 0, 1 or num_chains entries; on success the caller's message is untouched; otherwise the first failing check (thin, then --inits, then --metric) sets its own message |
| Arguments.ValidationReportsFirstFailure | src/stan3/arguments.hpp:222-247 | a failed validation's message begins with the words of exactly the first check that fails, not those of the other two |
| Arguments.ThinBoundaries | src/stan3/arguments.hpp:222 | thin equal to the number of samples is accepted, and so is any thin when no samples are drawn |
| Arguments.DefaultsValidate | src/stan3/arguments.hpp:26-73 | the default arguments pass validation and leave the message unchanged |
| Arguments.GetInitFileForChain | src/stan3/arguments.hpp:507-515 | "" for an empty list, the single file for every chain, otherwise the chain's own entry |
| Arguments.GetMetricFileForChain | src/stan3/arguments.hpp:518-526 | the same three-way rule for the metric files |
| Arguments.ValidatedLookupsInBounds | src/stan3/arguments.hpp:230-247 | once validation passes, both lookups index within their lists for every chain below num_chains, and return "" or a member of the list |
| Arguments.CreateMetricMap | src/stan3/arguments.hpp:116-122 | exactly the keys unit_e, diag_e and dense_e, mapped injectively onto the three metrics |
| Arguments.FinalizeHmcArguments | src/stan3/arguments.hpp:499-504 | an output directory that is already set is kept; only an empty one is replaced, by the temporary directory |
| Arguments.FinalizeIdempotent | src/stan3/arguments.hpp:499-504 | after finalising with a non-empty temporary directory, finalising again changes nothing |
| Arguments.ParseModelArgs | src/stan3/arguments.hpp:191-202 | a parse succeeds iff CLI11 did, keeping its values; a parser error becomes "Model argument parsing failed: " and the exit code |
| Arguments.ParseHmcArgs | src/stan3/arguments.hpp:253-378 | a parse succeeds iff CLI11 did and the values validate; a parser error becomes "HMC argument parsing failed: " and the exit code; a validation failure passes on the validator's message |
| ArgumentChecks.FileForChain | src/stan3/arguments.hpp:507-515 | the shared three-way per-chain lookup: none, the one shared file, or the indexed file |
| ArgumentChecks.AcceptedListInBounds | src/stan3/arguments.hpp:229-247 | a list of 0, 1 or num_chains entries is indexed in bounds for every chain, and the lookup yields "" or one of its files |
| ArgumentChecks.ThinMessage | src/stan3/arguments.hpp:223-225 | the thinning message starts with "Error: thin (" and mentions "thin" and "exceed" |
| ArgumentChecks.FileCountMessage | src/stan3/arguments.hpp:233-235 | the list-size message starts with "Error: ", the option and "must", so it names the option |
| ArgumentChecks.MessagesDistinct | src/stan3/arguments.hpp:222-247 | the thin, --inits and --metric messages start differently, so each failure is recognisable from its message |
| HmcNutsArguments.ValidateArguments | src/stan3/hmc_nuts_arguments.hpp:301-330 | this header's validation passes iff thin does not exceed the number of samples (no exemption for zero samples) and both lists have 0, 1 or num_chains entries; the first failing check sets the message, and success leaves it untouched |
| HmcNutsArguments.ZeroSamplesDisagreement | src/stan3/hmc_nuts_arguments.hpp:302-307 | the two headers judge thinning alike whenever samples are drawn, but thin = 1 with zero samples is rejected here and accepted by the nested header |
| HmcNutsArguments.GetInitFileForChain | src/stan3/hmc_nuts_arguments.hpp:340-348 | "" for no files, the shared file for one, otherwise the chain's own |
| HmcNutsArguments.GetMetricFileForChain | src/stan3/hmc_nuts_arguments.hpp:351-359 | the same rule for the metric files |
| HmcNutsArguments.ValidatedLookupsInBounds | src/stan3/hmc_nuts_arguments.hpp:310-327 | after a successful validation both lookups stay within their lists for every chain |
| HmcNutsArguments.CreateAlgorithmMap | src/stan3/hmc_nuts_arguments.hpp:109-117 | exactly the keys hmc, mle, pathfinder, advi and gq, mapped to five distinct algorithms with values 1..5 |
| HmcNutsArguments.CreateMetricMap | src/stan3/hmc_nuts_arguments.hpp:120-126 | the same injective three-entry table as the nested header's |
| HmcNutsArguments.FinalizeArguments | src/stan3/hmc_nuts_arguments.hpp:333-337 | a set output directory is kept; an empty one is replaced by the temporary directory |
| OutputWriters.SinkOf | src/stan3/run_samplers.hpp:57-66 | an absent writer becomes the no-op writer; a present one is used as is |
| OutputWriters.GenerateFilename | src/stan3/output_writers.hpp:47-54 | a file name splits into the model/timestamp head, the decimal chain id, and the data-type/extension tail |
| OutputWriters.FilenameExample | src/test/unit/output_writers_test.cpp:53-58 | the name for test_model, 20250522_143000, chain 2, sample, .csv is test_model_20250522_143000_chain2_sample.csv |
| OutputWriters.FilenameEmptyModel | src/test/unit/output_writers_test.cpp:61-64 | an empty model name leaves a leading underscore |
| OutputWriters.FilenameChainZero | src/test/unit/output_writers_test.cpp:66-69 | chain 0 is printed as "chain0" |
| OutputWriters.FilenameNoExtension | src/test/unit/output_writers_test.cpp:71-74 | an empty extension leaves the name ending in the data type |
| OutputWriters.FilenameDetermines | src/stan3/output_writers.hpp:52-53 | a file name determines its chain id and its data-type/extension tail |
| OutputWriters.FilenameDistinctChains | src/stan3/output_writers.hpp:52-53 | with all else fixed, different chain ids give different file names |
| OutputWriters.CreateFilePath | src/stan3/output_writers.hpp:77-83 | no directory leaves the file name alone; a relative name goes after the directory with exactly one separator; the path always ends with the file name |
| OutputWriters.FilenameAbsolute | src/stan3/output_writers.hpp:47-54 | a generated name is absolute exactly when the model name is |
| OutputWriters.FilePathInjective | src/stan3/output_writers.hpp:77-83 | within one directory, distinct names (both relative or both absolute) give distinct paths |
| OutputWriters.CreateWriter | src/stan3/output_writers.hpp:140-153 | the writer's target is the generated name placed in the output directory; only a CSV writer keeps the comment prefix |
| HmcOutputWriters.CreateSingleChainWriters | src/stan3/hmc_output_writers.hpp:37-77 | the sample CSV always, with the caller's prefix; start_params CSV iff save_start_params, with no prefix; param_grads CSV iff save_diagnostics; metric JSON iff save_metric; each named for this chain |
| HmcOutputWriters.CreateMultiChainWriters | src/stan3/hmc_output_writers.hpp:86-103 | one writer set per chain; entry k is chain k + 1's set, all named with the one timestamp |
| HmcOutputWriters.SingleChainCounts | src/stan3/hmc_output_writers.hpp:46-74 | one chain writes 1 + [save_start_params] + [save_diagnostics] CSV files and [save_metric] JSON files |
| HmcOutputWriters.UniformSum | src/stan3/hmc_output_writers.hpp:95-100 | summing a count that is the same for every chain gives the number of chains times it |
| HmcOutputWriters.MultiChainCounts | src/stan3/hmc_output_writers.hpp:95-100 | a multi-chain run writes num_chains times the per-chain CSV and JSON counts |
| HmcOutputWriters.TwoChainExample | src/test/unit/hmc_output_writers_test.cpp:204-249 | two chains saving start parameters and the metric write four CSV files and two JSON files |
| HmcOutputWriters.TailInjective | src/stan3/hmc_output_writers.hpp:46-74 | the four kinds of file end in different data-type/extension tails |
| HmcOutputWriters.FieldPaths | src/stan3/hmc_output_writers.hpp:46-74 | each writer present in a chain's set targets the file of its own kind for that chain |
| HmcOutputWriters.FileOfInjective | src/stan3/hmc_output_writers.hpp:46-74 | two files of a run coincide only when they are the same kind of file of the same chain |
| HmcOutputWriters.DistinctFiles | src/stan3/hmc_output_writers.hpp:86-103 | no two writers of a multi-chain run share a file |
| LoadSamplers.Ones | src/stan3/load_samplers.hpp:91 | the fallback diagonal metric: n ones |
| LoadSamplers.Identity | src/stan3/load_samplers.hpp:106 | the fallback dense metric: the n x n identity |
| LoadSamplers.Sampler.constructor | src/stan3/load_samplers.hpp:198 | a new sampler holds the model and the chain's generator, with no metric, step-size or window settings yet |
| LoadSamplers.Logger.constructor | src/stan3/load_samplers.hpp:75 | a new logger has issued no warnings |
| LoadSamplers.OptionToSeq | src/stan3/load_samplers.hpp:94 | an optional warning as the list of warnings logged |
| LoadSamplers.DiagCandidate | src/stan3/load_samplers.hpp:76-96 | the metric is read only from a present context with at least one real-valued name; otherwise it is ones; a read failure warns and falls back to ones |
| LoadSamplers.DenseCandidate | src/stan3/load_samplers.hpp:76-111 | the same policy for the dense metric, with the identity as the fallback |
| LoadSamplers.ChooseMetric | src/stan3/load_samplers.hpp:72-118 | UNIT_E sets no metric and reads nothing; DIAG_E and DENSE_E set their candidate unless its validation throws, which fails the chain |
| LoadSamplers.MetricFallbacks | src/stan3/load_samplers.hpp:84-113 | the metric set is the one read when the context is read and the read succeeds, and otherwise ones or the identity of dimension num_params_r |
| LoadSamplers.UnitIgnoresContext | src/stan3/load_samplers.hpp:114-117 | for UNIT_E the context makes no difference, and nothing is set or logged |
| LoadSamplers.ConfigureMetric | src/stan3/load_samplers.hpp:72-118 | the sampler receives the chosen metric, the logger gains the chosen warning, and the step-size and window settings are untouched; the error, if any, is the chosen one |
| LoadSamplers.BasicOf | src/stan3/load_samplers.hpp:121-133 | every chain's sampler gets the stepsize, jitter, max_depth, delta, gamma, kappa and t0 of the arguments, and mu is log(10 * stepsize) |
| LoadSamplers.ConfigureSamplerBasic | src/stan3/load_samplers.hpp:121-133 | the sampler's step-size settings become those of the arguments; metric and window untouched |
| LoadSamplers.WindowFor | src/stan3/load_samplers.hpp:136-145 | window settings (num_warmup, init_buffer, term_buffer, window) exist iff the metric is DIAG_E or DENSE_E |
| LoadSamplers.ConfigureWindowedAdaptation | src/stan3/load_samplers.hpp:136-145 | the window is set for DIAG_E and DENSE_E only; metric and step-size settings untouched |
| LoadSamplers.ChainRng | src/stan3/load_samplers.hpp:180 | chain i's generator is seeded with the run's seed and stream i + 1 |
| LoadSamplers.InitRequestFor | src/stan3/load_samplers.hpp:183-194 | chain i is initialised with its own context and generator, with no timing message, and the no-op writer stands in exactly when its init writer is missing |
| LoadSamplers.SetupChain | src/stan3/load_samplers.hpp:180-208 | a failed initialisation fails the chain with no warning; a successful chain setup carries the chain's own generator |
| LoadSamplers.ChainOutcomesUpTo | src/stan3/load_samplers.hpp:177-209 | one outcome per chain so far |
| LoadSamplers.ChainOutcomes | src/stan3/load_samplers.hpp:177-209 | one outcome per chain of the run |
| LoadSamplers.ChainOutcomeAt | src/stan3/load_samplers.hpp:177-209 | entry i of the outcomes is chain i's own setup |
| LoadSamplers.CollectSuccess | src/stan3/load_samplers.hpp:177-209 | a successful setup holds one setup per chain, in chain order, and every chain succeeded |
| LoadSamplers.CollectAllSucceed | src/stan3/load_samplers.hpp:177-209 | when every chain can be set up, the whole setup succeeds |
| LoadSamplers.CollectFirstFailure | src/stan3/load_samplers.hpp:176-212 | a failed setup reports the error of the first chain that fails, all earlier chains having succeeded |
| LoadSamplers.CollectFailureSticks | src/stan3/load_samplers.hpp:176-212 | after a chain fails, later chains change neither the error nor the warnings |
| LoadSamplers.CollectStep | src/stan3/load_samplers.hpp:177-209 | one more chain adds its warnings, and either appends its setup or ends the setup with its error |
| LoadSamplers.CollectStopsAt | src/stan3/load_samplers.hpp:176-212 | when chain i is the first to fail, the setup ends with its error and the warnings logged up to it |
| LoadSamplers.DistinctChainRngs | src/stan3/load_samplers.hpp:180 | distinct chains draw from distinct streams of the same seed |
| LoadSamplers.ConfigMatchesExtend | src/stan3/load_samplers.hpp:195-198 | appending a chain's generator, initial values and matching sampler keeps the three lists matching the chain setups |
| LoadSamplers.LoadChain | src/stan3/load_samplers.hpp:180-208 | one loop pass: the logger gains the chain's warnings, and the configuration grows by the chain's generator, initial values and a new, fully configured sampler; or the pass ends with the chain's error |
| LoadSamplers.FailureSpecified | src/stan3/load_samplers.hpp:210-212 | the first chain's error behind "Error configuring samplers: " is the specified result of a failed setup |
| LoadSamplers.SuccessSpecified | src/stan3/load_samplers.hpp:214 | a configuration matching all chain setups is the specified result of a successful setup |
| LoadSamplers.SamplersDistinct | src/stan3/load_samplers.hpp:198 | the samplers of a successful setup are distinct objects, since each holds its own chain's generator |
| LoadSamplers.LoadSamplers | src/stan3/load_samplers.hpp:159-215 | the warnings logged are those of the chains set up; on success samplers, generators and initial values have one entry per chain, each as chain i's setup gives it, and the samplers are new and distinct; on failure the first chain's error behind the fixed prefix, with no partial configuration |
| LoadSamplers.CreateSamplers | src/stan3/load_samplers.hpp:220-242 | UNIT_E, DIAG_E and DENSE_E select alternatives 0, 1 and 2 and set up as LoadSamplers does; any other value fails with "Unknown metric type: N" before any chain is set up or anything is logged |
| RunSamplers.RunLog.constructor | src/stan3/run_samplers.hpp:68-72 | no sampler has run yet |
| RunSamplers.FirstFailure | src/stan3/run_samplers.hpp:78-88 | the index of the first chain whose run throws: every earlier run returns, and that one throws |
| RunSamplers.RanInOrderMeaning | src/stan3/run_samplers.hpp:76-90 | runs happen in order from the first chain; the run ends with an error exactly when a chain throws; the error is the last chain run's; every earlier chain returned; and with no error every chain ran once |
| RunSamplers.SamplerRunner.constructor | src/stan3/run_samplers.hpp:33-38 | the runner keeps the model, arguments, writers and sampler call it is given |
| RunSamplers.SamplerRunner.Requests | src/stan3/run_samplers.hpp:51-73 | one run call per chain, in chain order |
| RunSamplers.SamplerRunner.RunSingleChain | src/stan3/run_samplers.hpp:51-73 | exactly one call is made, for this chain: its own sampler, initial values and generator, chain id i + 1 of num_chains, and no-op writers for missing diagnostic and metric writers; its error is the call's |
| RunSamplers.SamplerRunner.RunMultipleChainsSequential | src/stan3/run_samplers.hpp:76-90 | chains run in index order, and the first that throws ends the loop with its error |
| RunSamplers.SamplerRunner.Apply | src/stan3/run_samplers.hpp:41-47 | one chain runs chain 0 alone, several run in sequence; both give the ordered run |
| RunSamplers.StartParamsWriters | src/stan3/run_samplers.hpp:112-118 | one init writer per chain |
| RunSamplers.CollectInitWriters | src/stan3/run_samplers.hpp:112-118 | chain i's init writer is its start-parameter writer, and null exactly when that one is |
| RunSamplers.InitWritersOfCreated | src/stan3/hmc_output_writers.hpp:52-58 | with the writers created for the run, chain i's init writer exists exactly when start parameters are saved, and it is chain i + 1's start_params CSV |
| RunSamplers.RequestsFollowSetups | src/stan3/run_samplers.hpp:51-73 | chain i's call uses chain i's sampler and follows chain i's setup and writers |
| RunSamplers.ChainsRanAsSetUp | src/stan3/run_samplers.hpp:41-90 | running a configuration in order runs each chain with its own distinct sampler, as set up |
| RunSamplers.RunSamplers | src/stan3/run_samplers.hpp:103-123 | an unknown metric or a failed setup is reported before any chain runs, and nothing runs; otherwise the chains run in order, each as its setup and writers say, each with its own sampler, until the first that throws |
| CApiHelpers.CStringOf | src/stan3/stan3_c_api.hpp:45 | a C string read from an array is the NUL-free text before the first NUL |
| CApiHelpers.CStringOfUnique | src/stan3/stan3_c_api.hpp:45 | a NUL-free prefix followed by a NUL or by the end is the C string |
| CApiHelpers.Strncpy | src/stan3/stan3_c_api.hpp:30 | strncpy writes the message's characters up to its first NUL, then NUL padding |
| CApiHelpers.CopyLength | src/stan3/stan3_c_api.hpp:29 | the copy length is the message length, capped at one less than the buffer |
| CApiHelpers.StrncpyAt | src/stan3/stan3_c_api.hpp:30 | each copied position holds the message's character until the first NUL, and NUL from then on |
| CApiHelpers.CopyErrorMessage | src/stan3/stan3_c_api.hpp:26-33 | a null or empty buffer is left alone; otherwise exactly min(length, size - 1) characters are copied, a NUL follows them, and everything after that is unchanged |
| CApiHelpers.CopyReadsBack | src/stan3/stan3_c_api.hpp:29-31 | the C string read back from the buffer is a prefix of the message, and the whole message when it fits and holds no NUL |
| CApiHelpers.ArgvToVector | src/stan3/stan3_c_api.hpp:41-48 | argc strings, in argv order, each the C string at its pointer |
| CApiHelpers.StrCpy | src/stan3/stan3_c_api.hpp:63 | strcpy writes the C string and its NUL, and leaves the rest of the buffer alone |
| CApiHelpers.VectorToArgv | src/stan3/stan3_c_api.hpp:57-65 | argc is the vector's size; each argv[i] is a new, distinct buffer of length + 1 holding the argument and its NUL |
| CApiHelpers.ArgvRoundTrip | src/stan3/stan3_c_api.hpp:41-65 | converting to argv and back gives each argument up to its first NUL, and gives the vector back when no argument holds a NUL |
| CApi.LoadModelImpl | src/stan3/stan3_c_api.cpp:19-45 | the load succeeds iff the parse succeeds and loading returns, yielding that model; a parse failure passes on the parser's message |
| CApi.RunSamplersImpl | src/stan3/stan3_c_api.cpp:47-81 | with no model it fails with "No model loaded..." before looking at the arguments; it succeeds iff the parse succeeds and the sampler returns 0; a parse failure passes on the parser's message |
| CApi.LoadErrorCode | src/stan3/stan3_c_api.cpp:105-111 | PARSING iff "parsing failed" occurs; otherwise INVALID_ARGS iff "Invalid argument" occurs; otherwise MODEL_LOAD |
| CApi.RunErrorCode | src/stan3/stan3_c_api.cpp:138-146 | MODEL_LOAD iff "No model loaded" occurs; then PARSING for "parsing failed"; then INVALID_ARGS for "Invalid argument"; otherwise SAMPLING |
| CApi.LoadParseFailureCode | src/stan3/stan3_c_api.cpp:105-106 | a failed model-argument parse returns PARSING |
| CApi.InvalidArgumentMessage | src/stan3/stan3_c_api.cpp:32-33 | the invalid_argument message contains "Invalid argument" and adds neither of the other phrases |
| CApi.UnknownLoadMessage | src/stan3/stan3_c_api.cpp:41-42 | the message for a non-standard exception while loading holds no key phrase |
| CApi.UnknownRunMessage | src/stan3/stan3_c_api.cpp:77-78 | the message for a non-standard exception while sampling holds no key phrase |
| CApi.OtherRunMessage | src/stan3/stan3_c_api.cpp:74-75 | the message for another std::exception while sampling adds no key phrase |
| CApi.ExitCodeMessage | src/stan3/stan3_c_api.cpp:61-62 | the exit-code message holds no key phrase |
| CApi.LoadExceptionCode | src/stan3/stan3_c_api.cpp:32-44 | an invalid_argument from loading returns INVALID_ARGS; a runtime_error, another exception or a non-standard throw returns MODEL_LOAD |
| CApi.RunNoModelCode | src/stan3/stan3_c_api.cpp:49-52 | running with no model returns MODEL_LOAD |
| CApi.RunParseFailureCode | src/stan3/stan3_c_api.cpp:56-57 | a failed sampler-argument parse returns PARSING |
| CApi.RunExitCodeFailure | src/stan3/stan3_c_api.cpp:60-63 | a non-zero exit code from the sampler returns SAMPLING |
| CApi.RunExceptionCode | src/stan3/stan3_c_api.cpp:68-80 | an invalid_argument while sampling returns INVALID_ARGS; any other throw returns SAMPLING |
| CApi.Session.constructor | src/stan3/stan3_c_api.cpp:16-17 | at library load there is no model, no error and no cached name |
| CApi.Session.LoadModel | src/stan3/stan3_c_api.cpp:89-120 | negative argc or null argv gives INVALID_ARGS with the fixed message, and nothing is loaded; a failure keeps the old model, records and copies the message, and returns its classification; success replaces the model, clears the error and empties a usable buffer; the code is always 0, 1, 2 or 4 |
| CApi.Session.RunSamplers | src/stan3/stan3_c_api.cpp:122-155 | the same guard; a failure records and copies the message and returns its classification; success clears the error and empties a usable buffer; the model is never changed; the code is always 0 to 4, never RUNTIME |
| CApi.Session.GetModelName | src/stan3/stan3_c_api.cpp:157-168 | null with no model; the first name read is cached and returned from then on; a throwing read gives null and caches nothing |
| CApi.Session.IsModelLoaded | src/stan3/stan3_c_api.cpp:170-172 | 1 iff a model is loaded, else 0 |
| CApi.Session.GetLastError | src/stan3/stan3_c_api.cpp:174-179 | null iff no error is recorded, else the recorded message |
| CApi.Session.ClearError | src/stan3/stan3_c_api.cpp:181-183 | the recorded error is emptied, so the last error reads as null |
| CApi.StaleModelName | src/stan3/stan3_c_api.cpp:163 | once a name is cached, loading another model still gives the first model's name |

## Left out

- Console and log output are not modelled: progress lines of the chain loop, the "created tmp dir" line, and everything Stan's logger prints beyond the metric-fallback warnings.
- Interrupts are not modelled, because the interrupt callback is only passed through to the sampler.
- Eigen numerics are not modelled. Metrics are sequences of reals; reading and validating them are opaque.
- The step-size target `log(10 * stepsize)` is opaque (`Services.logTenTimes`).
- The Stan services are opaque functions of their inputs: `initialize`, `read_*_inv_metric`, `validate_*_inv_metric`, `run_adaptive_sampler`, `load_model`, the CLI11 parse and `model_name()`.
- LoadSamplers.LoadSamplers: `run_adaptive_sampler` also advances the sampler and the generator in place. The model does not capture that.
- RunSamplers.RunSamplers: the ensures does not state that the samplers run are new objects. That freshness is stated by LoadSamplers.LoadSamplers.
- CLI11 wiring is not modelled: option set-up, backward-compatible flags, the JSON file validators, and the text of CLI11 errors. The parse is an opaque function returning the values or the parser's exit code.
- Temporary directories, timestamps, `ensure_output_directory`, opening streams (`create_writer_impl`) and `cleanup_temp_dir` are left out. The clock reading and the temporary directory are parameters.
- Paths are modelled with the POSIX rules only (an absolute name starts with '/'). Windows drive letters and separators are left out.
- Ownership is left out: the `unique_ptr` around a reference in `load_model_impl`, and `free_argv`. Neither changes a value the model tracks.
- HmcOutputWriters.CreateMultiChainWriters requires fewer than 2^32 - 1 chains. The source's `unsigned int` counter would never end its loop at or above that count.
- CApiHelpers.ArgvToVector: the C caller's strings are assumed to be NUL-terminated. The model requires a NUL in each of the first argc arrays and a non-negative argc (both entry points check argc first).
- CApiHelpers.VectorToArgv requires at most 2^31 - 1 arguments, so that the `int` cast of the size is exact.
- CApi.LoadExceptionCode and CApi.RunExceptionCode require the exception's own text to hold none of the three key phrases. With such text the classification can differ, exactly as RunErrorCode and LoadErrorCode state.
- A message from a failed sampler-argument validation ("Error: thin ...", "Error: --inits ...") gets no separate lemma. It contains no key phrase, so stan3_run_samplers returns SAMPLING (3) for it.
- The comment on `stan3_get_last_error` in `stan3_c_api.h` says the last error is thread-local, but the code uses one global. The model follows the code, and concurrency is not modelled.
- STAN3_ERROR_RUNTIME (5) is a constant that no entry point returns, as the ranges in the contracts of CApi.Session.LoadModel and CApi.Session.RunSamplers state.
- `run_hmc_nuts.hpp`, `main.cpp`, `run_others.hpp`, `read_json_data.hpp` and `load_model.hpp` are not part of this model. They read files, load the model through a foreign factory and print summaries.
