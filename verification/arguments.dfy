/** `arguments.hpp`: the nested argument records of an HMC-NUTS run, their
    post-parse validation, the per-chain file lookups, the metric-name table,
    and the output-directory guard applied after parsing. CLI11 wiring is not
    modelled; where a parser result is needed it arrives as a parameter. */
module Arguments {
  import opened Wrappers
  import opened Text
  import opened MetricType
  import opened ArgumentChecks

  /** `model_args`: what loading a model needs. */
  datatype ModelArgs = ModelArgs(randomSeed: nat, dataFile: string)

  /** `init_args`: initial-value radius and files. */
  datatype InitArgs = InitArgs(initRadius: real, initFiles: seq<string>)

  /** `inference_args`: settings shared by all inference algorithms. */
  datatype InferenceArgs = InferenceArgs(model: ModelArgs, numChains: nat, init: InitArgs,
                                         outputDir: string)

  /** `hmc_nuts_args`. `metricType` is the underlying value of the `metric_t`
      enumerant (see MetricType.FromCode); doubles are modelled as reals. */
  datatype HmcNutsArgs = HmcNutsArgs(
    base: InferenceArgs,
    numWarmup: int, numSamples: int, thin: int, refresh: int,
    metricType: int, metricFiles: seq<string>,
    stepsize: real, stepsizeJitter: real, maxDepth: int,
    saveStartParams: bool, saveWarmup: bool, saveDiagnostics: bool, saveMetric: bool,
    delta: real, gamma: real, kappa: real, t0: real,
    initBuffer: nat, termBuffer: nat, window: nat)

  /** The default member initialisers of the four records. */
  function DefaultHmcNutsArgs(): (a: HmcNutsArgs)
    ensures a.base.numChains == 1 && a.base.model.randomSeed == 1
    ensures a.base.init.initFiles == [] && a.metricFiles == [] && a.base.outputDir == ""
    ensures FromCode(a.metricType) == Some(DiagE)
  {
    HmcNutsArgs(
      InferenceArgs(ModelArgs(1, ""), 1, InitArgs(2.0, []), ""),
      1000, 1000, 1, 100,
      DiagE.Code(), [],
      1.0, 0.0, 10,
      false, false, false, false,
      0.8, 0.05, 0.75, 10.0,
      75, 50, 25)
  }

  /** The thinning check of this header: a period longer than the sampling
      run, except when no samples are drawn at all. */
  predicate ThinRejected(args: HmcNutsArgs)
  {
    args.numSamples > 0 && args.thin > args.numSamples
  }

  /** `validate_hmc_arguments`: thinning, then the `--inits` list, then the
      `--metric` list; the first failing check alone writes the message. */
  function ValidateHmcArguments(args: HmcNutsArgs, errorMessage: string): (r: Verdict)
    ensures r.ok <==> (!ThinRejected(args)
                       && FileCountAccepted(|args.base.init.initFiles|, args.base.numChains)
                       && FileCountAccepted(|args.metricFiles|, args.base.numChains))
    ensures r.ok ==> r.errorMessage == errorMessage
    ensures ThinRejected(args) ==>
              StartsWith(r.errorMessage, ThinHead)
              && Contains(r.errorMessage, "thin") && Contains(r.errorMessage, "exceed")
    ensures !ThinRejected(args)
            && !FileCountAccepted(|args.base.init.initFiles|, args.base.numChains) ==>
              StartsWith(r.errorMessage, FileCountHead("--inits")) && Contains(r.errorMessage, "--inits")
    ensures !ThinRejected(args)
            && FileCountAccepted(|args.base.init.initFiles|, args.base.numChains)
            && !FileCountAccepted(|args.metricFiles|, args.base.numChains) ==>
              StartsWith(r.errorMessage, FileCountHead("--metric")) && Contains(r.errorMessage, "--metric")
  {
    var n := args.base.numChains;
    if ThinRejected(args) then
      Verdict(false, ThinMessage(args.thin, args.numSamples))
    else if !FileCountAccepted(|args.base.init.initFiles|, n) then
      Verdict(false, FileCountMessage("--inits", n, |args.base.init.initFiles|))
    else if !FileCountAccepted(|args.metricFiles|, n) then
      Verdict(false, FileCountMessage("--metric", n, |args.metricFiles|))
    else
      Verdict(true, errorMessage)
  }

  /** A failed validation names exactly one check: the message starts with
      the words of the first check that fails and of no other. */
  lemma ValidationReportsFirstFailure(args: HmcNutsArgs, errorMessage: string)
    requires !ValidateHmcArguments(args, errorMessage).ok
    ensures var m := ValidateHmcArguments(args, errorMessage).errorMessage;
            var n := args.base.numChains;
            && (StartsWith(m, ThinHead) <==> ThinRejected(args))
            && (StartsWith(m, FileCountHead("--inits")) <==>
                  !ThinRejected(args) && !FileCountAccepted(|args.base.init.initFiles|, n))
            && (StartsWith(m, FileCountHead("--metric")) <==>
                  !ThinRejected(args) && FileCountAccepted(|args.base.init.initFiles|, n)
                  && !FileCountAccepted(|args.metricFiles|, n))
  {
    MessagesDistinct(args.thin, args.numSamples, args.base.numChains,
                     |args.base.init.initFiles|, |args.metricFiles|);
  }

  /** The boundary cases this header accepts: a period equal to the number
      of samples, and any period when no samples are drawn. */
  lemma ThinBoundaries(args: HmcNutsArgs)
    requires args.thin == args.numSamples || args.numSamples == 0
    ensures !ThinRejected(args)
  {
  }

  /** The default arguments pass validation. */
  lemma DefaultsValidate(errorMessage: string)
    ensures ValidateHmcArguments(DefaultHmcNutsArgs(), errorMessage) == Verdict(true, errorMessage)
  {
  }

  /** `get_init_file_for_chain`. */
  function GetInitFileForChain(init: InitArgs, chainIdx: nat): (r: string)
    requires |init.initFiles| <= 1 || chainIdx < |init.initFiles|
    ensures |init.initFiles| == 0 ==> r == ""
    ensures |init.initFiles| == 1 ==> r == init.initFiles[0]
    ensures |init.initFiles| > 1 ==> r == init.initFiles[chainIdx]
  {
    FileForChain(init.initFiles, chainIdx)
  }

  /** `get_metric_file_for_chain`. */
  function GetMetricFileForChain(args: HmcNutsArgs, chainIdx: nat): (r: string)
    requires |args.metricFiles| <= 1 || chainIdx < |args.metricFiles|
    ensures |args.metricFiles| == 0 ==> r == ""
    ensures |args.metricFiles| == 1 ==> r == args.metricFiles[0]
    ensures |args.metricFiles| > 1 ==> r == args.metricFiles[chainIdx]
  {
    FileForChain(args.metricFiles, chainIdx)
  }

  /** Validation is what makes the lookups safe: once it passes, every chain
      of the run finds its init and metric file within the lists. */
  lemma ValidatedLookupsInBounds(args: HmcNutsArgs, errorMessage: string, chainIdx: nat)
    requires ValidateHmcArguments(args, errorMessage).ok && chainIdx < args.base.numChains
    ensures |args.base.init.initFiles| <= 1 || chainIdx < |args.base.init.initFiles|
    ensures |args.metricFiles| <= 1 || chainIdx < |args.metricFiles|
    ensures var f := GetInitFileForChain(args.base.init, chainIdx);
            f == "" || f in args.base.init.initFiles
    ensures var f := GetMetricFileForChain(args, chainIdx);
            f == "" || f in args.metricFiles
  {
    AcceptedListInBounds(args.base.init.initFiles, args.base.numChains, chainIdx);
    AcceptedListInBounds(args.metricFiles, args.base.numChains, chainIdx);
  }

  /** `create_metric_map`: the names `--metric-type` accepts. */
  function CreateMetricMap(): (m: map<string, MetricKind>)
    ensures m.Keys == {"unit_e", "diag_e", "dense_e"}
    ensures m.Values == {UnitE, DiagE, DenseE}
    ensures m["unit_e"] == UnitE && m["diag_e"] == DiagE && m["dense_e"] == DenseE
    ensures forall a, b :: a in m && b in m && a != b ==> m[a] != m[b]
  {
    map["unit_e" := UnitE, "diag_e" := DiagE, "dense_e" := DenseE]
  }

  /** The guard of `finalize_hmc_arguments`: an empty output directory is
      replaced by a freshly created temporary one (`tempDir`, standing for
      `create_temp_output_dir()`); everything else is left as it was. */
  function FinalizeHmcArguments(args: HmcNutsArgs, tempDir: string): (r: HmcNutsArgs)
    ensures args.base.outputDir != "" ==> r == args
    ensures args.base.outputDir == "" ==>
              r == args.(base := args.base.(outputDir := tempDir))
  {
    if args.base.outputDir == "" then args.(base := args.base.(outputDir := tempDir)) else args
  }

  /** With a non-empty temporary directory, finalising leaves a non-empty
      output directory, and finalising twice changes nothing more. */
  lemma FinalizeIdempotent(args: HmcNutsArgs, tempDir: string, tempDir': string)
    requires tempDir != ""
    ensures FinalizeHmcArguments(args, tempDir).base.outputDir != ""
    ensures FinalizeHmcArguments(FinalizeHmcArguments(args, tempDir), tempDir')
            == FinalizeHmcArguments(args, tempDir)
  {
  }

  /** `parse_model_args` after CLI11 has run: `cli` is the parse outcome
      (the parsed record, or the parser's exit code). */
  function ParseModelArgs(cli: Result<ModelArgs, int>): (r: Result<ModelArgs, string>)
    ensures cli.Success? <==> r.Success?
    ensures cli.Success? ==> r.value == cli.value
    ensures cli.Failure? ==> StartsWith(r.error, "Model argument parsing failed: ")
                             && Contains(r.error, "parsing failed")
  {
    match cli
    case Success(a) => Success(a)
    case Failure(code) =>
      var m := "Model argument parsing failed: " + IntToString(code);
      assert m == "Model argument " + "parsing failed" + (": " + IntToString(code));
      ContainsInfix("Model argument ", "parsing failed", ": " + IntToString(code));
      Failure(m)
  }

  /** `parse_hmc_args` after CLI11 has run: a parser failure reports its
      exit code; a parsed record must then pass ValidateHmcArguments, whose
      message becomes the error. */
  function ParseHmcArgs(cli: Result<HmcNutsArgs, int>): (r: Result<HmcNutsArgs, string>)
    ensures r.Success? <==> cli.Success? && ValidateHmcArguments(cli.value, "").ok
    ensures r.Success? ==> r.value == cli.value
    ensures cli.Failure? ==> StartsWith(r.error, "HMC argument parsing failed: ")
                             && Contains(r.error, "parsing failed")
    ensures cli.Success? && r.Failure? ==>
              r.error == ValidateHmcArguments(cli.value, "").errorMessage
  {
    match cli
    case Failure(code) =>
      var m := "HMC argument parsing failed: " + IntToString(code);
      assert m == "HMC argument " + "parsing failed" + (": " + IntToString(code));
      ContainsInfix("HMC argument ", "parsing failed", ": " + IntToString(code));
      Failure(m)
    case Success(a) =>
      var v := ValidateHmcArguments(a, "");
      if v.ok then Success(a) else Failure(v.errorMessage)
  }
}
