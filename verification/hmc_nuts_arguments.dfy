/** `hmc_nuts_arguments.hpp`: the older, flat argument record with its own
    validator, lookups, name tables and output-directory guard. Only the
    fields that the modelled operations (here and in the writer factory)
    read are kept. */
module HmcNutsArguments {
  import opened Text
  import opened MetricType
  import opened AlgorithmType
  import opened ArgumentChecks
  import Arguments

  /** The flat `hmc_nuts_args`, restricted to the fields read by the model. */
  datatype HmcNutsArgs = HmcNutsArgs(
    numChains: nat, initFiles: seq<string>,
    numSamples: int, thin: int, metricFiles: seq<string>,
    outputDir: string,
    saveStartParams: bool, saveDiagnostics: bool, saveMetric: bool)

  /** `validate_arguments`: the same three checks in the same order as the
      nested header, except that thinning is compared with the number of
      samples even when that number is zero. */
  function ValidateArguments(args: HmcNutsArgs, errorMessage: string): (r: Verdict)
    ensures r.ok <==> (args.thin <= args.numSamples
                       && FileCountAccepted(|args.initFiles|, args.numChains)
                       && FileCountAccepted(|args.metricFiles|, args.numChains))
    ensures r.ok ==> r.errorMessage == errorMessage
    ensures args.thin > args.numSamples ==>
              StartsWith(r.errorMessage, ThinHead)
              && Contains(r.errorMessage, "thin") && Contains(r.errorMessage, "exceed")
    ensures args.thin <= args.numSamples && !FileCountAccepted(|args.initFiles|, args.numChains) ==>
              StartsWith(r.errorMessage, FileCountHead("--inits")) && Contains(r.errorMessage, "--inits")
    ensures args.thin <= args.numSamples && FileCountAccepted(|args.initFiles|, args.numChains)
            && !FileCountAccepted(|args.metricFiles|, args.numChains) ==>
              StartsWith(r.errorMessage, FileCountHead("--metric")) && Contains(r.errorMessage, "--metric")
  {
    if args.thin > args.numSamples then
      Verdict(false, ThinMessage(args.thin, args.numSamples))
    else if !FileCountAccepted(|args.initFiles|, args.numChains) then
      Verdict(false, FileCountMessage("--inits", args.numChains, |args.initFiles|))
    else if !FileCountAccepted(|args.metricFiles|, args.numChains) then
      Verdict(false, FileCountMessage("--metric", args.numChains, |args.metricFiles|))
    else
      Verdict(true, errorMessage)
  }

  /** The two headers disagree on runs that draw no samples: with thin = 1
      and zero samples this header rejects what the nested one accepts,
      while on every run that draws samples their thinning checks agree. */
  lemma ZeroSamplesDisagreement(flat: HmcNutsArgs, nested: Arguments.HmcNutsArgs, errorMessage: string)
    requires flat.thin == nested.thin && flat.numSamples == nested.numSamples
    ensures flat.numSamples > 0 ==>
              ((flat.thin > flat.numSamples) <==> Arguments.ThinRejected(nested))
    ensures flat.thin == 1 && flat.numSamples == 0 ==>
              !ValidateArguments(flat, errorMessage).ok && !Arguments.ThinRejected(nested)
  {
  }

  /** `get_init_file_for_chain` of this header. */
  function GetInitFileForChain(args: HmcNutsArgs, chainIdx: nat): (r: string)
    requires |args.initFiles| <= 1 || chainIdx < |args.initFiles|
    ensures |args.initFiles| == 0 ==> r == ""
    ensures |args.initFiles| == 1 ==> r == args.initFiles[0]
    ensures |args.initFiles| > 1 ==> r == args.initFiles[chainIdx]
  {
    FileForChain(args.initFiles, chainIdx)
  }

  /** `get_metric_file_for_chain` of this header. */
  function GetMetricFileForChain(args: HmcNutsArgs, chainIdx: nat): (r: string)
    requires |args.metricFiles| <= 1 || chainIdx < |args.metricFiles|
    ensures |args.metricFiles| == 0 ==> r == ""
    ensures |args.metricFiles| == 1 ==> r == args.metricFiles[0]
    ensures |args.metricFiles| > 1 ==> r == args.metricFiles[chainIdx]
  {
    FileForChain(args.metricFiles, chainIdx)
  }

  /** After a successful validation both lookups stay within their lists for
      every chain of the run. */
  lemma ValidatedLookupsInBounds(args: HmcNutsArgs, errorMessage: string, chainIdx: nat)
    requires ValidateArguments(args, errorMessage).ok && chainIdx < args.numChains
    ensures |args.initFiles| <= 1 || chainIdx < |args.initFiles|
    ensures |args.metricFiles| <= 1 || chainIdx < |args.metricFiles|
  {
    AcceptedListInBounds(args.initFiles, args.numChains, chainIdx);
    AcceptedListInBounds(args.metricFiles, args.numChains, chainIdx);
  }

  /** `create_algorithm_map`: the names of the five algorithms. */
  function CreateAlgorithmMap(): (m: map<string, AlgorithmKind>)
    ensures m.Keys == {"hmc", "mle", "pathfinder", "advi", "gq"}
    ensures m["hmc"] == Stan2Hmc && m["mle"] == Mle && m["pathfinder"] == Pathfinder
    ensures m["advi"] == Advi && m["gq"] == StandaloneGq
    ensures forall a, b :: a in m && b in m && a != b ==> m[a].Code() != m[b].Code()
    ensures forall a :: a in m ==> 1 <= m[a].Code() <= 5
  {
    map["hmc" := Stan2Hmc, "mle" := Mle, "pathfinder" := Pathfinder,
        "advi" := Advi, "gq" := StandaloneGq]
  }

  /** `create_metric_map` of this header: the same table as the nested one. */
  function CreateMetricMap(): (m: map<string, MetricKind>)
    ensures m == Arguments.CreateMetricMap()
    ensures forall a, b :: a in m && b in m && a != b ==> m[a] != m[b]
  {
    map["unit_e" := UnitE, "diag_e" := DiagE, "dense_e" := DenseE]
  }

  /** `finalize_arguments`: an empty output directory is replaced by the
      temporary one (`tempDir`, for `create_temp_output_dir()`). */
  function FinalizeArguments(args: HmcNutsArgs, tempDir: string): (r: HmcNutsArgs)
    ensures args.outputDir != "" ==> r == args
    ensures args.outputDir == "" ==> r == args.(outputDir := tempDir)
  {
    if args.outputDir == "" then args.(outputDir := tempDir) else args
  }
}
