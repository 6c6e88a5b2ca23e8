/** `hmc_output_writers.hpp`: the set of writers one NUTS chain writes to,
    and the per-chain sets of a multi-chain run. This header reads the flat
    argument record (`output_dir`, `num_chains` and the three save flags). */
module HmcOutputWriters {
  import opened Wrappers
  import opened OutputWriters
  import HmcNutsArguments

  /** `hmc_nuts_writers`: an absent writer is a null pointer in the source. */
  datatype HmcNutsWriters = HmcNutsWriters(
    sample: Option<Writer>,
    startParams: Option<Writer>,
    diagnostics: Option<Writer>,
    metric: Option<Writer>)

  /** `create_hmc_nuts_single_chain_writers`: the sample writer always, the
      others only when their save flag is set. */
  function CreateSingleChainWriters(args: HmcNutsArguments.HmcNutsArgs, modelName: string,
                                    timestamp: string, chainId: nat,
                                    commentPrefix: string): (w: HmcNutsWriters)
    ensures w.sample == Some(CreateWriter(Csv, args.outputDir, modelName, timestamp, chainId,
                                          "sample", ".csv", commentPrefix))
    ensures w.startParams.Some? <==> args.saveStartParams
    ensures w.startParams.Some? ==>
              w.startParams.value == CreateWriter(Csv, args.outputDir, modelName, timestamp, chainId,
                                                  "start_params", ".csv", "")
    ensures w.diagnostics.Some? <==> args.saveDiagnostics
    ensures w.diagnostics.Some? ==>
              w.diagnostics.value == CreateWriter(Csv, args.outputDir, modelName, timestamp, chainId,
                                                  "param_grads", ".csv", commentPrefix)
    ensures w.metric.Some? <==> args.saveMetric
    ensures w.metric.Some? ==>
              w.metric.value == CreateWriter(Json, args.outputDir, modelName, timestamp, chainId,
                                             "metric", ".json", "")
  {
    HmcNutsWriters(
      Some(CreateWriter(Csv, args.outputDir, modelName, timestamp, chainId,
                        "sample", ".csv", commentPrefix)),
      if args.saveStartParams
      then Some(CreateWriter(Csv, args.outputDir, modelName, timestamp, chainId,
                             "start_params", ".csv", ""))
      else None,
      if args.saveDiagnostics
      then Some(CreateWriter(Csv, args.outputDir, modelName, timestamp, chainId,
                             "param_grads", ".csv", commentPrefix))
      else None,
      if args.saveMetric
      then Some(CreateWriter(Json, args.outputDir, modelName, timestamp, chainId,
                             "metric", ".json", ""))
      else None)
  }

  /** `create_hmc_nuts_multi_chain_writers`: one writer set per chain, chain
      ids 1..num_chains, all named with the one timestamp taken before the
      loop (the clock reading is a parameter here). The loop counter is an
      `unsigned int` compared with `num_chains`, so a chain count of 2^32 - 1
      or more would never end the loop. */
  method CreateMultiChainWriters(args: HmcNutsArguments.HmcNutsArgs, modelName: string,
                                 timestamp: string, commentPrefix: string)
    returns (r: seq<HmcNutsWriters>)
    requires args.numChains < 0xFFFF_FFFF
    ensures |r| == args.numChains
    ensures forall k :: 0 <= k < |r| ==>
              r[k] == CreateSingleChainWriters(args, modelName, timestamp, k + 1, commentPrefix)
  {
    r := [];
    var i: nat := 1;
    while i <= args.numChains
      invariant 1 <= i <= args.numChains + 1
      invariant |r| == i - 1
      invariant forall k :: 0 <= k < |r| ==>
                  r[k] == CreateSingleChainWriters(args, modelName, timestamp, k + 1, commentPrefix)
    {
      r := r + [CreateSingleChainWriters(args, modelName, timestamp, i, commentPrefix)];
      i := i + 1;
    }
  }

  function CountIf(b: bool): nat
  {
    if b then 1 else 0
  }

  function CsvCountOf(w: Option<Writer>): nat
  {
    if w.Some? && w.value.CsvWriter? then 1 else 0
  }

  function JsonCountOf(w: Option<Writer>): nat
  {
    if w.Some? && w.value.JsonWriter? then 1 else 0
  }

  /** How many CSV files one chain's set writes to. */
  function CsvCount(w: HmcNutsWriters): nat
  {
    CsvCountOf(w.sample) + CsvCountOf(w.startParams) + CsvCountOf(w.diagnostics)
    + CsvCountOf(w.metric)
  }

  /** How many JSON files one chain's set writes to. */
  function JsonCount(w: HmcNutsWriters): nat
  {
    JsonCountOf(w.sample) + JsonCountOf(w.startParams) + JsonCountOf(w.diagnostics)
    + JsonCountOf(w.metric)
  }

  /** `f` summed over all chains. */
  function SumOver(ws: seq<HmcNutsWriters>, f: HmcNutsWriters -> nat): nat
  {
    if ws == [] then 0 else SumOver(ws[..|ws| - 1], f) + f(ws[|ws| - 1])
  }

  /** Total CSV files over all chains. */
  function TotalCsv(ws: seq<HmcNutsWriters>): nat
  {
    SumOver(ws, CsvCount)
  }

  /** Total JSON files over all chains. */
  function TotalJson(ws: seq<HmcNutsWriters>): nat
  {
    SumOver(ws, JsonCount)
  }

  /** One chain writes one CSV file for samples, one more for each of the
      start-params and diagnostics flags, and a JSON file iff the metric is
      saved. */
  lemma SingleChainCounts(args: HmcNutsArguments.HmcNutsArgs, modelName: string,
                          timestamp: string, chainId: nat, commentPrefix: string)
    ensures var w := CreateSingleChainWriters(args, modelName, timestamp, chainId, commentPrefix);
            && CsvCount(w) == 1 + CountIf(args.saveStartParams) + CountIf(args.saveDiagnostics)
            && JsonCount(w) == CountIf(args.saveMetric)
  {
  }

  /** Summing a per-chain count that is the same for every chain. */
  lemma {:induction false} UniformSum(ws: seq<HmcNutsWriters>, f: HmcNutsWriters -> nat, c: nat)
    requires forall k :: 0 <= k < |ws| ==> f(ws[k]) == c
    ensures SumOver(ws, f) == |ws| * c
  {
    if ws != [] {
      var init := ws[..|ws| - 1];
      assert forall k :: 0 <= k < |init| ==> init[k] == ws[k];
      UniformSum(init, f, c);
      assert |ws| * c == |init| * c + c;
    }
  }

  /** A multi-chain run writes num_chains times the per-chain counts. */
  lemma MultiChainCounts(args: HmcNutsArguments.HmcNutsArgs, modelName: string, timestamp: string,
                         commentPrefix: string, ws: seq<HmcNutsWriters>)
    requires |ws| == args.numChains
    requires forall k :: 0 <= k < |ws| ==>
               ws[k] == CreateSingleChainWriters(args, modelName, timestamp, k + 1, commentPrefix)
    ensures TotalCsv(ws) == args.numChains
                            * (1 + CountIf(args.saveStartParams) + CountIf(args.saveDiagnostics))
    ensures TotalJson(ws) == args.numChains * CountIf(args.saveMetric)
  {
    var csv := 1 + CountIf(args.saveStartParams) + CountIf(args.saveDiagnostics);
    var json := CountIf(args.saveMetric);
    forall k | 0 <= k < |ws|
      ensures CsvCount(ws[k]) == csv && JsonCount(ws[k]) == json
    {
      SingleChainCounts(args, modelName, timestamp, k + 1, commentPrefix);
    }
    UniformSum(ws, CsvCount, csv);
    UniformSum(ws, JsonCount, json);
  }

  /** Two chains saving start params and the metric write four CSV and two
      JSON files. */
  lemma TwoChainExample(args: HmcNutsArguments.HmcNutsArgs, modelName: string, timestamp: string,
                        commentPrefix: string, ws: seq<HmcNutsWriters>)
    requires args.numChains == 2 && args.saveStartParams && !args.saveDiagnostics && args.saveMetric
    requires |ws| == args.numChains
    requires forall k :: 0 <= k < |ws| ==>
               ws[k] == CreateSingleChainWriters(args, modelName, timestamp, k + 1, commentPrefix)
    ensures TotalCsv(ws) == 4 && TotalJson(ws) == 2
  {
    MultiChainCounts(args, modelName, timestamp, commentPrefix, ws);
  }

  /** The four kinds of file a chain can write. */
  datatype DataFile = SampleFile | StartParamsFile | ParamGradsFile | MetricFile
  {
    function DataType(): string
    {
      match this
      case SampleFile => "sample"
      case StartParamsFile => "start_params"
      case ParamGradsFile => "param_grads"
      case MetricFile => "metric"
    }

    function Extension(): string
    {
      if this == MetricFile then ".json" else ".csv"
    }

    /** What follows the chain id in the file name. */
    function Tail(): (t: string)
      ensures t == "_" + DataType() + Extension()
    {
      "_" + DataType() + Extension()
    }
  }

  /** Different kinds of file end differently (their tails even differ in
      length), so their names never coincide. */
  lemma TailInjective(a: DataFile, b: DataFile)
    requires a != b
    ensures a.Tail() != b.Tail()
  {
    assert |SampleFile.Tail()| == 11 && |StartParamsFile.Tail()| == 17;
    assert |ParamGradsFile.Tail()| == 16 && |MetricFile.Tail()| == 12;
  }

  /** The path of one kind of file of one chain. */
  function FileOf(args: HmcNutsArguments.HmcNutsArgs, modelName: string, timestamp: string,
                  chainId: nat, d: DataFile): string
  {
    CreateFilePath(args.outputDir, GenerateFilename(modelName, timestamp, chainId,
                                                    d.DataType(), d.Extension()))
  }

  /** The writer of a chain's set that is meant for one kind of file. */
  function FieldOf(w: HmcNutsWriters, d: DataFile): Option<Writer>
  {
    match d
    case SampleFile => w.sample
    case StartParamsFile => w.startParams
    case ParamGradsFile => w.diagnostics
    case MetricFile => w.metric
  }

  /** Each writer present in a chain's set targets the file of its kind. */
  lemma FieldPaths(args: HmcNutsArguments.HmcNutsArgs, modelName: string, timestamp: string,
                   chainId: nat, commentPrefix: string)
    ensures var w := CreateSingleChainWriters(args, modelName, timestamp, chainId, commentPrefix);
            forall d: DataFile :: FieldOf(w, d).Some? ==>
              FieldOf(w, d).value.path == FileOf(args, modelName, timestamp, chainId, d)
  {
  }

  /** Two files of a run coincide only if they are the same kind of file of
      the same chain. */
  lemma FileOfInjective(args: HmcNutsArguments.HmcNutsArgs, modelName: string, timestamp: string,
                        a: nat, d: DataFile, b: nat, e: DataFile)
    requires FileOf(args, modelName, timestamp, a, d) == FileOf(args, modelName, timestamp, b, e)
    ensures a == b && d == e
  {
    var f := GenerateFilename(modelName, timestamp, a, d.DataType(), d.Extension());
    var g := GenerateFilename(modelName, timestamp, b, e.DataType(), e.Extension());
    FilenameAbsolute(modelName, timestamp, a, d.DataType(), d.Extension());
    FilenameAbsolute(modelName, timestamp, b, e.DataType(), e.Extension());
    if f != g {
      FilePathInjective(args.outputDir, f, g);
    }
    FilenameDetermines(modelName, timestamp, a, d.DataType(), d.Extension(),
                       b, e.DataType(), e.Extension());
    if d != e {
      TailInjective(d, e);
    }
  }

  /** Writers of a run share a file only if they are the same writer of the
      same chain: within a chain the kinds of file differ, and across chains
      every name carries the chain id. */
  lemma DistinctFiles(args: HmcNutsArguments.HmcNutsArgs, modelName: string,
                      timestamp: string, commentPrefix: string, a: nat, d: DataFile, b: nat, e: DataFile)
    requires a != b || d != e
    ensures var v := CreateSingleChainWriters(args, modelName, timestamp, a, commentPrefix);
            var w := CreateSingleChainWriters(args, modelName, timestamp, b, commentPrefix);
            FieldOf(v, d).Some? && FieldOf(w, e).Some? ==> FieldOf(v, d).value.path != FieldOf(w, e).value.path
  {
    var v := CreateSingleChainWriters(args, modelName, timestamp, a, commentPrefix);
    var w := CreateSingleChainWriters(args, modelName, timestamp, b, commentPrefix);
    if FieldOf(v, d).Some? && FieldOf(w, e).Some? {
      FieldPaths(args, modelName, timestamp, a, commentPrefix);
      FieldPaths(args, modelName, timestamp, b, commentPrefix);
      if FieldOf(v, d).value.path == FieldOf(w, e).value.path {
        FileOfInjective(args, modelName, timestamp, a, d, b, e);
      }
    }
  }
}
