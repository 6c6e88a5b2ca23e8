/** `run_samplers.hpp`: running the configured samplers, one chain after
    another. `run_adaptive_sampler` is opaque here: each call is recorded in
    a run log, and a caller-supplied function says whether it throws (and
    with what message). The progress lines written to the console are not
    modelled. */
module RunSamplers {
  import opened Wrappers
  import opened Text
  import opened MetricType
  import opened OutputWriters
  import opened HmcOutputWriters
  import opened Stan
  import opened LoadSamplers
  import Arguments
  import HmcNutsArguments

  /** The arguments of one `run_adaptive_sampler` call. */
  datatype RunRequest = RunRequest(
    sampler: Sampler, model: Model, initParams: seq<real>,
    numWarmup: int, numSamples: int, thin: int, refresh: int, saveWarmup: bool,
    rng: Rng, sampleWriter: Writer, diagnosticSink: Sink, metricSink: Sink,
    chainId: nat, numChains: nat)

  /** The `run_adaptive_sampler` calls made so far, in order. */
  class RunLog {
    var runs: seq<RunRequest>

    constructor ()
      ensures runs == []
    {
      runs := [];
    }
  }

  /** The index of the first request whose run throws, or the number of
      requests when none does. */
  function FirstFailure(reqs: seq<RunRequest>, run: RunRequest -> Option<string>): (j: nat)
    ensures j <= |reqs|
    ensures forall k :: 0 <= k < j ==> run(reqs[k]).None?
    ensures j < |reqs| ==> run(reqs[j]).Some?
    decreases |reqs|
  {
    if reqs == [] then 0
    else if run(reqs[0]).Some? then 0
    else 1 + FirstFailure(reqs[1..], run)
  }

  /** Running `reqs` one after another, the first exception ending the
      sequence and propagating: the log gains the requests up to and
      including the one that threw, and the error is that request's. */
  predicate RanInOrder(before: seq<RunRequest>, after: seq<RunRequest>, reqs: seq<RunRequest>,
                       run: RunRequest -> Option<string>, err: Option<string>)
  {
    var j := FirstFailure(reqs, run);
    && (j == |reqs| ==> after == before + reqs && err.None?)
    && (j < |reqs| ==> after == before + reqs[..j + 1] && err == run(reqs[j]))
  }

  /** A run of requests in order has run only a prefix of them, ends with an
      error exactly when one of them throws, and the error is that of the
      last request run, every earlier one having succeeded. */
  lemma RanInOrderMeaning(before: seq<RunRequest>, after: seq<RunRequest>, reqs: seq<RunRequest>,
                          run: RunRequest -> Option<string>, err: Option<string>)
    requires RanInOrder(before, after, reqs, run, err)
    ensures |before| <= |after| <= |before| + |reqs| && after[..|before|] == before
    ensures forall k :: |before| <= k < |after| ==> after[k] == reqs[k - |before|]
    ensures err.None? <==> forall k :: 0 <= k < |reqs| ==> run(reqs[k]).None?
    ensures err.None? ==> |after| == |before| + |reqs|
    ensures err.Some? ==> |before| < |after| && err == run(after[|after| - 1])
    ensures forall k :: |before| <= k < |after| - 1 ==> run(after[k]).None?
  {
    var j := FirstFailure(reqs, run);
    if j < |reqs| {
      assert after == before + reqs[..j + 1];
      assert after[|after| - 1] == reqs[j];
    }
  }

  /** Appending the next request to a logged prefix logs a longer prefix. */
  lemma AppendNext(before: seq<RunRequest>, reqs: seq<RunRequest>, i: nat)
    requires i < |reqs|
    ensures before + reqs[..i] + [reqs[i]] == before + reqs[..i + 1]
  {
    assert reqs[..i + 1] == reqs[..i] + [reqs[i]];
  }

  /** `sampler_runner`: runs the chains of a configuration with the
      arguments and writers it was given. */
  class SamplerRunner {
    const model: Model
    const args: Arguments.HmcNutsArgs
    const writers: seq<HmcNutsWriters>
    const log: RunLog
    const runAdaptive: RunRequest -> Option<string>

    constructor (model: Model, args: Arguments.HmcNutsArgs, writers: seq<HmcNutsWriters>,
                 log: RunLog, runAdaptive: RunRequest -> Option<string>)
      ensures this.model == model && this.args == args && this.writers == writers
      ensures this.log == log && this.runAdaptive == runAdaptive
    {
      this.model := model;
      this.args := args;
      this.writers := writers;
      this.log := log;
      this.runAdaptive := runAdaptive;
    }

    /** Every chain has a sampler, generator, initial values and writers,
        and a sample writer to write to. */
    predicate CanRun(config: SamplerConfig)
    {
      var n := args.base.numChains;
      && |config.samplers| >= n && |config.rngs| >= n && |config.initParams| >= n
      && |writers| >= n
      && forall i :: 0 <= i < n ==> writers[i].sample.Some?
    }

    /** The call that runs chain i (numbered i + 1 of all chains), the
        no-op writer standing in for a missing diagnostic or metric writer. */
    function Request(config: SamplerConfig, i: nat): RunRequest
      requires CanRun(config) && i < args.base.numChains
    {
      RunRequest(config.samplers[i], model, config.initParams[i],
                 args.numWarmup, args.numSamples, args.thin, args.refresh, args.saveWarmup,
                 config.rngs[i], writers[i].sample.value,
                 SinkOf(writers[i].diagnostics), SinkOf(writers[i].metric),
                 i + 1, args.base.numChains)
    }

    /** The calls for all chains, in chain order. */
    function Requests(config: SamplerConfig): (rs: seq<RunRequest>)
      requires CanRun(config)
      ensures |rs| == args.base.numChains
    {
      seq(args.base.numChains, i requires 0 <= i < args.base.numChains => Request(config, i))
    }

    /** `run_single_chain`: one `run_adaptive_sampler` call for the chain. */
    method RunSingleChain(config: SamplerConfig, chainIdx: nat) returns (err: Option<string>)
      requires CanRun(config) && chainIdx < args.base.numChains
      modifies log
      ensures log.runs == old(log.runs) + [Request(config, chainIdx)]
      ensures err == runAdaptive(Request(config, chainIdx))
    {
      var diagnosticWriter := if writers[chainIdx].diagnostics.Some?
                              then WriterSink(writers[chainIdx].diagnostics.value) else NoOpSink;
      var metricWriter := if writers[chainIdx].metric.Some?
                          then WriterSink(writers[chainIdx].metric.value) else NoOpSink;
      var request := RunRequest(config.samplers[chainIdx], model, config.initParams[chainIdx],
                                args.numWarmup, args.numSamples, args.thin, args.refresh,
                                args.saveWarmup, config.rngs[chainIdx],
                                writers[chainIdx].sample.value, diagnosticWriter, metricWriter,
                                chainIdx + 1, args.base.numChains);
      log.runs := log.runs + [request];
      err := runAdaptive(request);
    }

    /** `run_multiple_chains_sequential`: chains 1..n in order; a chain that
        throws ends the loop and its exception propagates. */
    method RunMultipleChainsSequential(config: SamplerConfig) returns (err: Option<string>)
      requires CanRun(config)
      modifies log
      ensures RanInOrder(old(log.runs), log.runs, Requests(config), runAdaptive, err)
    {
      ghost var reqs := Requests(config);
      var i := 0;
      while i < args.base.numChains
        invariant 0 <= i <= args.base.numChains
        invariant forall k :: 0 <= k < i ==> runAdaptive(reqs[k]).None?
        invariant log.runs == old(log.runs) + reqs[..i]
      {
        err := RunSingleChain(config, i);
        AppendNext(old(log.runs), reqs, i);
        if err.Some? {
          assert FirstFailure(reqs, runAdaptive) == i;
          return;
        }
        i := i + 1;
      }
      err := None;
      assert reqs[..i] == reqs;
    }

    /** `operator()`: a single chain is run directly, several in sequence;
        both paths run the same calls. */
    method Apply(config: SamplerConfig) returns (err: Option<string>)
      requires CanRun(config)
      modifies log
      ensures RanInOrder(old(log.runs), log.runs, Requests(config), runAdaptive, err)
    {
      if args.base.numChains == 1 {
        err := RunSingleChain(config, 0);
        ghost var reqs := Requests(config);
        assert reqs[..1] == reqs == [Request(config, 0)];
      } else {
        err := RunMultipleChainsSequential(config);
      }
    }
  }

  /** The start-parameter writer of each of the first n chains, null where
      none was created. */
  function StartParamsWriters(writers: seq<HmcNutsWriters>, n: nat): (ws: seq<Option<Writer>>)
    requires n <= |writers|
    ensures |ws| == n
  {
    seq(n, i requires 0 <= i < n => writers[i].startParams)
  }

  /** The loop of `run_samplers` that collects the init writers. */
  method CollectInitWriters(writers: seq<HmcNutsWriters>, n: nat) returns (ws: seq<Option<Writer>>)
    requires n <= |writers|
    ensures ws == StartParamsWriters(writers, n)
  {
    ws := [];
    var i := 0;
    while i < n
      invariant 0 <= i <= n
      invariant |ws| == i
      invariant forall k :: 0 <= k < i ==> ws[k] == writers[k].startParams
    {
      ws := ws + [if writers[i].startParams.Some? then Some(writers[i].startParams.value) else None];
      i := i + 1;
    }
  }

  /** With writers created for the run, chain i's init writer is present
      exactly when start parameters are saved, and it is the start-parameter
      CSV file of chain i + 1. */
  lemma InitWritersOfCreated(args: HmcNutsArguments.HmcNutsArgs, modelName: string,
                             timestamp: string, commentPrefix: string, writers: seq<HmcNutsWriters>)
    requires |writers| == args.numChains
    requires forall k :: 0 <= k < |writers| ==>
               writers[k] == CreateSingleChainWriters(args, modelName, timestamp, k + 1, commentPrefix)
    ensures var ws := StartParamsWriters(writers, args.numChains);
            forall i :: 0 <= i < |ws| ==>
              && (ws[i].Some? <==> args.saveStartParams)
              && (ws[i].Some? ==> ws[i].value == CreateWriter(Csv, args.outputDir, modelName, timestamp,
                                                             i + 1, "start_params", ".csv", ""))
  {
  }

  /** Run q is the call for chain k + 1 of a run with these arguments and
      writers, from chain k's setup. */
  predicate RunFollows(q: RunRequest, model: Model, args: Arguments.HmcNutsArgs,
                       writers: seq<HmcNutsWriters>, k: nat, setup: ChainSetup)
    requires k < |writers|
  {
    && q.model == model && q.chainId == k + 1 && q.numChains == args.base.numChains
    && q.rng == setup.rng && q.initParams == setup.initParams
    && Some(q.sampleWriter) == writers[k].sample
    && q.diagnosticSink == SinkOf(writers[k].diagnostics) && q.metricSink == SinkOf(writers[k].metric)
    && q.numWarmup == args.numWarmup && q.numSamples == args.numSamples && q.thin == args.thin
    && q.refresh == args.refresh && q.saveWarmup == args.saveWarmup
  }

  /** The chains set up by `setups` were run in order from the first: the
      log gained one call per chain run, each following its chain's setup;
      the run ends early exactly when a chain throws, and then reports that
      chain's error. */
  predicate ChainsRan(before: seq<RunRequest>, after: seq<RunRequest>, model: Model,
                      args: Arguments.HmcNutsArgs, writers: seq<HmcNutsWriters>,
                      setups: seq<ChainSetup>, run: RunRequest -> Option<string>, err: Option<string>)
  {
    && |setups| <= |writers|
    && |before| <= |after| <= |before| + |setups| && after[..|before|] == before
    && (forall k :: |before| <= k < |after| ==>
          RunFollows(after[k], model, args, writers, k - |before|, setups[k - |before|]))
    && (err.None? <==> |after| == |before| + |setups| && forall k :: |before| <= k < |after| ==> run(after[k]).None?)
    && (err.Some? ==> |before| < |after| && err == run(after[|after| - 1]))
    && (forall k :: |before| <= k < |after| - 1 ==> run(after[k]).None?)
  }

  /** Each chain that ran used its own sampler, configured as its setup says. */
  predicate SamplersRan(before: seq<RunRequest>, after: seq<RunRequest>, req: LoadRequest,
                        setups: seq<ChainSetup>)
    reads set k | 0 <= k < |after| :: after[k].sampler
  {
    && |before| <= |after| <= |before| + |setups|
    && (forall k :: |before| <= k < |after| ==>
          SamplerMatches(after[k].sampler, req, setups[k - |before|]))
    && (forall j, k :: |before| <= j < k < |after| ==> after[j].sampler != after[k].sampler)
  }

  /** The calls of a runner over a configuration that matches the setups
      follow those setups, chain by chain. */
  lemma RequestsFollowSetups(runner: SamplerRunner, config: SamplerConfig, req: LoadRequest,
                             setups: seq<ChainSetup>)
    requires runner.CanRun(config) && ConfigMatches(config, req, setups)
    requires |setups| == runner.args.base.numChains
    requires runner.model == req.model && runner.args == req.args
    ensures forall i :: 0 <= i < |setups| ==>
              && RunFollows(runner.Requests(config)[i], runner.model, runner.args, runner.writers, i, setups[i])
              && runner.Requests(config)[i].sampler == config.samplers[i]
  {
  }

  /** Running a matching configuration in order runs the chains as their
      setups say. */
  lemma ChainsRanAsSetUp(runner: SamplerRunner, config: SamplerConfig, req: LoadRequest,
                         setups: seq<ChainSetup>, before: seq<RunRequest>, after: seq<RunRequest>,
                         err: Option<string>)
    requires runner.CanRun(config) && ConfigMatches(config, req, setups)
    requires |setups| == runner.args.base.numChains
    requires runner.model == req.model && runner.args == req.args
    requires RanInOrder(before, after, runner.Requests(config), runner.runAdaptive, err)
    ensures ChainsRan(before, after, runner.model, runner.args, runner.writers, setups,
                      runner.runAdaptive, err)
    ensures forall k :: |before| <= k < |after| ==> after[k].sampler == config.samplers[k - |before|]
    ensures (forall j, k :: 0 <= j < k < |config.samplers| ==> config.samplers[j] != config.samplers[k]) ==>
              SamplersRan(before, after, req, setups)
  {
    RanInOrderMeaning(before, after, runner.Requests(config), runner.runAdaptive, err);
    RequestsFollowSetups(runner, config, req, setups);
  }

  /** `run_samplers`: collect the init writers, create the samplers and run
      them. An unknown metric or a failed setup is reported before any
      chain runs. */
  method RunSamplers(model: Model, args: Arguments.HmcNutsArgs,
                     initContexts: seq<VarContext>, metricContexts: seq<Option<VarContext>>,
                     writers: seq<HmcNutsWriters>, logger: Logger, log: RunLog, svc: Services,
                     runAdaptive: RunRequest -> Option<string>)
    returns (err: Option<string>)
    requires |initContexts| >= args.base.numChains && |metricContexts| >= args.base.numChains
    requires |writers| >= args.base.numChains
    requires forall i :: 0 <= i < args.base.numChains ==> writers[i].sample.Some?
    modifies logger, log
    ensures FromCode(args.metricType).None? ==>
              && err == Some("Unknown metric type: " + IntToString(args.metricType))
              && log.runs == old(log.runs) && logger.warnings == old(logger.warnings)
    ensures FromCode(args.metricType).Some? ==>
              var req := LoadRequest(FromCode(args.metricType).value, model, args, initContexts,
                                     metricContexts, StartParamsWriters(writers, args.base.numChains), svc);
              var spec := Collect(ChainOutcomes(req), args.base.numChains);
              && logger.warnings == old(logger.warnings) + spec.warnings
              && (spec.result.Failure? ==>
                    err == Some("Error configuring samplers: " + spec.result.error) && log.runs == old(log.runs))
              && (spec.result.Success? ==>
                    && ChainsRan(old(log.runs), log.runs, model, args, writers, spec.result.value, runAdaptive, err)
                    && SamplersRan(old(log.runs), log.runs, req, spec.result.value))
  {
    var initWriters := CollectInitWriters(writers, args.base.numChains);
    var created := CreateSamplers(model, args, initContexts, metricContexts, logger, initWriters, svc);
    if created.Failure? {
      return Some(created.error);
    }
    var config := created.value.config;
    ghost var req := LoadRequest(FromCode(args.metricType).value, model, args, initContexts,
                                 metricContexts, StartParamsWriters(writers, args.base.numChains), svc);
    ghost var setups := Collect(ChainOutcomes(req), args.base.numChains).result.value;
    CollectSuccess(ChainOutcomes(req), args.base.numChains);
    assert ConfigMatches(config, req, setups) && |setups| == args.base.numChains;
    var runner := new SamplerRunner(model, args, writers, log, runAdaptive);
    assert runner.CanRun(config);
    ghost var before := log.runs;
    err := runner.Apply(config);
    assert ConfigMatches(config, req, setups);
    assert before == old(log.runs);
    ChainsRanAsSetUp(runner, config, req, setups, old(log.runs), log.runs, err);
  }
}
