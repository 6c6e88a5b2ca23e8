/** `load_samplers.hpp`: building and configuring one NUTS sampler per chain.
    A sampler is modelled by what the glue code hands it: the model and
    generator it is constructed with and the settings passed to its setters.
    The logger keeps only the warnings this file itself issues. */
module LoadSamplers {
  import opened Wrappers
  import opened Text
  import opened MetricType
  import opened OutputWriters
  import opened Stan
  import Arguments

  /** An inverse metric as handed to `set_metric`. */
  datatype Metric = DiagMetric(diag: seq<real>) | DenseMetric(dense: seq<seq<real>>)

  /** The ones vector of length n (`VectorXd::Ones(n)`). */
  function Ones(n: nat): (v: seq<real>)
    ensures |v| == n
    ensures forall i :: 0 <= i < n ==> v[i] == 1.0
  {
    seq(n, _ => 1.0)
  }

  /** The n x n identity (`MatrixXd::Identity(n, n)`). */
  function Identity(n: nat): (m: seq<seq<real>>)
    ensures |m| == n
    ensures forall i :: 0 <= i < n ==> |m[i]| == n
    ensures forall i, j :: 0 <= i < n && 0 <= j < n ==> m[i][j] == (if i == j then 1.0 else 0.0)
  {
    seq(n, i => seq(n, j => if i == j then 1.0 else 0.0))
  }

  const DiagFallbackWarning: string := "Using unit diagonal metric (failed to read provided metric)"
  const DenseFallbackWarning: string := "Using identity matrix metric (failed to read provided metric)"

  /** The stepsize-adaptation and integrator settings `configure_sampler_basic` passes on. */
  datatype BasicSettings = BasicSettings(
    nominalStepsize: real, stepsizeJitter: real, maxDepth: int,
    mu: real, delta: real, gamma: real, kappa: real, t0: real)

  /** The adaptation-window settings `set_window_params` receives. */
  datatype WindowSettings = WindowSettings(numWarmup: int, initBuffer: nat, termBuffer: nat,
                                           window: nat)

  /** A NUTS sampler (unit, diagonal or dense), constructed from a model and
      a generator and then configured through its setters. */
  class Sampler {
    const model: Model
    const rng: Rng
    var metric: Option<Metric>
    var basic: Option<BasicSettings>
    var window: Option<WindowSettings>

    constructor (model: Model, rng: Rng)
      ensures this.model == model && this.rng == rng
      ensures metric == None && basic == None && window == None
    {
      this.model := model;
      this.rng := rng;
      metric := None;
      basic := None;
      window := None;
    }
  }

  /** The warnings issued to the logger, in order. */
  class Logger {
    var warnings: seq<string>

    constructor ()
      ensures warnings == []
    {
      warnings := [];
    }
  }

  function OptionToSeq<T>(o: Option<T>): (s: seq<T>)
    ensures o.None? ==> s == []
    ensures o.Some? ==> s == [o.value]
  {
    if o.Some? then [o.value] else []
  }

  /** A metric context is read only when it is present and names at least
      one real-valued variable. */
  predicate ReadsContext(ctx: Option<VarContext>)
  {
    ctx.Some? && |ctx.value.realNames| > 0
  }

  /** The effect of `configure_metric`: the warning it logs (if any), and
      either the metric it sets (None: the unit metric sets none) or the
      message of the exception validation throws. */
  datatype MetricChoice = MetricChoice(warning: Option<string>, outcome: Result<Option<Metric>, string>)

  /** The diagonal metric `configure_metric` settles on before validation,
      and the warning of a failed read. */
  function DiagCandidate(ctx: Option<VarContext>, n: nat, svc: Services): (r: (seq<real>, Option<string>))
    ensures !ReadsContext(ctx) ==> r == (Ones(n), None)
    ensures ReadsContext(ctx) && svc.readDiag(ctx.value, n).Success? ==>
              r == (svc.readDiag(ctx.value, n).value, None)
    ensures ReadsContext(ctx) && svc.readDiag(ctx.value, n).Failure? ==>
              r == (Ones(n), Some(DiagFallbackWarning))
  {
    if ReadsContext(ctx) then
      match svc.readDiag(ctx.value, n)
      case Success(v) => (v, None)
      case Failure(_) => (Ones(n), Some(DiagFallbackWarning))
    else (Ones(n), None)
  }

  /** The dense counterpart of DiagCandidate, falling back to the identity. */
  function DenseCandidate(ctx: Option<VarContext>, n: nat, svc: Services): (r: (seq<seq<real>>, Option<string>))
    ensures !ReadsContext(ctx) ==> r == (Identity(n), None)
    ensures ReadsContext(ctx) && svc.readDense(ctx.value, n).Success? ==>
              r == (svc.readDense(ctx.value, n).value, None)
    ensures ReadsContext(ctx) && svc.readDense(ctx.value, n).Failure? ==>
              r == (Identity(n), Some(DenseFallbackWarning))
  {
    if ReadsContext(ctx) then
      match svc.readDense(ctx.value, n)
      case Success(v) => (v, None)
      case Failure(_) => (Identity(n), Some(DenseFallbackWarning))
    else (Identity(n), None)
  }

  /** What `configure_metric` does for a metric kind, a (possibly null)
      metric context and a model with n unconstrained parameters. */
  function ChooseMetric(kind: MetricKind, ctx: Option<VarContext>, n: nat, svc: Services): (r: MetricChoice)
    ensures kind == UnitE ==> r == MetricChoice(None, Success(None))
    ensures kind == DiagE ==>
              var (v, w) := DiagCandidate(ctx, n, svc);
              r.warning == w
              && (r.outcome.Failure? <==> svc.validateDiag(v).Some?)
              && (r.outcome.Failure? ==> r.outcome.error == svc.validateDiag(v).value)
              && (r.outcome.Success? ==> r.outcome.value == Some(DiagMetric(v)))
    ensures kind == DenseE ==>
              var (m, w) := DenseCandidate(ctx, n, svc);
              r.warning == w
              && (r.outcome.Failure? <==> svc.validateDense(m).Some?)
              && (r.outcome.Failure? ==> r.outcome.error == svc.validateDense(m).value)
              && (r.outcome.Success? ==> r.outcome.value == Some(DenseMetric(m)))
  {
    match kind
    case UnitE => MetricChoice(None, Success(None))
    case DiagE =>
      var (v, w) := DiagCandidate(ctx, n, svc);
      MetricChoice(w, if svc.validateDiag(v).Some? then Failure(svc.validateDiag(v).value)
                      else Success(Some(DiagMetric(v))))
    case DenseE =>
      var (m, w) := DenseCandidate(ctx, n, svc);
      MetricChoice(w, if svc.validateDense(m).Some? then Failure(svc.validateDense(m).value)
                      else Success(Some(DenseMetric(m))))
  }

  /** The metric of a diagonal or dense run is the one read from the context
      exactly when the context is read and reading succeeds; otherwise it
      has the fallback shape for the model's parameter count, and a warning
      is logged exactly when a read was attempted and failed. */
  lemma MetricFallbacks(kind: MetricKind, ctx: Option<VarContext>, n: nat, svc: Services)
    requires kind != UnitE
    requires ChooseMetric(kind, ctx, n, svc).outcome.Success?
    ensures var c := ChooseMetric(kind, ctx, n, svc);
            var readOk := ReadsContext(ctx)
                          && (if kind == DiagE then svc.readDiag(ctx.value, n).Success?
                              else svc.readDense(ctx.value, n).Success?);
            && c.outcome.value.Some?
            && (c.warning.Some? <==> ReadsContext(ctx) && !readOk)
            && (kind == DiagE && !readOk ==> c.outcome.value.value == DiagMetric(Ones(n)))
            && (kind == DenseE && !readOk ==> c.outcome.value.value == DenseMetric(Identity(n)))
            && (kind == DiagE && readOk ==>
                  c.outcome.value.value == DiagMetric(svc.readDiag(ctx.value, n).value))
            && (kind == DenseE && readOk ==>
                  c.outcome.value.value == DenseMetric(svc.readDense(ctx.value, n).value))
  {
  }

  /** The unit metric ignores its context: whatever is passed, nothing is
      logged and no metric is set. */
  lemma UnitIgnoresContext(ctx: Option<VarContext>, ctx': Option<VarContext>, n: nat, svc: Services)
    ensures ChooseMetric(UnitE, ctx, n, svc) == ChooseMetric(UnitE, ctx', n, svc)
    ensures ChooseMetric(UnitE, ctx, n, svc).outcome == Success(None)
  {
  }

  /** `configure_metric`: decide whether to read the context, read it (or
      fall back, logging a warning), validate, and set the metric. A failed
      validation leaves the metric as it was and reports the message. */
  method ConfigureMetric(sampler: Sampler, kind: MetricKind, model: Model,
                         metricContext: Option<VarContext>, logger: Logger, svc: Services)
    returns (err: Option<string>)
    modifies sampler, logger
    ensures var c := ChooseMetric(kind, metricContext, model.numParamsR, svc);
            && logger.warnings == old(logger.warnings) + OptionToSeq(c.warning)
            && err == (if c.outcome.Failure? then Some(c.outcome.error) else None)
            && sampler.metric == (if c.outcome.Success? && c.outcome.value.Some? then c.outcome.value
                                  else old(sampler.metric))
    ensures sampler.basic == old(sampler.basic) && sampler.window == old(sampler.window)
  {
    var n := model.numParamsR;
    var read := true;
    if metricContext.Some? {
      if |metricContext.value.realNames| == 0 {
        read := false;
      }
    }
    err := None;
    match kind {
      case DiagE =>
        var invMetric: seq<real>;
        if metricContext.Some? && read {
          var got := svc.readDiag(metricContext.value, n);
          if got.Success? {
            invMetric := got.value;
          } else {
            logger.warnings := logger.warnings + [DiagFallbackWarning];
            invMetric := Ones(n);
          }
        } else {
          invMetric := Ones(n);
        }
        var invalid := svc.validateDiag(invMetric);
        if invalid.Some? {
          err := Some(invalid.value);
          return;
        }
        sampler.metric := Some(DiagMetric(invMetric));
      case DenseE =>
        var invMetric: seq<seq<real>>;
        if metricContext.Some? && read {
          var got := svc.readDense(metricContext.value, n);
          if got.Success? {
            invMetric := got.value;
          } else {
            logger.warnings := logger.warnings + [DenseFallbackWarning];
            invMetric := Identity(n);
          }
        } else {
          invMetric := Identity(n);
        }
        var invalid := svc.validateDense(invMetric);
        if invalid.Some? {
          err := Some(invalid.value);
          return;
        }
        sampler.metric := Some(DenseMetric(invMetric));
      case UnitE =>
    }
  }

  /** The settings every chain's sampler receives from the arguments; `mu`
      is the step-size target log(10 * stepsize). */
  function BasicOf(args: Arguments.HmcNutsArgs, svc: Services): (b: BasicSettings)
    ensures b.nominalStepsize == args.stepsize && b.stepsizeJitter == args.stepsizeJitter
    ensures b.maxDepth == args.maxDepth && b.mu == svc.logTenTimes(args.stepsize)
    ensures b.delta == args.delta && b.gamma == args.gamma
    ensures b.kappa == args.kappa && b.t0 == args.t0
  {
    BasicSettings(args.stepsize, args.stepsizeJitter, args.maxDepth,
                  svc.logTenTimes(args.stepsize), args.delta, args.gamma, args.kappa, args.t0)
  }

  /** `configure_sampler_basic`: the eight setter calls. */
  method ConfigureSamplerBasic(sampler: Sampler, args: Arguments.HmcNutsArgs, svc: Services)
    modifies sampler
    ensures sampler.basic == Some(BasicOf(args, svc))
    ensures sampler.metric == old(sampler.metric) && sampler.window == old(sampler.window)
  {
    sampler.basic := Some(BasicOf(args, svc));
  }

  /** Window settings apply to the adaptive diagonal and dense samplers only. */
  function WindowFor(kind: MetricKind, args: Arguments.HmcNutsArgs): (w: Option<WindowSettings>)
    ensures w.Some? <==> kind == DiagE || kind == DenseE
    ensures w.Some? ==> w.value == WindowSettings(args.numWarmup, args.initBuffer,
                                                  args.termBuffer, args.window)
  {
    if kind == DiagE || kind == DenseE
    then Some(WindowSettings(args.numWarmup, args.initBuffer, args.termBuffer, args.window))
    else None
  }

  /** `configure_windowed_adaptation`: sets the window parameters for the
      diagonal and dense samplers; the unit sampler is left as it was. */
  method ConfigureWindowedAdaptation(sampler: Sampler, kind: MetricKind, args: Arguments.HmcNutsArgs)
    modifies sampler
    ensures sampler.window == (if WindowFor(kind, args).Some? then WindowFor(kind, args)
                               else old(sampler.window))
    ensures sampler.metric == old(sampler.metric) && sampler.basic == old(sampler.basic)
  {
    if kind == DiagE || kind == DenseE {
      sampler.window := Some(WindowSettings(args.numWarmup, args.initBuffer,
                                            args.termBuffer, args.window));
    }
  }

  /** The inputs of one `load_samplers` call, for its specification. */
  datatype LoadRequest = LoadRequest(
    kind: MetricKind, model: Model, args: Arguments.HmcNutsArgs,
    initContexts: seq<VarContext>, metricContexts: seq<Option<VarContext>>,
    initWriters: seq<Option<Writer>>, svc: Services)
  {
    /** Every per-chain list has an entry for every chain. */
    predicate CoversChains()
    {
      |initContexts| >= args.base.numChains && |metricContexts| >= args.base.numChains
      && |initWriters| >= args.base.numChains
    }
  }

  /** Chain i's generator: seeded with the run's seed and stream i + 1. */
  function ChainRng(req: LoadRequest, i: nat): (r: Rng)
    ensures r.seed == req.args.base.model.randomSeed && r.stream == i + 1
  {
    Rng(req.args.base.model.randomSeed, i + 1)
  }

  /** The `initialize` call of chain i: its own context and generator, the
      run's radius, no timing message, and the no-op writer in place of a
      missing init writer. */
  function InitRequestFor(req: LoadRequest, i: nat): (r: InitRequest)
    requires i < |req.initContexts| && i < |req.initWriters|
    ensures r.context == req.initContexts[i] && r.rng == ChainRng(req, i) && !r.printTiming
    ensures r.writer.NoOpSink? <==> req.initWriters[i].None?
  {
    InitRequest(req.model, req.initContexts[i], ChainRng(req, i), req.args.base.init.initRadius,
                false, SinkOf(req.initWriters[i]))
  }

  /** What chain i's setup yields: its generator, initial values and metric. */
  datatype ChainSetup = ChainSetup(rng: Rng, initParams: seq<real>, metric: Option<Metric>)

  /** One chain's setup: the warnings it logs and its setup or error. */
  datatype ChainOutcome = ChainOutcome(warnings: seq<string>, result: Result<ChainSetup, string>)

  /** Setting up chain i: initialise, then configure the metric. */
  function SetupChain(req: LoadRequest, i: nat): (r: ChainOutcome)
    requires req.CoversChains() && i < req.args.base.numChains
    ensures req.svc.initialize(InitRequestFor(req, i)).Failure? ==>
              r == ChainOutcome([], Failure(req.svc.initialize(InitRequestFor(req, i)).error))
    ensures r.result.Success? ==> r.result.value.rng == ChainRng(req, i)
  {
    var init := req.svc.initialize(InitRequestFor(req, i));
    if init.Failure? then ChainOutcome([], Failure(init.error))
    else
      var c := ChooseMetric(req.kind, req.metricContexts[i], req.model.numParamsR, req.svc);
      ChainOutcome(OptionToSeq(c.warning),
                   if c.outcome.Failure? then Failure(c.outcome.error)
                   else Success(ChainSetup(ChainRng(req, i), init.value, c.outcome.value)))
  }

  /** The outcomes of chains 0..n-1 of a request, in chain order. */
  function ChainOutcomesUpTo(req: LoadRequest, n: nat): (os: seq<ChainOutcome>)
    requires req.CoversChains() && n <= req.args.base.numChains
    ensures |os| == n
  {
    if n == 0 then [] else ChainOutcomesUpTo(req, n - 1) + [SetupChain(req, n - 1)]
  }

  /** The outcome of every chain of a request, in chain order. */
  function ChainOutcomes(req: LoadRequest): (os: seq<ChainOutcome>)
    requires req.CoversChains()
    ensures |os| == req.args.base.numChains
  {
    ChainOutcomesUpTo(req, req.args.base.numChains)
  }

  /** Entry i of the outcomes is chain i's own setup. */
  lemma {:induction false} ChainOutcomeAt(req: LoadRequest, n: nat, i: nat)
    requires req.CoversChains() && i < n <= req.args.base.numChains
    ensures ChainOutcomesUpTo(req, n)[i] == SetupChain(req, i)
  {
    if i < n - 1 {
      ChainOutcomeAt(req, n - 1, i);
    }
  }

  /** The warnings and setups of chains 0..n-1, stopping at the first chain
      that fails. */
  datatype ChainsOutcome = ChainsOutcome(warnings: seq<string>, result: Result<seq<ChainSetup>, string>)

  function Collect(os: seq<ChainOutcome>, n: nat): ChainsOutcome
    requires n <= |os|
  {
    if n == 0 then ChainsOutcome([], Success([]))
    else
      var prev := Collect(os, n - 1);
      if prev.result.Failure? then prev
      else
        ChainsOutcome(prev.warnings + os[n - 1].warnings,
                      if os[n - 1].result.Failure? then Failure(os[n - 1].result.error)
                      else Success(prev.result.value + [os[n - 1].result.value]))
  }

  /** A successful setup of chains 0..n-1 holds each chain's own setup, in
      order, and every one of those chains succeeded. */
  lemma {:induction false} CollectSuccess(os: seq<ChainOutcome>, n: nat)
    requires n <= |os| && Collect(os, n).result.Success?
    ensures |Collect(os, n).result.value| == n
    ensures forall i :: 0 <= i < n ==>
              os[i].result.Success? && Collect(os, n).result.value[i] == os[i].result.value
  {
    if n > 0 {
      CollectSuccess(os, n - 1);
    }
  }

  /** When every one of chains 0..n-1 can be set up, the whole setup succeeds. */
  lemma {:induction false} CollectAllSucceed(os: seq<ChainOutcome>, n: nat)
    requires n <= |os|
    requires forall i :: 0 <= i < n ==> os[i].result.Success?
    ensures Collect(os, n).result.Success?
  {
    if n > 0 {
      CollectAllSucceed(os, n - 1);
    }
  }

  /** A failed setup reports the error of the first chain that fails, and
      every chain before it succeeded. */
  lemma {:induction false} CollectFirstFailure(os: seq<ChainOutcome>, n: nat)
    requires n <= |os| && Collect(os, n).result.Failure?
    ensures exists k :: 0 <= k < n
                        && (forall i :: 0 <= i < k ==> os[i].result.Success?)
                        && os[k].result.Failure?
                        && Collect(os, n).result.error == os[k].result.error
  {
    if Collect(os, n - 1).result.Failure? {
      CollectFirstFailure(os, n - 1);
    } else {
      CollectSuccess(os, n - 1);
      assert os[n - 1].result.Failure?;
    }
  }

  /** Once a chain fails, later chains change nothing: neither the error
      nor the warnings. */
  lemma {:induction false} CollectFailureSticks(os: seq<ChainOutcome>, m: nat, n: nat)
    requires m <= n <= |os| && Collect(os, m).result.Failure?
    ensures Collect(os, n) == Collect(os, m)
  {
    if m < n {
      CollectFailureSticks(os, m, n - 1);
    }
  }

  /** One more chain after a successful prefix: its warnings are added, and
      its setup is appended or its error ends the collection. */
  lemma CollectStep(os: seq<ChainOutcome>, n: nat)
    requires n < |os| && Collect(os, n).result.Success?
    ensures Collect(os, n + 1).warnings == Collect(os, n).warnings + os[n].warnings
    ensures Collect(os, n + 1).result.Success? <==> os[n].result.Success?
    ensures os[n].result.Failure? ==> Collect(os, n + 1).result.error == os[n].result.error
    ensures os[n].result.Success? ==>
              Collect(os, n + 1).result.value == Collect(os, n).result.value + [os[n].result.value]
  {
  }

  /** Appending warnings in two steps logs the same as appending them at once. */
  lemma AppendAssoc<T>(a: seq<T>, b: seq<T>, c: seq<T>)
    ensures a + b + c == a + (b + c)
  {
  }

  /** When chain i is the first to fail, the collection ends with its error
      and its warnings. */
  lemma CollectStopsAt(os: seq<ChainOutcome>, i: nat, n: nat)
    requires i < n <= |os| && Collect(os, i).result.Success? && os[i].result.Failure?
    ensures Collect(os, n) == ChainsOutcome(Collect(os, i).warnings + os[i].warnings, Failure(os[i].result.error))
  {
    CollectStep(os, i);
    CollectFailureSticks(os, i + 1, n);
  }

  /** Distinct chains draw from distinct generator streams of the same seed. */
  lemma DistinctChainRngs(req: LoadRequest, i: nat, j: nat)
    requires i != j
    ensures ChainRng(req, i) != ChainRng(req, j)
    ensures ChainRng(req, i).seed == ChainRng(req, j).seed
  {
  }

  /** `sampler_config`: the samplers, generators and initial values of all chains. */
  datatype SamplerConfig = SamplerConfig(samplers: seq<Sampler>, rngs: seq<Rng>,
                                         initParams: seq<seq<real>>)

  /** A sampler as chain setup `setup` leaves it: constructed from the model
      and the chain's generator, with the chain's metric and the shared
      settings. */
  predicate SamplerMatches(s: Sampler, req: LoadRequest, setup: ChainSetup)
    reads s
  {
    && s.model == req.model
    && s.rng == setup.rng
    && s.metric == setup.metric
    && s.basic == Some(BasicOf(req.args, req.svc))
    && s.window == WindowFor(req.kind, req.args)
  }

  /** A returned configuration holds exactly the chain setups the
      specification gives, and every sampler carries the shared settings. */
  predicate ConfigMatches(c: SamplerConfig, req: LoadRequest, setups: seq<ChainSetup>)
    reads c.samplers
  {
    && |c.samplers| == |setups| && |c.rngs| == |setups| && |c.initParams| == |setups|
    && forall k :: 0 <= k < |setups| ==>
         && c.rngs[k] == setups[k].rng
         && c.initParams[k] == setups[k].initParams
         && SamplerMatches(c.samplers[k], req, setups[k])
  }

  /** Appending a chain that matches its setup keeps the configuration matching. */
  lemma ConfigMatchesExtend(c: SamplerConfig, req: LoadRequest, setups: seq<ChainSetup>,
                            s: Sampler, rng: Rng, init: seq<real>, setup: ChainSetup)
    requires ConfigMatches(c, req, setups)
    requires rng == setup.rng && init == setup.initParams && SamplerMatches(s, req, setup)
    ensures ConfigMatches(SamplerConfig(c.samplers + [s], c.rngs + [rng], c.initParams + [init]),
                          req, setups + [setup])
  {
  }

  /** The postcondition of `load_samplers` for a request: the warnings
      logged are those of the chains set up, and the result is the full
      configuration or the first chain's error behind the fixed prefix. */
  predicate LoadedAsSpecified(r: Result<SamplerConfig, string>, req: LoadRequest,
                              before: seq<string>, after: seq<string>)
    requires req.CoversChains()
    reads if r.Success? then r.value.samplers else []
  {
    var spec := Collect(ChainOutcomes(req), req.args.base.numChains);
    && after == before + spec.warnings
    && (r.Success? <==> spec.result.Success?)
    && (r.Failure? ==> r.error == "Error configuring samplers: " + spec.result.error)
    && (r.Success? ==> ConfigMatches(r.value, req, spec.result.value))
  }

  /** One pass of the `load_samplers` loop over chain i: create its
      generator, initialise it, construct and configure its sampler, and
      append all three to the configuration built so far; or the message of
      the exception that ends the loop. */
  method LoadChain(req: LoadRequest, i: nat, ghost spec: ChainOutcome, c: SamplerConfig,
                   ghost setups: seq<ChainSetup>, logger: Logger)
    returns (r: Result<SamplerConfig, string>)
    requires req.CoversChains() && i < req.args.base.numChains
    requires spec == ChainOutcomes(req)[i]
    requires ConfigMatches(c, req, setups)
    modifies logger
    ensures logger.warnings == old(logger.warnings) + spec.warnings
    ensures r.Success? <==> spec.result.Success?
    ensures r.Failure? ==> r.error == spec.result.error
    ensures r.Success? ==>
              && ConfigMatches(r.value, req, setups + [spec.result.value])
              && r.value.samplers[..|c.samplers|] == c.samplers
              && fresh(r.value.samplers[|c.samplers|])
  {
    var rng := Rng(req.args.base.model.randomSeed, i + 1);
    var writerToUse := if req.initWriters[i].Some? then WriterSink(req.initWriters[i].value) else NoOpSink;
    var init := req.svc.initialize(InitRequest(req.model, req.initContexts[i], rng,
                                               req.args.base.init.initRadius, false, writerToUse));
    ChainOutcomeAt(req, req.args.base.numChains, i);
    assert init == req.svc.initialize(InitRequestFor(req, i));
    if init.Failure? {
      return Failure(init.error);
    }
    var sampler := new Sampler(req.model, rng);
    var err := ConfigureMetric(sampler, req.kind, req.model, req.metricContexts[i], logger, req.svc);
    if err.Some? {
      return Failure(err.value);
    }
    ConfigureSamplerBasic(sampler, req.args, req.svc);
    ConfigureWindowedAdaptation(sampler, req.kind, req.args);
    ConfigMatchesExtend(c, req, setups, sampler, rng, init.value, spec.result.value);
    r := Success(SamplerConfig(c.samplers + [sampler], c.rngs + [rng], c.initParams + [init.value]));
  }

  /** When chain i is the first to fail, its error behind the fixed prefix,
      logged after the warnings of chains 0..i, meets the postcondition of
      `load_samplers`. */
  lemma FailureSpecified(req: LoadRequest, i: nat, before: seq<string>, after: seq<string>)
    requires req.CoversChains() && i < req.args.base.numChains
    requires Collect(ChainOutcomes(req), i).result.Success? && ChainOutcomes(req)[i].result.Failure?
    requires after == before + Collect(ChainOutcomes(req), i).warnings + ChainOutcomes(req)[i].warnings
    ensures LoadedAsSpecified(Failure("Error configuring samplers: " + ChainOutcomes(req)[i].result.error),
                              req, before, after)
  {
    var os := ChainOutcomes(req);
    CollectStopsAt(os, i, req.args.base.numChains);
    var w, v := Collect(os, i).warnings, os[i].warnings;
    AppendAssoc(before, w, v);
  }

  /** A configuration matching the setups of all chains, logged with their
      warnings, meets the postcondition of `load_samplers`. */
  lemma SuccessSpecified(r: Result<SamplerConfig, string>, req: LoadRequest,
                         before: seq<string>, after: seq<string>)
    requires req.CoversChains()
    requires Collect(ChainOutcomes(req), req.args.base.numChains).result.Success?
    requires r.Success? && ConfigMatches(r.value, req, Collect(ChainOutcomes(req), req.args.base.numChains).result.value)
    requires after == before + Collect(ChainOutcomes(req), req.args.base.numChains).warnings
    ensures LoadedAsSpecified(r, req, before, after)
  {
  }

  /** The samplers of a matching configuration are distinct objects: each
      holds its own chain's generator, and no two chains share one. */
  lemma SamplersDistinct(c: SamplerConfig, req: LoadRequest)
    requires req.CoversChains()
    requires Collect(ChainOutcomes(req), req.args.base.numChains).result.Success?
    requires ConfigMatches(c, req, Collect(ChainOutcomes(req), req.args.base.numChains).result.value)
    ensures forall j, k :: 0 <= j < k < |c.samplers| ==> c.samplers[j] != c.samplers[k]
  {
    var os := ChainOutcomes(req);
    CollectSuccess(os, req.args.base.numChains);
    forall j, k | 0 <= j < k < |c.samplers|
      ensures c.samplers[j] != c.samplers[k]
    {
      ChainOutcomeAt(req, req.args.base.numChains, j);
      ChainOutcomeAt(req, req.args.base.numChains, k);
      assert c.samplers[j].rng == ChainRng(req, j) && c.samplers[k].rng == ChainRng(req, k);
    }
  }

  /** `load_samplers`: for each chain in order, create its generator,
      initialise it, construct its sampler and configure it; the first
      exception ends the loop and is rethrown with a fixed prefix. */
  method LoadSamplers(kind: MetricKind, model: Model, args: Arguments.HmcNutsArgs,
                      initContexts: seq<VarContext>, metricContexts: seq<Option<VarContext>>,
                      logger: Logger, initWriters: seq<Option<Writer>>, svc: Services)
    returns (r: Result<SamplerConfig, string>)
    requires LoadRequest(kind, model, args, initContexts, metricContexts, initWriters, svc).CoversChains()
    modifies logger
    ensures LoadedAsSpecified(r, LoadRequest(kind, model, args, initContexts, metricContexts, initWriters, svc),
                              old(logger.warnings), logger.warnings)
    ensures r.Success? ==> forall k :: 0 <= k < |r.value.samplers| ==> fresh(r.value.samplers[k])
    ensures r.Success? ==> forall j, k :: 0 <= j < k < |r.value.samplers| ==>
                             r.value.samplers[j] != r.value.samplers[k]
  {
    var req := LoadRequest(kind, model, args, initContexts, metricContexts, initWriters, svc);
    ghost var os := ChainOutcomes(req);
    var config := SamplerConfig([], [], []);
    var i := 0;
    while i < args.base.numChains
      invariant 0 <= i <= args.base.numChains
      invariant Collect(os, i).result.Success?
      invariant logger.warnings == old(logger.warnings) + Collect(os, i).warnings
      invariant ConfigMatches(config, req, Collect(os, i).result.value)
      invariant forall k :: 0 <= k < |config.samplers| ==> fresh(config.samplers[k])
    {
      var next := LoadChain(req, i, os[i], config, Collect(os, i).result.value, logger);
      if next.Failure? {
        r := Failure("Error configuring samplers: " + next.error);
        FailureSpecified(req, i, old(logger.warnings), logger.warnings);
        return;
      }
      CollectStep(os, i);
      AppendAssoc(old(logger.warnings), Collect(os, i).warnings, os[i].warnings);
      config := next.value;
      i := i + 1;
    }
    r := Success(config);
    SuccessSpecified(r, req, old(logger.warnings), logger.warnings);
    SamplersDistinct(r.value, req);
  }

  /** The configuration `create_samplers` returns: the variant alternative
      (0 unit, 1 diagonal, 2 dense) and its configuration. */
  datatype SamplerVariant = SamplerVariant(alternative: nat, config: SamplerConfig)

  /** `create_samplers`: dispatch on the metric field; a value naming no
      enumerant fails before any chain is set up. */
  method CreateSamplers(model: Model, args: Arguments.HmcNutsArgs,
                        initContexts: seq<VarContext>, metricContexts: seq<Option<VarContext>>,
                        logger: Logger, initWriters: seq<Option<Writer>>, svc: Services)
    returns (r: Result<SamplerVariant, string>)
    requires FromCode(args.metricType).Some? ==>
               LoadRequest(FromCode(args.metricType).value, model, args, initContexts, metricContexts,
                           initWriters, svc).CoversChains()
    modifies logger
    ensures FromCode(args.metricType).None? ==>
              r == Failure("Unknown metric type: " + IntToString(args.metricType))
              && logger.warnings == old(logger.warnings)
    ensures FromCode(args.metricType).Some? ==>
              var kind := FromCode(args.metricType).value;
              && (r.Success? ==> r.value.alternative == kind.Code())
              && LoadedAsSpecified(if r.Success? then Success(r.value.config) else Failure(r.error),
                                   LoadRequest(kind, model, args, initContexts, metricContexts,
                                               initWriters, svc),
                                   old(logger.warnings), logger.warnings)
    ensures r.Success? ==> forall k :: 0 <= k < |r.value.config.samplers| ==> fresh(r.value.config.samplers[k])
    ensures r.Success? ==> forall j, k :: 0 <= j < k < |r.value.config.samplers| ==>
                             r.value.config.samplers[j] != r.value.config.samplers[k]
  {
    var kind: MetricKind;
    if args.metricType == 0 {
      kind := UnitE;
    } else if args.metricType == 1 {
      kind := DiagE;
    } else if args.metricType == 2 {
      kind := DenseE;
    } else {
      return Failure("Unknown metric type: " + IntToString(args.metricType));
    }
    var loaded := LoadSamplers(kind, model, args, initContexts, metricContexts, logger,
                               initWriters, svc);
    if loaded.Failure? {
      return Failure(loaded.error);
    }
    r := Success(SamplerVariant(args.metricType as nat, loaded.value));
  }
}
