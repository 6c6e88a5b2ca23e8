/** The parts of the Stan library the glue code calls but does not define:
    the compiled model, data contexts, the random number generator and the
    service utilities. Their insides are not modelled; a service is a total
    function supplied by the caller, so every property proved below holds
    whatever those functions compute. */
module Stan {
  import opened Wrappers
  import opened OutputWriters

  /** A compiled model, seen through the two queries the glue makes. */
  datatype Model = Model(name: string, numParamsR: nat)

  /** A data context (`var_context`): an identity and the names of its
      real-valued variables. */
  datatype VarContext = VarContext(id: nat, realNames: seq<string>)

  /** A generator as `create_rng(seed, stream)` seeds it. */
  datatype Rng = Rng(seed: nat, stream: nat)

  /** The arguments of one `initialize` call. */
  datatype InitRequest = InitRequest(model: Model, context: VarContext, rng: Rng,
                                     initRadius: real, printTiming: bool, writer: Sink)

  /** The service utilities, each returning its result or the message of the
      exception it throws:
      `initialize`, `read_diag_inv_metric`, `read_dense_inv_metric`,
      `validate_diag_inv_metric`, `validate_dense_inv_metric` (None when the
      metric is accepted), and the step-size target `log(10 * stepsize)`. */
  datatype Services = Services(
    initialize: InitRequest -> Result<seq<real>, string>,
    readDiag: (VarContext, nat) -> Result<seq<real>, string>,
    readDense: (VarContext, nat) -> Result<seq<seq<real>>, string>,
    validateDiag: seq<real> -> Option<string>,
    validateDense: seq<seq<real>> -> Option<string>,
    logTenTimes: real -> real)
}
