/** `stan3_c_api.cpp`: the C entry points over two globals, the loaded model
    (`g_model`) and the last error message (`g_last_error`). A failed call
    stores its message, copies it into the caller's buffer and turns it into
    a status code by looking for key phrases in it. The globals are the
    fields of one `Session` object. */
module CApi {
  import opened Wrappers
  import opened Text
  import opened Stan
  import opened Arguments
  import opened CApiHelpers

  /** Status codes of `stan3_c_api.h`. */
  const StatusSuccess: int := 0
  const ErrorParsing: int := 1
  const ErrorModelLoad: int := 2
  const ErrorSampling: int := 3
  const ErrorInvalidArgs: int := 4
  const ErrorRuntime: int := 5

  const InvalidArgsMessage := "Invalid arguments: argc < 0 or argv is NULL"
  const NoModelMessage := "No model loaded. Call stan3_load_model() first."
  const ParsingPhrase := "parsing failed"
  const InvalidArgumentPhrase := "Invalid argument"
  const NoModelPhrase := "No model loaded"

  /** What escapes a call, by the first `catch` clause that matches it:
      `std::invalid_argument`, `std::runtime_error`, any other
      `std::exception`, or something that is not a `std::exception`. */
  datatype Thrown =
    | InvalidArgument(what: string)
    | RuntimeError(what: string)
    | OtherException(what: string)
    | NonStandard

  /** A call that returns a value or throws. */
  datatype Outcome<T> = Returned(value: T) | Threw(thrown: Thrown)

  /** The code the entry points call but this model does not define, as
      functions of their inputs: the CLI11 parse of the model and sampler
      arguments (the parser's exit code on a parse error), `load_model`,
      `run_hmc`, and the model's `model_name()`. */
  datatype Backend = Backend(
    parseModel: seq<string> -> Result<ModelArgs, int>,
    loadModel: ModelArgs -> Outcome<Model>,
    parseHmc: seq<string> -> Result<HmcNutsArgs, int>,
    runHmc: (HmcNutsArgs, Model) -> Outcome<int>,
    modelName: Model -> Outcome<string>)

  /** The message `load_model_impl` sets for an exception. */
  function LoadExceptionMessage(t: Thrown): string
  {
    match t
    case InvalidArgument(w) => "Invalid argument: " + w
    case RuntimeError(w) => "Runtime error: " + w
    case OtherException(w) => "Error loading model: " + w
    case NonStandard => "Unknown error occurred while loading model"
  }

  /** The message `run_samplers_impl` sets for an exception. */
  function RunExceptionMessage(t: Thrown): string
  {
    match t
    case InvalidArgument(w) => "Invalid argument: " + w
    case RuntimeError(w) => "Runtime error: " + w
    case OtherException(w) => "Error running samplers: " + w
    case NonStandard => "Unknown error occurred while running samplers"
  }

  /** `load_model_impl`: parse the model arguments, then load the model; the
      model on success, else the parse message or the exception's message. */
  function LoadModelImpl(b: Backend, args: seq<string>): (r: Result<Model, string>)
    ensures r.Success? <==> b.parseModel(args).Success? && b.loadModel(b.parseModel(args).value).Returned?
    ensures r.Success? ==> r.value == b.loadModel(b.parseModel(args).value).value
    ensures b.parseModel(args).Failure? ==> r.error == ParseModelArgs(b.parseModel(args)).error
  {
    match ParseModelArgs(b.parseModel(args))
    case Failure(e) => Failure(e)
    case Success(a) =>
      match b.loadModel(a)
      case Returned(m) => Success(m)
      case Threw(t) => Failure(LoadExceptionMessage(t))
  }

  /** `run_samplers_impl`: with no model loaded it fails before looking at
      the arguments; otherwise it parses and validates the sampler
      arguments and runs the sampler, which fails on a non-zero exit code
      or an exception. None means success. */
  function RunSamplersImpl(b: Backend, model: Option<Model>, args: seq<string>): (err: Option<string>)
    ensures model.None? ==> err == Some(NoModelMessage)
    ensures err.None? <==>
              && model.Some? && ParseHmcArgs(b.parseHmc(args)).Success?
              && b.runHmc(ParseHmcArgs(b.parseHmc(args)).value, model.value) == Returned(0)
    ensures model.Some? && ParseHmcArgs(b.parseHmc(args)).Failure? ==>
              err == Some(ParseHmcArgs(b.parseHmc(args)).error)
  {
    if model.None? then Some(NoModelMessage)
    else
      match ParseHmcArgs(b.parseHmc(args))
      case Failure(e) => Some(e)
      case Success(a) =>
        match b.runHmc(a, model.value)
        case Returned(code) =>
          if code != 0 then Some("Sampling failed with exit code: " + IntToString(code)) else None
        case Threw(t) => Some(RunExceptionMessage(t))
  }

  /** The code `stan3_load_model` returns for a failure message: the first
      phrase found decides, "parsing failed" before "Invalid argument". */
  function LoadErrorCode(msg: string): (code: int)
    ensures code in {ErrorParsing, ErrorModelLoad, ErrorInvalidArgs}
    ensures code == ErrorParsing <==> Contains(msg, ParsingPhrase)
    ensures code == ErrorInvalidArgs <==> !Contains(msg, ParsingPhrase) && Contains(msg, InvalidArgumentPhrase)
  {
    if Contains(msg, ParsingPhrase) then ErrorParsing
    else if Contains(msg, InvalidArgumentPhrase) then ErrorInvalidArgs
    else ErrorModelLoad
  }

  /** The code `stan3_run_samplers` returns for a failure message: "No
      model loaded", then "parsing failed", then "Invalid argument". */
  function RunErrorCode(msg: string): (code: int)
    ensures code in {ErrorParsing, ErrorModelLoad, ErrorSampling, ErrorInvalidArgs}
    ensures code == ErrorModelLoad <==> Contains(msg, NoModelPhrase)
    ensures code == ErrorParsing <==> !Contains(msg, NoModelPhrase) && Contains(msg, ParsingPhrase)
    ensures code == ErrorInvalidArgs <==>
              !Contains(msg, NoModelPhrase) && !Contains(msg, ParsingPhrase) && Contains(msg, InvalidArgumentPhrase)
  {
    if Contains(msg, NoModelPhrase) then ErrorModelLoad
    else if Contains(msg, ParsingPhrase) then ErrorParsing
    else if Contains(msg, InvalidArgumentPhrase) then ErrorInvalidArgs
    else ErrorSampling
  }

  /** A failed model-argument parse is reported as a parse error. */
  lemma LoadParseFailureCode(cli: Result<ModelArgs, int>)
    requires cli.Failure?
    ensures LoadErrorCode(ParseModelArgs(cli).error) == ErrorParsing
  {
  }

  /** "Invalid argument: " followed by `w` carries the phrase and adds none
      of the other two. */
  lemma InvalidArgumentMessage(w: string)
    ensures Contains("Invalid argument: " + w, InvalidArgumentPhrase)
    ensures !Contains(w, ParsingPhrase) ==> !Contains("Invalid argument: " + w, ParsingPhrase)
    ensures !Contains(w, NoModelPhrase) ==> !Contains("Invalid argument: " + w, NoModelPhrase)
  {
    assert "Invalid argument: " + w == "" + InvalidArgumentPhrase + (": " + w);
    ContainsInfix("", InvalidArgumentPhrase, ": " + w);
    if !Contains(w, ParsingPhrase) {
      NotContainsPast("Invalid argument: ", w, ParsingPhrase);
    }
    if !Contains(w, NoModelPhrase) {
      NotContainsPast("Invalid argument: ", w, NoModelPhrase);
    }
  }

  /** None of the three key phrases occurs in `m`. */
  predicate PhraseFree(m: string)
  {
    !Contains(m, ParsingPhrase) && !Contains(m, InvalidArgumentPhrase) && !Contains(m, NoModelPhrase)
  }

  /** `x` lacks the first letters of all three key phrases. */
  predicate NoInitials(x: string)
  {
    forall k :: 0 <= k < |x| ==> x[k] != 'p' && x[k] != 'I' && x[k] != 'N'
  }

  /** Text lacking the first letters of the phrases holds none of them. */
  lemma PhraseFreeText(x: string)
    requires NoInitials(x)
    ensures PhraseFree(x)
  {
    NotContainsLacking(x, ParsingPhrase);
    NotContainsLacking(x, InvalidArgumentPhrase);
    NotContainsLacking(x, NoModelPhrase);
  }

  /** A prefix lacking the first letters of the phrases adds none of them. */
  lemma PhraseFreePrefix(x: string, w: string)
    requires NoInitials(x) && PhraseFree(w)
    ensures PhraseFree(x + w)
  {
    NotContainsPast(x, w, ParsingPhrase);
    NotContainsPast(x, w, InvalidArgumentPhrase);
    NotContainsPast(x, w, NoModelPhrase);
  }

  /** A "p" followed by "l" cannot start "parsing failed", so "pl" between
      texts lacking the first letters of the phrases and in front of
      phrase-free text adds no phrase. */
  lemma PlPhraseFree(x: string, y: string, w: string)
    requires NoInitials(x) && NoInitials(y) && PhraseFree(w)
    ensures PhraseFree(x + "pl" + y + w)
  {
    var ly := ['l'] + y;
    assert NoInitials(ly);
    PhraseFreePrefix(ly, w);
    var s := ['p'] + (ly + w);
    assert s[1] == 'l';
    NotContainsCons('p', ly + w, ParsingPhrase);
    NotContainsPast(['p'], ly + w, InvalidArgumentPhrase);
    NotContainsPast(['p'], ly + w, NoModelPhrase);
    PhraseFreePrefix(x, s);
    assert x + "pl" + y + w == x + s;
  }

  /** The message for a non-standard exception during loading holds no key phrase. */
  lemma UnknownLoadMessage()
    ensures PhraseFree(LoadExceptionMessage(NonStandard))
  {
    assert NoInitials("Unknown error occurred while loading model");
    PhraseFreeText("Unknown error occurred while loading model");
  }

  /** The message for a non-standard exception while sampling holds no key phrase. */
  lemma UnknownRunMessage()
    ensures PhraseFree(RunExceptionMessage(NonStandard))
  {
    assert NoInitials("Unknown error occurred while running sam");
    assert NoInitials("ers");
    PhraseFreeText("");
    PlPhraseFree("Unknown error occurred while running sam", "ers", "");
    assert "Unknown error occurred while running samplers"
        == "Unknown error occurred while running sam" + "pl" + "ers" + "";
  }

  /** The message for any other `std::exception` while sampling adds no key phrase. */
  lemma OtherRunMessage(w: string)
    requires PhraseFree(w)
    ensures PhraseFree(RunExceptionMessage(OtherException(w)))
  {
    assert NoInitials("Error running sam");
    assert NoInitials("ers: ");
    PlPhraseFree("Error running sam", "ers: ", w);
    assert "Error running samplers: " == "Error running sam" + "pl" + "ers: ";
  }

  /** A printed integer holds no key phrase. */
  lemma IntPhraseFree(i: int)
    ensures PhraseFree(IntToString(i))
  {
    var d := IntToString(i);
    IntToStringLacks(i, 'p');
    IntToStringLacks(i, 'I');
    IntToStringLacks(i, 'N');
    assert forall k :: 0 <= k < |d| ==> d[k] in d;
    PhraseFreeText(d);
  }

  /** The fixed part of the exit-code message, split around its one "p". */
  lemma ExitCodePrefix()
    ensures NoInitials("Sam") && NoInitials("ing failed with exit code: ")
    ensures "Sampling failed with exit code: " == "Sam" + "pl" + "ing failed with exit code: "
  {
    ExitCodeTail();
  }

  /** The part of the exit-code message after "Sampl". */
  lemma ExitCodeTail()
    ensures NoInitials("ing failed with exit code: ")
  {
  }

  /** The message for a non-zero exit code holds no key phrase. */
  lemma ExitCodeMessage(code: int)
    ensures PhraseFree("Sampling failed with exit code: " + IntToString(code))
  {
    IntPhraseFree(code);
    ExitCodePrefix();
    PlPhraseFree("Sam", "ing failed with exit code: ", IntToString(code));
  }

  /** The code `stan3_load_model` reports for each kind of exception from
      `load_model`, when its own text holds none of the key phrases:
      invalid_argument is INVALID_ARGS, everything else MODEL_LOAD. */
  lemma LoadExceptionCode(t: Thrown)
    requires !t.NonStandard? ==> PhraseFree(t.what)
    ensures LoadErrorCode(LoadExceptionMessage(t)) == if t.InvalidArgument? then ErrorInvalidArgs else ErrorModelLoad
  {
    match t
    case InvalidArgument(w) =>
      InvalidArgumentMessage(w);
    case RuntimeError(w) =>
      assert NoInitials("Runtime error: ");
      PhraseFreePrefix("Runtime error: ", w);
    case OtherException(w) =>
      assert NoInitials("Error loading model: ");
      PhraseFreePrefix("Error loading model: ", w);
    case NonStandard =>
      UnknownLoadMessage();
  }

  /** Running without a model is reported as MODEL_LOAD. */
  lemma RunNoModelCode()
    ensures RunErrorCode(NoModelMessage) == ErrorModelLoad
  {
    assert NoModelMessage == "" + NoModelPhrase + ". Call stan3_load_model() first.";
    ContainsInfix("", NoModelPhrase, ". Call stan3_load_model() first.");
  }

  /** A failed sampler-argument parse is reported as PARSING. */
  lemma RunParseFailureCode(cli: Result<HmcNutsArgs, int>)
    requires cli.Failure?
    ensures RunErrorCode(ParseHmcArgs(cli).error) == ErrorParsing
  {
    var d := IntToString(cli.error);
    IntToStringLacks(cli.error, 'N');
    assert d + "" == d;
    NotContainsPast(d, "", NoModelPhrase);
    NotContainsPast("HMC argument parsing failed: ", d, NoModelPhrase);
  }

  /** A sampler that returns a non-zero exit code is reported as SAMPLING. */
  lemma RunExitCodeFailure(code: int)
    requires code != 0
    ensures RunErrorCode("Sampling failed with exit code: " + IntToString(code)) == ErrorSampling
  {
    ExitCodeMessage(code);
  }

  /** The code `stan3_run_samplers` reports for each kind of exception from
      the sampler, when its own text holds none of the key phrases:
      invalid_argument is INVALID_ARGS, everything else SAMPLING. */
  lemma RunExceptionCode(t: Thrown)
    requires !t.NonStandard? ==> PhraseFree(t.what)
    ensures RunErrorCode(RunExceptionMessage(t)) == if t.InvalidArgument? then ErrorInvalidArgs else ErrorSampling
  {
    match t
    case InvalidArgument(w) =>
      InvalidArgumentMessage(w);
    case RuntimeError(w) =>
      assert NoInitials("Runtime error: ");
      PhraseFreePrefix("Runtime error: ", w);
    case OtherException(w) =>
      OtherRunMessage(w);
    case NonStandard =>
      UnknownRunMessage();
  }

  /** The process-wide state behind the C entry points: `g_model`,
      `g_last_error`, and the function-local static that caches the first
      model name `stan3_get_model_name` reads. */
  class Session {
    var model: Option<Model>
    var lastError: string
    var cachedName: Option<string>
    const backend: Backend

    /** The state at library load: no model, no error, no cached name. */
    constructor(backend: Backend)
      ensures model.None? && lastError == "" && cachedName.None? && this.backend == backend
    {
      model := None;
      lastError := "";
      cachedName := None;
      this.backend := backend;
    }

    /** `stan3_load_model`. A negative `argc` or a null `argv` is rejected
        with INVALID_ARGS and a fixed message. Otherwise the model is loaded;
        a failure leaves the previous model in place, records the message,
        copies it to the buffer and returns its code; success replaces the
        model, clears the error and empties a usable buffer. */
    method LoadModel(argc: int, argv: Option<seq<string>>, buffer: array?<char>, bufferSize: nat)
      returns (code: int)
      requires argv.Some? && argc >= 0 ==> argc <= |argv.value|
      requires buffer != null ==> bufferSize <= buffer.Length
      modifies this`model, this`lastError, buffer
      ensures code in {StatusSuccess, ErrorParsing, ErrorModelLoad, ErrorInvalidArgs}
      ensures argc < 0 || argv.None? ==>
                && code == ErrorInvalidArgs && lastError == InvalidArgsMessage && model == old(model)
                && (buffer != null ==> CopiedInto(old(buffer[..]), buffer[..], bufferSize, InvalidArgsMessage))
      ensures argc >= 0 && argv.Some? ==>
                var r := LoadModelImpl(backend, argv.value[..argc]);
                && (r.Success? ==>
                      && code == StatusSuccess && model == Some(r.value) && lastError == ""
                      && (buffer != null && bufferSize > 0 ==>
                            buffer[0] == '\0' && buffer[1..] == old(buffer[1..])))
                && (r.Failure? ==>
                      && code == LoadErrorCode(r.error) && model == old(model) && lastError == r.error
                      && (buffer != null ==> CopiedInto(old(buffer[..]), buffer[..], bufferSize, r.error)))
    {
      if argc < 0 || argv.None? {
        lastError := InvalidArgsMessage;
        CopyErrorMessage(lastError, buffer, bufferSize);
        return ErrorInvalidArgs;
      }
      var r := LoadModelImpl(backend, argv.value[..argc]);
      if r.Failure? {
        lastError := r.error;
        CopyErrorMessage(r.error, buffer, bufferSize);
        return LoadErrorCode(r.error);
      }
      model := Some(r.value);
      lastError := "";
      if buffer != null && bufferSize > 0 {
        buffer[0] := '\0';
      }
      return StatusSuccess;
    }

    /** `stan3_run_samplers`. A negative `argc` or a null `argv` is rejected
        as in `LoadModel`. Otherwise the sampler runs on the loaded model; a
        failure records the message, copies it to the buffer and returns its
        code; success clears the error and empties a usable buffer. The
        loaded model is never changed. */
    method RunSamplers(argc: int, argv: Option<seq<string>>, buffer: array?<char>, bufferSize: nat)
      returns (code: int)
      requires argv.Some? && argc >= 0 ==> argc <= |argv.value|
      requires buffer != null ==> bufferSize <= buffer.Length
      modifies this`lastError, buffer
      ensures code in {StatusSuccess, ErrorParsing, ErrorModelLoad, ErrorSampling, ErrorInvalidArgs}
      ensures argc < 0 || argv.None? ==>
                && code == ErrorInvalidArgs && lastError == InvalidArgsMessage
                && (buffer != null ==> CopiedInto(old(buffer[..]), buffer[..], bufferSize, InvalidArgsMessage))
      ensures argc >= 0 && argv.Some? ==>
                var err := RunSamplersImpl(backend, model, argv.value[..argc]);
                && (err.None? ==>
                      && code == StatusSuccess && lastError == ""
                      && (buffer != null && bufferSize > 0 ==>
                            buffer[0] == '\0' && buffer[1..] == old(buffer[1..])))
                && (err.Some? ==>
                      && code == RunErrorCode(err.value) && lastError == err.value
                      && (buffer != null ==> CopiedInto(old(buffer[..]), buffer[..], bufferSize, err.value)))
    {
      if argc < 0 || argv.None? {
        lastError := InvalidArgsMessage;
        CopyErrorMessage(lastError, buffer, bufferSize);
        return ErrorInvalidArgs;
      }
      var err := RunSamplersImpl(backend, model, argv.value[..argc]);
      if err.Some? {
        lastError := err.value;
        CopyErrorMessage(err.value, buffer, bufferSize);
        return RunErrorCode(err.value);
      }
      lastError := "";
      if buffer != null && bufferSize > 0 {
        buffer[0] := '\0';
      }
      return StatusSuccess;
    }

    /** `stan3_get_model_name`: null without a model. With one, the first
        name read is cached for good, so a later call returns that name even
        after another model has been loaded; if reading the name throws,
        null is returned and nothing is cached. */
    method GetModelName() returns (name: Option<string>)
      modifies this`cachedName
      ensures model.None? ==> name.None? && cachedName == old(cachedName)
      ensures model.Some? && old(cachedName).Some? ==> name == old(cachedName) && cachedName == old(cachedName)
      ensures model.Some? && old(cachedName).None? ==>
                match backend.modelName(model.value)
                case Returned(n) => name == Some(n) && cachedName == Some(n)
                case Threw(_) => name.None? && cachedName.None?
    {
      if model.None? {
        return None;
      }
      if cachedName.None? {
        match backend.modelName(model.value)
        case Returned(n) =>
          cachedName := Some(n);
        case Threw(_) =>
          return None;
      }
      return cachedName;
    }

    /** `stan3_is_model_loaded`: 1 exactly when a model is loaded, else 0. */
    function IsModelLoaded(): (r: int)
      reads this
      ensures r in {0, 1}
      ensures r == 1 <==> model.Some?
    {
      if model.Some? then 1 else 0
    }

    /** `stan3_get_last_error`: null exactly when no error is recorded,
        otherwise the recorded message. */
    function GetLastError(): (r: Option<string>)
      reads this
      ensures r.None? <==> lastError == ""
      ensures r.Some? ==> r.value == lastError
    {
      if lastError == "" then None else Some(lastError)
    }

    /** `stan3_clear_error`: forget the recorded message. */
    method ClearError()
      modifies this`lastError
      ensures lastError == "" && GetLastError().None?
    {
      lastError := "";
    }
  }

  /** Once a name has been cached, loading another model and asking again
      still gives the first model's name. */
  method StaleModelName(s: Session, argv: seq<string>) returns (before: Option<string>, after: Option<string>)
    requires s.model.Some? && s.cachedName.None? && s.backend.modelName(s.model.value).Returned?
    requires LoadModelImpl(s.backend, argv).Success?
    modifies s
    ensures before == after == Some(s.backend.modelName(old(s.model.value)).value)
    ensures s.model == Some(LoadModelImpl(s.backend, argv).value)
  {
    before := s.GetModelName();
    var code := s.LoadModel(|argv|, Some(argv), null, 0);
    assert argv[..|argv|] == argv;
    after := s.GetModelName();
  }
}
