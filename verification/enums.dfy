/** The metric enumeration (`metric_t`): which of the three NUTS samplers a
    run uses. The field that holds it is a C++ `enum class`, so a cast can put
    any integer there; the model keeps that underlying integer and decodes it. */
module MetricType {
  import opened Wrappers

  datatype MetricKind = UnitE | DiagE | DenseE {
    /** The enumerant's underlying value: UNIT_E = 0, DIAG_E = 1, DENSE_E = 2. */
    function Code(): (c: int)
      ensures 0 <= c <= 2
    {
      match this
      case UnitE => 0
      case DiagE => 1
      case DenseE => 2
    }
  }

  /** Decodes an underlying value; anything outside 0..2 names no enumerant. */
  function FromCode(c: int): (r: Option<MetricKind>)
    ensures r.Some? <==> 0 <= c <= 2
    ensures r.Some? ==> r.value.Code() == c
  {
    if c == 0 then Some(UnitE)
    else if c == 1 then Some(DiagE)
    else if c == 2 then Some(DenseE)
    else None
  }

  /** Encoding then decoding an enumerant gives it back, so the codes are distinct. */
  lemma CodeRoundTrip(k: MetricKind)
    ensures FromCode(k.Code()) == Some(k)
  {
  }
}

/** The algorithm enumeration (`algorithm_t`), numbered from 1. */
module AlgorithmType {
  import opened Wrappers

  datatype AlgorithmKind = Stan2Hmc | Mle | Pathfinder | Advi | StandaloneGq {
    /** The enumerant's underlying value: STAN2_HMC = 1 ... STANDALONE_GQ = 5. */
    function Code(): (c: int)
      ensures 1 <= c <= 5
    {
      match this
      case Stan2Hmc => 1
      case Mle => 2
      case Pathfinder => 3
      case Advi => 4
      case StandaloneGq => 5
    }
  }

  /** Distinct enumerants have distinct underlying values. */
  lemma CodeInjective(a: AlgorithmKind, b: AlgorithmKind)
    requires a.Code() == b.Code()
    ensures a == b
  {
  }
}
