/** Values exchanged between the SCoT orchestrator and its numeric collaborators.
    The numeric objects themselves (arrays of floats, complex spectra, fitted models)
    are abstract: the orchestrator only stores them, passes them on and indexes them. */
module Types {

  datatype Option<+T> = None | Some(value: T)

  datatype Result<+T> = Ok(value: T) | Err(error: Error)

  /** The ways an orchestrator call can fail. */
  datatype Error =
    | NoData            // RuntimeError: MVARICA requires data to be set
    | NoActivations     // RuntimeError: VAR fitting / TF connectivity require activations
    | NoConnectivity    // RuntimeError: connectivity requires a VAR model
    | NoSuchMeasure(name: string)  // AttributeError from getattr(con, measure)
    | NegativeDimension // ValueError from np.zeros with a negative window count
    | IndexOutOfRange   // IndexError when a window is written past the last slot

  /** Class label of one trial; np.unique orders them. */
  type Label = int

  /** The values of all channels and all trials at one sample index. */
  type Frame
  /** A mixing or unmixing matrix. */
  type Matrix
  /** VAR coefficients (B) and residual noise covariance (C). */
  type VarModel
  type NoiseCov
  /** A Connectivity object built from one VAR model. */
  type ConnModel
  /** A channel x channel x frequency complex array returned by a measure. */
  type Spectrum

  /** A 3-D signal array: samples x channels x trials, the samples kept in order. */
  datatype Signal = Signal(frames: seq<Frame>, channels: nat, trials: nat)

  /** A field that holds one object, or a dict keyed by class label. */
  datatype Fitted<T> = Single(value: T) | PerClass(byClass: map<Label, T>)

  /** What mvarica returns: mixing, unmixing, B, C and the regularisation it used. */
  datatype Decomposition = Decomposition(
    mixing: Matrix, unmixing: Matrix, b: VarModel, c: NoiseCov, delta: Option<real>)

  /** The numeric code the orchestrator calls, as opaque total functions. */
  datatype Collaborators = Collaborators(
    // dot_special(data, unmixing)
    project: (Signal, Matrix) -> Signal,
    // mvarica(X, P, retain_variance, numcomp, delta)
    mvarica: (Signal, nat, Option<real>, Option<real>, Option<real>) -> Decomposition,
    // var.fit(data, P, delta, return_covariance=True)
    fit: (Signal, nat, Option<real>) -> (VarModel, NoiseCov),
    // var.fit_multiclass(data, cl, P, delta, return_covariance=True), indexed by class
    fitMulticlass: (Signal, seq<Label>, nat, Option<real>) -> Label -> (VarModel, NoiseCov),
    // Connectivity(B, C, nfft)
    connectivity: (VarModel, NoiseCov, nat) -> ConnModel,
    // getattr(con, measure)()
    evaluate: (ConnModel, Measure) -> Spectrum,
    // the M x M x nfft block of np.zeros(..., np.complex64) at one window slot
    zeros: (nat, nat) -> Spectrum)

  /** The measures a Connectivity object offers. */
  datatype Measure =
    | A | H | S | LogS | G | COH | PHI | PCOH | PDC | FFPDC | PDCF | GPDC
    | DTF | FFDTF | DDTF | GDTF

  /** The attribute name under which a measure is looked up. */
  function MeasureName(m: Measure): string
  {
    match m
    case A => "A"
    case H => "H"
    case S => "S"
    case LogS => "logS"
    case G => "G"
    case COH => "COH"
    case PHI => "PHI"
    case PCOH => "pCOH"
    case PDC => "PDC"
    case FFPDC => "ffPDC"
    case PDCF => "PDCF"
    case GPDC => "GPDC"
    case DTF => "DTF"
    case FFDTF => "ffDTF"
    case DDTF => "dDTF"
    case GDTF => "GDTF"
  }

  /** The checked replacement for getattr(con, measure): None when there is no such measure. */
  function MeasureByName(name: string): (r: Option<Measure>)
    ensures r.Some? ==> MeasureName(r.value) == name
  {
    if name == "A" then Some(A)
    else if name == "H" then Some(H)
    else if name == "S" then Some(S)
    else if name == "logS" then Some(LogS)
    else if name == "G" then Some(G)
    else if name == "COH" then Some(COH)
    else if name == "PHI" then Some(PHI)
    else if name == "pCOH" then Some(PCOH)
    else if name == "PDC" then Some(PDC)
    else if name == "ffPDC" then Some(FFPDC)
    else if name == "PDCF" then Some(PDCF)
    else if name == "GPDC" then Some(GPDC)
    else if name == "DTF" then Some(DTF)
    else if name == "ffDTF" then Some(FFDTF)
    else if name == "dDTF" then Some(DDTF)
    else if name == "GDTF" then Some(GDTF)
    else None
  }

  /** Every measure is found under its own name, and only there. */
  lemma MeasureLookupRoundTrip(m: Measure, name: string)
    ensures MeasureByName(MeasureName(m)) == Some(m)
    ensures MeasureByName(name) == Some(m) <==> name == MeasureName(m)
  {
  }
}
