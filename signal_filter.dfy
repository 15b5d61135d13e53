/**
 * The decision layer of NeuroKit's `signal_filter`: whether a request is a
 * no-op, which back-end it goes to (Savitzky-Golay smoothing or a
 * zero-phase Butterworth filter), and the exact arguments that back-end is
 * called with.
 *
 * The three SciPy routines the code delegates to are not modelled: they are
 * the fields of a `SciPy` value, arbitrary total functions that either
 * return or raise, and every property below holds for all of them.
 */
module SignalFiltering {
  import opened PyText
  import opened NumpyRound

  /** A uniformly sampled signal. */
  type Signal = seq<real>

  datatype Option<T> = None | Some(value: T)

  /** What a Python call does: return a value or raise an exception. */
  datatype Result<T> = Ok(value: T) | Raised(exception: string)

  /** `window_length`: any string selects the default, an integer is used as given. */
  datatype WindowLength = Auto(name: string) | Fixed(n: int)

  datatype BType = Bandpass | Highpass | Lowpass

  /** The arguments of `scipy.signal.butter(order, cutoffs, btype=..., output='sos', fs=...)`. */
  datatype ButterArgs = ButterArgs(order: int, cutoffs: seq<real>, btype: BType, fs: int)

  /** The arguments of `scipy.signal.savgol_filter(signal, window_length=..., polyorder=...)`. */
  datatype SavGolArgs = SavGolArgs(windowLength: int, polyorder: int)

  /**
   * The three library routines, left uninterpreted. `Sos` is the type of
   * the second-order-section array that `butter` designs.
   */
  datatype SciPy<!Sos> = SciPy(
    butter: ButterArgs -> Result<Sos>,
    sosfiltfilt: (Sos, Signal) -> Result<Signal>,
    savgolFilter: (Signal, SavGolArgs) -> Result<Signal>)

  /** The back-end call a request leads to. */
  datatype Plan = Identity | SavGol(savgol: SavGolArgs) | Butter(butter: ButterArgs)

  datatype Method = SavitzkyGolay | Butterworth

  /** The `method` names that select Savitzky-Golay smoothing. */
  const SavGolAliases: seq<string> := ["sg", "savgol", "savitzky-golay"]

  /** The class of the exception Python raises when `sos` is read before any branch bound it. */
  const UnboundSos: string := "UnboundLocalError"

  ghost predicate IsSavGolName(methodName: string) {
    exists alias :: alias in SavGolAliases && EqualsIgnoringCase(methodName, alias)
  }

  // ---------------------------------------------------------------------------
  // Routing on `method`
  // ---------------------------------------------------------------------------

  /** `method.lower() in ["sg", "savgol", "savitzky-golay"]`; every other string is Butterworth. */
  function Route(methodName: string): (m: Method)
    ensures m == SavitzkyGolay <==> IsSavGolName(methodName)
    ensures m == Butterworth <==> !IsSavGolName(methodName)
  {
    AliasesAreLowerCase();
    LowerMatchIffEqualsIgnoringCase(methodName, SavGolAliases[0]);
    LowerMatchIffEqualsIgnoringCase(methodName, SavGolAliases[1]);
    LowerMatchIffEqualsIgnoringCase(methodName, SavGolAliases[2]);
    if Lower(methodName) in SavGolAliases then SavitzkyGolay else Butterworth
  }

  lemma AliasesAreLowerCase()
    ensures forall alias :: alias in SavGolAliases ==> HasNoUpper(alias)
  {
  }

  // ---------------------------------------------------------------------------
  // Savitzky-Golay arguments
  // ---------------------------------------------------------------------------

  /**
   * `int(np.round(sampling_rate / 10))`: the nearest integer to a tenth of
   * the rate, ties to the even neighbour.
   */
  function DefaultWindowLength(samplingRate: int): (w: int)
    ensures -5 <= 10 * w - samplingRate <= 5
    ensures (10 * w - samplingRate == 5 || 10 * w - samplingRate == -5) ==> w % 2 == 0
  {
    RoundHalfEven(samplingRate as real / 10.0)
  }

  /**
   * The window length that reaches `savgol_filter`. The parity test that
   * follows the default computes `window_length + 1` and discards it, so
   * the default is used whether it is odd or even.
   */
  function SavGolWindow(samplingRate: int, windowLength: WindowLength): (w: int)
    ensures windowLength.Fixed? ==> w == windowLength.n
    ensures windowLength.Auto? ==> IsRoundHalfEven(samplingRate as real / 10.0, w)
  {
    match windowLength
    case Auto(_) => DefaultWindowLength(samplingRate)
    case Fixed(n) => n
  }

  /**
   * The default the documentation describes: the rounded tenth of the rate,
   * moved up to the next odd number when it is even. The code computes the
   * `+ 1` but discards it, so `SavGolWindow` does not use this.
   */
  function OddDefaultWindowLength(samplingRate: int): (w: int)
    ensures w % 2 == 1
    ensures w == DefaultWindowLength(samplingRate) || w == DefaultWindowLength(samplingRate) + 1
    ensures DefaultWindowLength(samplingRate) % 2 == 1 ==> w == DefaultWindowLength(samplingRate)
  {
    var w := DefaultWindowLength(samplingRate);
    if w % 2 == 0 then w + 1 else w
  }

  /** The arguments `_signal_filter_savgol` hands to `savgol_filter`. */
  function SavGolCall(samplingRate: int, order: int, windowLength: WindowLength): (a: SavGolArgs)
    ensures a.polyorder == order
    ensures a.windowLength == SavGolWindow(samplingRate, windowLength)
  {
    SavGolArgs(SavGolWindow(samplingRate, windowLength), order)
  }

  // ---------------------------------------------------------------------------
  // Butterworth arguments
  // ---------------------------------------------------------------------------

  /** The cutoffs that are given, as a list. */
  function Given(c: Option<real>): seq<real> {
    if c.Some? then [c.value] else []
  }

  /** `butter`'s arguments are of the shape SciPy reads for that `btype`. */
  predicate WellShaped(a: ButterArgs) {
    if a.btype == Bandpass then |a.cutoffs| == 2 else |a.cutoffs| == 1
  }

  /**
   * The edges of the band a design passes, read back from its arguments:
   * a bandpass passes between its two cutoffs, a highpass above its cutoff,
   * a lowpass below it.
   */
  function PassBand(a: ButterArgs): (band: (Option<real>, Option<real>))
    requires WellShaped(a)
  {
    match a.btype
    case Bandpass => (Some(a.cutoffs[0]), Some(a.cutoffs[1]))
    case Highpass => (Some(a.cutoffs[0]), None)
    case Lowpass => (None, Some(a.cutoffs[0]))
  }

  /**
   * The `butter` call of `_signal_filter_butterworth`; `None` when neither
   * cutoff is given, so that no branch binds `sos`.
   */
  function ButterCall(samplingRate: int, lowcut: Option<real>, highcut: Option<real>, order: int): (d: Option<ButterArgs>)
    ensures d.Some? <==> lowcut.Some? || highcut.Some?
    ensures d.Some? ==> WellShaped(d.value) && PassBand(d.value) == (lowcut, highcut)
    ensures d.Some? ==> d.value.cutoffs == Given(lowcut) + Given(highcut)
    ensures d.Some? ==> d.value.order == order && d.value.fs == samplingRate
  {
    if lowcut.Some? && highcut.Some? then
      Some(ButterArgs(order, [lowcut.value, highcut.value], Bandpass, samplingRate))
    else if lowcut.Some? then
      Some(ButterArgs(order, [lowcut.value], Highpass, samplingRate))
    else if highcut.Some? then
      Some(ButterArgs(order, [highcut.value], Lowpass, samplingRate))
    else
      None
  }

  // ---------------------------------------------------------------------------
  // The dispatch plan and what running it does
  // ---------------------------------------------------------------------------

  /** Which back-end `signal_filter` calls, and with which arguments. */
  function Dispatch(samplingRate: int, lowcut: Option<real>, highcut: Option<real>,
                    methodName: string, order: int, windowLength: WindowLength): (p: Plan)
    ensures p.Identity? <==> lowcut.None? && highcut.None?
    ensures p.SavGol? <==> (lowcut.Some? || highcut.Some?) && IsSavGolName(methodName)
    ensures p.Butter? <==> (lowcut.Some? || highcut.Some?) && !IsSavGolName(methodName)
    ensures p.SavGol? ==> p.savgol.polyorder == order
    ensures p.SavGol? && windowLength.Fixed? ==> p.savgol.windowLength == windowLength.n
    ensures p.SavGol? && windowLength.Auto? ==>
              IsRoundHalfEven(samplingRate as real / 10.0, p.savgol.windowLength)
    ensures p.Butter? ==> p.butter.order == order && p.butter.fs == samplingRate
    ensures p.Butter? ==> WellShaped(p.butter) && PassBand(p.butter) == (lowcut, highcut)
    ensures p.Butter? ==> p.butter.cutoffs == Given(lowcut) + Given(highcut)
  {
    if lowcut.None? && highcut.None? then
      Identity
    else if Route(methodName) == SavitzkyGolay then
      SavGol(SavGolCall(samplingRate, order, windowLength))
    else
      var d := ButterCall(samplingRate, lowcut, highcut, order);
      Butter(d.value)
  }

  /** `sosfiltfilt(butter(...), signal)`: design, then filter forward and backward. */
  function ZeroPhase<Sos>(scipy: SciPy<Sos>, a: ButterArgs, signal: Signal): Result<Signal> {
    match scipy.butter(a)
    case Raised(e) => Raised(e)
    case Ok(sos) => scipy.sosfiltfilt(sos, signal)
  }

  /** What carrying out a plan returns: the input itself, or a back-end's result as it came. */
  function Run<Sos>(plan: Plan, scipy: SciPy<Sos>, signal: Signal): Result<Signal> {
    match plan
    case Identity => Ok(signal)
    case SavGol(a) => scipy.savgolFilter(signal, a)
    case Butter(a) => ZeroPhase(scipy, a, signal)
  }

  // ---------------------------------------------------------------------------
  // The three functions of the source
  // ---------------------------------------------------------------------------

  /** `_signal_filter_savgol`. */
  function FilterSavGol<Sos>(scipy: SciPy<Sos>, signal: Signal, samplingRate: int := 1000,
                             order: int := 2, windowLength: WindowLength := Auto("default")): (r: Result<Signal>)
    ensures r == Run(SavGol(SavGolCall(samplingRate, order, windowLength)), scipy, signal)
  {
    var windowLength := SavGolWindow(samplingRate, windowLength);
    scipy.savgolFilter(signal, SavGolArgs(windowLength, order))
  }

  /** `_signal_filter_butterworth`; without any cutoff it fails on the unbound `sos`. */
  function FilterButterworth<Sos>(scipy: SciPy<Sos>, signal: Signal, samplingRate: int := 1000,
                                  lowcut: Option<real> := None, highcut: Option<real> := None,
                                  order: int := 2): (r: Result<Signal>)
    ensures lowcut.None? && highcut.None? ==> r == Raised(UnboundSos)
    ensures lowcut.Some? || highcut.Some? ==>
              r == Run(Butter(ButterCall(samplingRate, lowcut, highcut, order).value), scipy, signal)
  {
    match ButterCall(samplingRate, lowcut, highcut, order)
    case None => Raised(UnboundSos)
    case Some(a) => ZeroPhase(scipy, a, signal)
  }

  /** `signal_filter`. */
  function SignalFilter<Sos>(scipy: SciPy<Sos>, signal: Signal, samplingRate: int := 1000,
                             lowcut: Option<real> := None, highcut: Option<real> := None,
                             methodName: string := "butterworth", order: int := 2,
                             windowLength: WindowLength := Auto("default")): (r: Result<Signal>)
    ensures lowcut.None? && highcut.None? ==> r == Ok(signal)
    ensures r == Run(Dispatch(samplingRate, lowcut, highcut, methodName, order, windowLength), scipy, signal)
  {
    if lowcut.None? && highcut.None? then
      Ok(signal)
    else if Route(methodName) == SavitzkyGolay then
      FilterSavGol(scipy, signal, samplingRate, order, windowLength := windowLength)
    else
      FilterButterworth(scipy, signal, samplingRate, lowcut, highcut, order)
  }
}
