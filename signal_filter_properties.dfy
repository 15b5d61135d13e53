/**
 * Properties of the `signal_filter` dispatcher that relate several calls,
 * or a call and the library routines behind it.
 */
module SignalFilterProperties {
  import opened PyText
  import opened NumpyRound
  import opened SignalFiltering

  /** The Savitzky-Golay path reads only whether a cutoff is given, never its value. */
  lemma SavGolIgnoresCutoffValues<Sos>(scipy: SciPy<Sos>, signal: Signal, samplingRate: int,
                                       lowcut: Option<real>, highcut: Option<real>,
                                       lowcut': Option<real>, highcut': Option<real>,
                                       methodName: string, order: int, windowLength: WindowLength)
    requires lowcut.Some? || highcut.Some?
    requires lowcut'.Some? || highcut'.Some?
    requires IsSavGolName(methodName)
    ensures SignalFilter(scipy, signal, samplingRate, lowcut, highcut, methodName, order, windowLength)
         == SignalFilter(scipy, signal, samplingRate, lowcut', highcut', methodName, order, windowLength)
    ensures SignalFilter(scipy, signal, samplingRate, lowcut, highcut, methodName, order, windowLength)
         == scipy.savgolFilter(signal, SavGolArgs(SavGolWindow(samplingRate, windowLength), order))
  {
  }

  /** The Butterworth path ignores `window_length`, and every non-alias `method` behaves alike. */
  lemma ButterworthIgnoresWindowAndName<Sos>(scipy: SciPy<Sos>, signal: Signal, samplingRate: int,
                                             lowcut: Option<real>, highcut: Option<real>, order: int,
                                             methodName: string, methodName': string,
                                             windowLength: WindowLength, windowLength': WindowLength)
    requires !IsSavGolName(methodName) && !IsSavGolName(methodName')
    ensures SignalFilter(scipy, signal, samplingRate, lowcut, highcut, methodName, order, windowLength)
         == SignalFilter(scipy, signal, samplingRate, lowcut, highcut, methodName', order, windowLength')
  {
  }

  /**
   * The smoothing path consults only `savgol_filter`, the Butterworth path
   * only `butter` and `sosfiltfilt` on the designs `butter` makes: two libraries that agree on the routine
   * a request uses give the same answer.
   */
  lemma OnlyTheChosenBackEndMatters<Sos>(scipy: SciPy<Sos>, scipy': SciPy<Sos>, signal: Signal,
                                         samplingRate: int, lowcut: Option<real>, highcut: Option<real>,
                                         methodName: string, order: int, windowLength: WindowLength)
    requires IsSavGolName(methodName) ==>
               forall a :: scipy.savgolFilter(signal, a) == scipy'.savgolFilter(signal, a)
    requires !IsSavGolName(methodName) ==> forall a :: scipy.butter(a) == scipy'.butter(a)
    requires !IsSavGolName(methodName) ==>
               forall a :: scipy.butter(a).Ok? ==>
                 scipy.sosfiltfilt(scipy.butter(a).value, signal) == scipy'.sosfiltfilt(scipy.butter(a).value, signal)
    ensures SignalFilter(scipy, signal, samplingRate, lowcut, highcut, methodName, order, windowLength)
         == SignalFilter(scipy', signal, samplingRate, lowcut, highcut, methodName, order, windowLength)
  {
  }

  /**
   * What the library returns, or raises, is what `signal_filter` returns,
   * or raises: neither path post-processes it.
   */
  lemma ResultIsBackEndResult<Sos>(scipy: SciPy<Sos>, signal: Signal, samplingRate: int,
                                   lowcut: Option<real>, highcut: Option<real>,
                                   methodName: string, order: int, windowLength: WindowLength)
    ensures var p := Dispatch(samplingRate, lowcut, highcut, methodName, order, windowLength);
            var r := SignalFilter(scipy, signal, samplingRate, lowcut, highcut, methodName, order, windowLength);
            && (p.SavGol? ==> r == scipy.savgolFilter(signal, p.savgol))
            && (p.Butter? && scipy.butter(p.butter).Raised? ==> r == Raised(scipy.butter(p.butter).exception))
            && (p.Butter? && scipy.butter(p.butter).Ok? ==> r == scipy.sosfiltfilt(scipy.butter(p.butter).value, signal))
  {
  }

  /** The filter type follows from which cutoffs are given. */
  lemma BTypeFromCutoffs(samplingRate: int, lowcut: Option<real>, highcut: Option<real>,
                         methodName: string, order: int, windowLength: WindowLength)
    requires !IsSavGolName(methodName)
    requires lowcut.Some? || highcut.Some?
    ensures var p := Dispatch(samplingRate, lowcut, highcut, methodName, order, windowLength);
            && p.Butter?
            && (p.butter.btype == Bandpass <==> lowcut.Some? && highcut.Some?)
            && (p.butter.btype == Highpass <==> lowcut.Some? && highcut.None?)
            && (p.butter.btype == Lowpass <==> lowcut.None? && highcut.Some?)
            && (p.butter.btype == Bandpass ==> p.butter.cutoffs == [lowcut.value, highcut.value])
  {
  }

  /**
   * The default window is even exactly for the rates within 5 of a multiple
   * of 20 (ties go to the even neighbour), and the discarded `+ 1` leaves it so.
   */
  lemma DefaultWindowEvenIff(samplingRate: int)
    ensures DefaultWindowLength(samplingRate) % 2 == 0 <==> (samplingRate + 5) % 20 <= 10
  {
  }

  /** A string `window_length` at 1000 Hz and at 200 Hz reaches `savgol_filter` even. */
  lemma EvenDefaultWindowReachesSavGol(name: string, lowcut: Option<real>, highcut: Option<real>)
    requires lowcut.Some? || highcut.Some?
    ensures Dispatch(1000, lowcut, highcut, "savgol", 2, Auto(name)) == SavGol(SavGolArgs(100, 2))
    ensures Dispatch(200, lowcut, highcut, "sg", 3, Auto(name)) == SavGol(SavGolArgs(20, 3))
  {
    RoundHalfEvenUnique(1000 as real / 10.0, 100);
    RoundHalfEvenUnique(200 as real / 10.0, 20);
    AliasesAreLowerCase();
    LowerMatchIffEqualsIgnoringCase("savgol", "savgol");
    LowerMatchIffEqualsIgnoringCase("sg", "sg");
  }

  /**
   * As written, a string `window_length` at 1000 Hz reaches `savgol_filter`
   * as 100, not the odd 101 the documentation promises.
   */
  lemma DiscardedOddAdjustmentAt1000(name: string)
    ensures SavGolWindow(1000, Auto(name)) == 100
    ensures SavGolWindow(1000, Auto(name)) % 2 == 0
    ensures SavGolWindow(1000, Auto(name)) != OddDefaultWindowLength(1000)
  {
    RoundHalfEvenUnique(1000 as real / 10.0, 100);
  }

  /** The intended default at 1000 Hz is the documented 101. */
  lemma OddDefaultWindowAt1000()
    ensures OddDefaultWindowLength(1000) == 101
  {
    RoundHalfEvenUnique(1000 as real / 10.0, 100);
  }

  /**
   * The window the code uses and the intended odd one differ exactly for the
   * rates whose rounded tenth is even.
   */
  lemma OddDefaultDiffersIff(samplingRate: int, name: string)
    ensures SavGolWindow(samplingRate, Auto(name)) != OddDefaultWindowLength(samplingRate)
            <==> (samplingRate + 5) % 20 <= 10
  {
    DefaultWindowEvenIff(samplingRate);
  }

  /** The calls shown in the function's documentation, with the defaults filled in. */
  lemma DocumentedCalls<Sos>(scipy: SciPy<Sos>, signal: Signal)
    ensures Dispatch(1000, None, Some(10.0), "butterworth", 2, Auto("default"))
         == Butter(ButterArgs(2, [10.0], Lowpass, 1000))
    ensures Dispatch(1000, Some(2.0), None, "butterworth", 2, Auto("default"))
         == Butter(ButterArgs(2, [2.0], Highpass, 1000))
    ensures Dispatch(1000, Some(2.0), Some(10.0), "butterworth", 2, Auto("default"))
         == Butter(ButterArgs(2, [2.0, 10.0], Bandpass, 1000))
    // `signal_filter(signal, method='savgol')` gives no cutoff, so it is a no-op.
    ensures SignalFilter(scipy, signal, methodName := "savgol") == Ok(signal)
  {
    OtherInitialSelectsButterworth("butterworth");
  }

  /** Alias matching ignores case. */
  lemma AliasSpellingsSelectSavGol()
    ensures Route("SavGol") == SavitzkyGolay
    ensures Route("SG") == SavitzkyGolay
  {
    assert EqualsIgnoringCase("SavGol", "savgol");
    assert EqualsIgnoringCase("SG", "sg");
  }

  /** Exactly the four spellings of `sg` select smoothing among two-letter names. */
  lemma TwoLetterSavGolNames(methodName: string)
    requires |methodName| == 2
    ensures Route(methodName) == SavitzkyGolay <==> methodName in {"sg", "sG", "Sg", "SG"}
  {
    if Route(methodName) == SavitzkyGolay {
      var alias :| alias in SavGolAliases && EqualsIgnoringCase(methodName, alias);
      assert alias == "sg";
      assert LowerChar(methodName[0]) == 's' && LowerChar(methodName[1]) == 'g';
      var c0, c1 := methodName[0], methodName[1];
      assert methodName == [c0, c1];
      assert (c0 == 's' || c0 == 'S') && (c1 == 'g' || c1 == 'G');
    } else {
      assert methodName != "sg" && methodName != "sG" && methodName != "Sg" && methodName != "SG" by {
        assert !EqualsIgnoringCase(methodName, "sg");
      }
    }
  }

  /** Every alias starts with an `s`, so any other initial means Butterworth. */
  lemma OtherInitialSelectsButterworth(methodName: string)
    requires methodName == [] || LowerChar(methodName[0]) != 's'
    ensures Route(methodName) == Butterworth
  {
  }

  /** Other names, known or not, are Butterworth. */
  lemma OtherNamesSelectButterworth()
    ensures Route("butterworth") == Butterworth
    ensures Route("bessel") == Butterworth
    ensures Route("") == Butterworth
  {
    OtherInitialSelectsButterworth("butterworth");
    OtherInitialSelectsButterworth("bessel");
    OtherInitialSelectsButterworth("");
  }
}
