# NeuroKit `signal_filter`: a model of the dispatcher

NeuroKit's `signal_filter` filters a sampled signal in one of three ways.
With no cutoff frequency it returns the input unchanged. Otherwise it
smooths the signal with a Savitzky-Golay filter when `method` is one of the
smoothing aliases, compared without regard to case. For every other
`method` it applies a zero-phase Butterworth filter. That filter is a
bandpass, highpass or lowpass depending on which cutoffs are given. All the
numerical work is done by three SciPy routines: `butter`, `sosfiltfilt` and
`savgol_filter`.

This project models the decision layer. It decides whether a call is a
no-op, which back-end it uses, and the exact arguments that back-end gets.
The model is written as pure functions, as the code is.

- `PyText` (`pytext.dfy`) models `str.lower` on ASCII letters. It also
  defines "equal ignoring case" as a character-by-character comparison
  (built on the same one-character lower-casing) and proves it agrees with
  comparing the lower-cased string.
- `NumpyRound` (`numpy_round.dfy`) models `np.round` as round-half-to-even.
  It gives a characterisation of the result and proves it unique.
- `SignalFiltering` (`signal_filter.dfy`) holds the request types and the
  argument records `ButterArgs` and `SavGolArgs`. It also holds `SciPy<Sos>`,
  which bundles the three library routines as arbitrary total functions
  that return `Ok` or `Raised`. Then there is the plan datatype:
  `Identity | SavGol(args) | Butter(args)`. `Dispatch` computes the plan
  and `Run` carries one out; `ZeroPhase` is `sosfiltfilt` applied to the
  result of `butter`. These two interpreters have no contracts of their
  own: they are what the `FilterButterworth`, `FilterSavGol` and
  `SignalFilter` rows refer to. Finally there are the three functions of the
  source: `SignalFilter`, `FilterSavGol` and `FilterButterworth`. Each is
  proved equal to `Run` of its plan, for every `SciPy` value. So every
  property holds whatever the library does.
- `SignalFilterProperties` (`signal_filter_properties.dfy`) holds the
  lemmas that relate several calls, or relate a call to the library.

Notes on the code as written:

- Line 88 computes `window_length + 1` and throws the result away. So an
  even default window reaches `savgol_filter` unchanged. At 1000 Hz that
  window is 100, though the docstring (line 29) promises 101. The model
  follows the code. `DefaultWindowEvenIff` states exactly which integer
  rates give an even default. The documented odd default stands beside it
  as `OddDefaultWindowLength`, see "## Findings".
- The docstring's example `signal_filter(signal, method='savgol')`
  (line 61) passes no cutoff. The guard at line 65 therefore returns the
  input unchanged (`DocumentedCalls`).
- The code validates nothing: cutoff order, the Nyquist limit, `order` and
  window parity or size are all unchecked. So the model has no error
  branches of its own. Every failure comes from the library and is passed
  through unchanged. The one exception of the code's own is
  `_signal_filter_butterworth` called with no cutoff: `sos` is never bound
  and line 108 raises `UnboundLocalError`. `FilterButterworth` models this
  failure, and `Dispatch` shows that `signal_filter` never reaches it.
- Defaults are as in the code: `sampling_rate=1000`,
  `method="butterworth"`, `order=2` and `window_length="default"`. They
  are written as Dafny default parameter values.

## Model

| member | source | states |
|---|---|---|
| `PyText.LowerChar` | neurokit2/signal/signal_filter.py:68 | the lower-cased character is never an upper-case ASCII letter; only 'A'..'Z' change, each to the letter 32 code points on |
| `PyText.Lower` | neurokit2/signal/signal_filter.py:68 | `method.lower()` keeps the length and lower-cases each character in place |
| `PyText.LowerOfLowerCase` | neurokit2/signal/signal_filter.py:68 | text with no upper-case letter is its own lower-case form (so each alias matches itself) |
| `PyText.LowerMatchIffEqualsIgnoringCase` | neurokit2/signal/signal_filter.py:68 | `s.lower() == word` for a lower-case word holds exactly when `s` equals `word` ignoring case, both directions |
| `NumpyRound.RoundHalfEven` | neurokit2/signal/signal_filter.py:86 | `np.round(x)` is within 1/2 of `x`, and on a tie it is even |
| `NumpyRound.RoundHalfEvenUnique` | neurokit2/signal/signal_filter.py:86 | that characterisation leaves only one integer, so it pins down `np.round` |
| `SignalFiltering.Route` | neurokit2/signal/signal_filter.py:68-71 | Savitzky-Golay exactly when `method` equals "sg", "savgol" or "savitzky-golay" ignoring case; Butterworth exactly otherwise (exclusive and exhaustive) |
| `SignalFiltering.DefaultWindowLength` | neurokit2/signal/signal_filter.py:85-86 | the default window `w` satisfies `abs(10*w - sampling_rate) <= 5`, and an exact half goes to the even `w` |
| `SignalFiltering.SavGolWindow` | neurokit2/signal/signal_filter.py:85-88 | an integer `window_length` is passed through untouched; any string becomes round-half-even of `sampling_rate/10`, not adjusted to odd |
| `SignalFiltering.SavGolCall` | neurokit2/signal/signal_filter.py:85-90 | `savgol_filter` gets the caller's `order` as `polyorder` and the derived window |
| `SignalFiltering.ButterCall` | neurokit2/signal/signal_filter.py:101-106 | a design exists exactly when some cutoff is given; it has the caller's order and `fs=sampling_rate`; its cutoffs are the given ones in low-then-high order; and the band it passes, read back from `btype`, is exactly (lowcut, highcut) |
| `SignalFiltering.Dispatch` | neurokit2/signal/signal_filter.py:65-71 | identity exactly when both cutoffs are absent, smoothing exactly when some cutoff is given and the name is an alias, Butterworth exactly otherwise; each plan carries the arguments stated for `SavGolCall` and `ButterCall` |
| `SignalFiltering.FilterSavGol` | neurokit2/signal/signal_filter.py:80-91 | `_signal_filter_savgol` returns or raises exactly what the smoother does on the derived arguments |
| `SignalFiltering.FilterButterworth` | neurokit2/signal/signal_filter.py:98-109 | with no cutoff it raises UnboundLocalError on `sos`; otherwise it returns the result of `sosfiltfilt` on the `butter` design from `ButterCall`, or what either raised |
| `SignalFiltering.SignalFilter` | neurokit2/signal/signal_filter.py:65-73 | with no cutoff the result is exactly the input signal, whatever the method, order, window or library; in every case it is the result of running `Dispatch`'s plan |
| `SignalFilterProperties.SavGolIgnoresCutoffValues` | neurokit2/signal/signal_filter.py:65-69 | on the smoothing path the cutoff values do not matter, only that one is present; the result is the smoother's output |
| `SignalFilterProperties.ButterworthIgnoresWindowAndName` | neurokit2/signal/signal_filter.py:68-71 | on the Butterworth path `window_length` does not matter, and all non-alias names give the same result |
| `SignalFilterProperties.OnlyTheChosenBackEndMatters` | neurokit2/signal/signal_filter.py:68-108 | two libraries that agree on `savgol_filter` (smoothing path), or on `butter` and on `sosfiltfilt` of its designs (Butterworth path), give the same result |
| `SignalFilterProperties.ResultIsBackEndResult` | neurokit2/signal/signal_filter.py:69-109 | the value returned or exception raised is exactly the chosen routine's, with nothing done to it afterwards |
| `SignalFilterProperties.BTypeFromCutoffs` | neurokit2/signal/signal_filter.py:101-106 | bandpass exactly when both cutoffs are given, with cutoffs `[lowcut, highcut]`; highpass exactly when only `lowcut` is given; lowpass exactly when only `highcut` is given |
| `SignalFilterProperties.DefaultWindowEvenIff` | neurokit2/signal/signal_filter.py:86-88 | the default window is even exactly when `(sampling_rate + 5) mod 20 <= 10`; the discarded `+ 1` leaves those even |
| `SignalFilterProperties.EvenDefaultWindowReachesSavGol` | neurokit2/signal/signal_filter.py:85-90 | a string window at 1000 Hz reaches `savgol_filter` as 100, and at 200 Hz as 20; both even |
| `SignalFilterProperties.DocumentedCalls` | neurokit2/signal/signal_filter.py:48-61 | `highcut=10` is a lowpass at [10], `lowcut=2` a highpass at [2], both a bandpass at [2, 10], each order 2 at fs 1000; `method='savgol'` with no cutoff returns the input |
| `SignalFiltering.OddDefaultWindowLength` | neurokit2/signal/signal_filter.py:87-88 | the documented default (line 29): always odd, equal to the rounded tenth when that is odd and one more when it is even; not used by the dispatcher |
| `SignalFilterProperties.DiscardedOddAdjustmentAt1000` | neurokit2/signal/signal_filter.py:85-90 | as written, a string window at 1000 Hz reaches `savgol_filter` as the even 100, not the intended 101 |
| `SignalFilterProperties.OddDefaultWindowAt1000` | neurokit2/signal/signal_filter.py:29 | the intended default at 1000 Hz is 101, as documented |
| `SignalFilterProperties.OddDefaultDiffersIff` | neurokit2/signal/signal_filter.py:86-88 | the code's default and the intended odd one differ exactly when `(sampling_rate + 5) mod 20 <= 10` |
| `SignalFilterProperties.TwoLetterSavGolNames` | neurokit2/signal/signal_filter.py:68 | among two-letter names, exactly "sg", "sG", "Sg" and "SG" select smoothing |
| `SignalFilterProperties.AliasSpellingsSelectSavGol` | neurokit2/signal/signal_filter.py:68-69 | "SavGol" and "SG" select smoothing |
| `SignalFilterProperties.OtherInitialSelectsButterworth` | neurokit2/signal/signal_filter.py:68-71 | a name that is empty or does not start with s/S selects Butterworth |
| `SignalFilterProperties.OtherNamesSelectButterworth` | neurokit2/signal/signal_filter.py:70-71 | "butterworth", "bessel" and "" select Butterworth |

## Findings

| source | as written | input that shows it | evidently intended | confidence | as-written member | corrected member |
|---|---|---|---|---|---|---|
| neurokit2/signal/signal_filter.py:87-88 | `window_length + 1` is computed and discarded, so an even default window reaches `savgol_filter` unchanged | `sampling_rate=1000`, `window_length="default"`, any cutoff, `method="savgol"`: window 100 | the odd window of line 29 ("101 if the sampling rate is 1000 Hz"), i.e. one more when the rounded tenth is even | high, not executed | `SignalFilterProperties.DiscardedOddAdjustmentAt1000` | `SignalFiltering.OddDefaultWindowLength` |

The dispatcher keeps the behaviour as written: `Dispatch` and
`SignalFilter` use `SavGolWindow`, and `OddDefaultWindowLength` is the
corrected default stated and proved beside it: it is odd
(its own contract), it is 101 at 1000 Hz (`OddDefaultWindowAt1000`), and
it differs from the window as written exactly for the rates named in
`OddDefaultDiffersIff`.

## Left out

- The work of `scipy.signal.butter`, `sosfiltfilt` and `savgol_filter`
  (lines 90, 102-108). This is foreign floating-point numerics. The three
  routines are parameters: arbitrary functions that return or raise. So
  frequency response, zero phase and output length are not modelled.
- `str.lower` outside ASCII. Python also lower-cases other characters,
  some of them onto ASCII letters (KELVIN SIGN U+212A becomes 'k'), and
  some into more than one character ('İ' U+0130 becomes two code points),
  so Python's `lower` need not keep the length. The model lower-cases
  'A'..'Z' only, and its length-preserving contract holds of that model.
- `sampling_rate / 10` is float division in the source. The model rounds
  the exact rational quotient. For integer rates below 2**52 in magnitude
  the two agree. Non-integer sampling rates are not modelled, and
  `sampling_rate` is an `int` throughout.
- Python's dynamic typing: a `method` that is not a string (which raises
  `AttributeError` at line 68) and a `window_length` that is neither a
  string nor an integer are not modelled.
- The signal's container type. On the identity path the caller's own
  object (list, array or Series) comes back, while the back-ends return
  arrays. The model treats every signal as a sequence of reals.
- Exception messages. An exception is modelled by its class name only
  (`UnboundLocalError` for the unbound `sos`), since the message text
  differs between Python versions.
- The commented-out B/A implementation (lines 112-137) is dead code.
