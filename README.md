# MIR assignment toolkit: tone synthesis, Shepard tones and mel spectrograms

This project is a Dafny model of the discrete core of `MIR_Assignment_1/MIR_Assignment_1_20191048.py`.
It models three groups of routines:

- **Tone synthesis**: the chord mixer `generate_multi_pitch_tone`, the major-scale pitch list
  `make_major_scale_hz_sequence`, and the tone sequencer `generate_sequence_of_pitch`.
- **`ShepardToneGenerator`**: the two 24 x 3 tables of pitches and gains it fills at construction,
  and `generate`, which mixes every step, fades out its tail in place and joins all the steps.
- **`SpectrogramConverter`**:
  - mono reduction, framing, per-frame power spectra and truncation to `n_fft // 2 + 1` bins;
  - the bin-to-Hz and bin-to-second conversions;
  - the mel projection, the decibel scale, and `__call__`, which chains them.

The floating-point routines the code calls are fields of a `Library` value and are not interpreted.
These are sine, `exp`, `log10`, `x ** y`, the Hann window and the FFT magnitude.
A lemma that needs one of their properties states it as a hypothesis, for example:

- `|sin| <= 1`;
- `exp` is increasing;
- `log10(1e-10) == -10`.

Durations stay real numbers of seconds, and the code takes two different sample counts from them:

- `int(dur * sr)`, used for the zero buffers, is the floor of the product;
- `len(torch.arange(dur * sr))`, used for every sine wave, is its ceiling.

`WholeSamples` says the two agree.

Failures are `Result` values with five error kinds:

- `LengthMismatch`: the length `assert` of the chord mixer;
- `InvalidDimension`: the rank `assert` of `get_spectrogram`;
- `NoFrames`: `torch.stack` of an empty list;
- `EmptyConcat`: `torch.cat` of an empty list, in `generate` with no cycles;
- `ShapeMismatch`: an in-place addition or `torch.mm` whose shapes do not fit.

Modules:

- `Base`: the library, errors, sample counts, zeros, concatenation and sums.
- `Tone`: the tone routines.
- `Shepard`: the Shepard-tone generator, a class holding the two tables as `array2<real>` fields.
- `Spectrogram`: the converter, a class with constant fields and an imperative framing loop.

Three behaviours of the code are kept as written:

- The columns of the pitch table are 24 semitones (two octaves) apart, since the code adds `j * 24`.
- `generate_sequence_of_pitch` starts from a block of `int(duration * sr)` zeros, so the output opens with one step of silence before the first frequency. Its docstring example does not show this silence. The zero block is floor-sized while the sine blocks are ceiling-sized.
- A square two-dimensional input to `get_spectrogram` is averaged over dim 1, because the comparison is strict.

## Model

| member | source | states |
|---|---|---|
| `Base.SampleCounts` | MIR_Assignment_1/MIR_Assignment_1_20191048.py:34-35 | `arange(dur * sr)` has the least count of samples covering the product. It is `int(dur * sr)` or one more, and equal to it exactly when the product is whole |
| `Base.FloorSamples` | MIR_Assignment_1/MIR_Assignment_1_20191048.py:66 | `int(dur * sr)` is the whole number n with n <= dur * sr < n + 1 |
| `Base.CeilSamples` | MIR_Assignment_1/MIR_Assignment_1_20191048.py:34-35 | `len(arange(dur * sr))` is the whole number n with dur * sr <= n < dur * sr + 1 |
| `Base.Zeros` | MIR_Assignment_1/MIR_Assignment_1_20191048.py:66 | `torch.zeros(n)` has n entries, all 0 |
| `Base.Concat` | MIR_Assignment_1/MIR_Assignment_1_20191048.py:118 | `torch.cat` of a list of one-dimensional blocks: its length and layout are stated by `ConcatTotalLength`, `ConcatLength`, `ConcatBlock`, `ConcatCons` and `ConsBlock` (`Concat` carries no ensures of its own) |
| `Base.ConcatTotalLength` | MIR_Assignment_1/MIR_Assignment_1_20191048.py:118 | `torch.cat` of any list of blocks holds as many samples as the blocks together |
| `Base.ConcatLength` | MIR_Assignment_1/MIR_Assignment_1_20191048.py:213 | joining blocks of c samples each gives (number of blocks) * c samples |
| `Base.ConcatBlock` | MIR_Assignment_1/MIR_Assignment_1_20191048.py:213 | with uniform blocks of c samples, the j-th stretch of c samples of `torch.cat` is exactly block j |
| `Base.ConcatCons` | MIR_Assignment_1/MIR_Assignment_1_20191048.py:118 | joining a block in front of the rest is that block followed by the rest joined |
| `Base.ConsBlock` | MIR_Assignment_1/MIR_Assignment_1_20191048.py:113-118 | a leading block followed by the joined uniform blocks of c samples starts with the leading block, and block j fills the j-th stretch of c samples after it |
| `Tone.MidiPitchToHz` | MIR_Assignment_1/MIR_Assignment_1_20191048.py:29 | given 2^0 = 1, MIDI pitch 69 converts to 440 Hz |
| `Tone.MidiOctave` | MIR_Assignment_1/MIR_Assignment_1_20191048.py:29 | given 2^(x + 1) = 2 * 2^x, twelve semitones up doubles the frequency |
| `Tone.SineWave` | MIR_Assignment_1/MIR_Assignment_1_20191048.py:33-37 | a sine wave has one sample per element of `arange(dur * sr)`, the ceiling of the product |
| `Tone.AddWaves` | MIR_Assignment_1/MIR_Assignment_1_20191048.py:71 | the in-place addition of two equally long waves keeps the length and adds them sample by sample |
| `Tone.MixSample` | MIR_Assignment_1/MIR_Assignment_1_20191048.py:69-71 | chord sample k is the sum, over all partials, of that partial's sample k |
| `Tone.Mix` | MIR_Assignment_1/MIR_Assignment_1_20191048.py:66-71 | an n-sample chord whose every sample k is the sum of the partials' samples k |
| `Tone.MixStep` | MIR_Assignment_1/MIR_Assignment_1_20191048.py:69-71 | adding partial i's sine wave onto the chord of the partials before it yields the chord of partials 0..i; onto an empty buffer the chord stays empty |
| `Tone.GenerateMultiPitchTone` | MIR_Assignment_1/MIR_Assignment_1_20191048.py:58-73 | fails with the length error exactly when the lists differ in length, and with the shape error exactly when there are partials, the sine length `len(arange(duration * sr))` exceeds `int(duration * sr)`, and the zero buffer is not empty. Otherwise it returns `int(duration * sr)` samples, sample k being the sum over partials of amp * sin(2 pi f t) at the pitch's frequency |
| `Tone.MixSinglePartial` | MIR_Assignment_1/MIR_Assignment_1_20191048.py:69-71 | a one-pitch chord is exactly that pitch's sine wave |
| `Tone.MixAppend` | MIR_Assignment_1/MIR_Assignment_1_20191048.py:69-71 | the chord of two groups of partials is the sum of the two groups' chords |
| `Tone.MixReorder` | MIR_Assignment_1/MIR_Assignment_1_20191048.py:69-71 | the chord does not depend on the order in which groups of partials are listed |
| `Tone.MixBound` | MIR_Assignment_1/MIR_Assignment_1_20191048.py:69-71 | given a sine bounded by 1 and non-negative gains, every chord sample lies within plus or minus the sum of the gains |
| `Tone.SineSampleBound` | MIR_Assignment_1/MIR_Assignment_1_20191048.py:37 | given a sine bounded by 1, a sample of a partial with non-negative gain lies within plus or minus that gain |
| `Tone.MajorScaleIntervals` | MIR_Assignment_1/MIR_Assignment_1_20191048.py:87 | the eight scale pitches start at the tonic and climb by whole, whole, half, whole, whole, whole, half, spanning exactly 12 semitones |
| `Tone.MakeMajorScaleHzSequence` | MIR_Assignment_1/MIR_Assignment_1_20191048.py:87-95 | returns 8 frequencies, the d-th being `midi_pitch_to_hz` of the d-th major-scale pitch |
| `Tone.GenerateSequenceOfPitch` | MIR_Assignment_1/MIR_Assignment_1_20191048.py:113-120 | the output is the concatenation of the zero block and the frequencies' sine waves in list order |
| `Tone.PitchSequenceLength` | MIR_Assignment_1/MIR_Assignment_1_20191048.py:113-120 | the output has `int(duration * sr)` + n * `len(arange(duration * sr))` samples, which is (n + 1) * `int(duration * sr)` on a whole product |
| `Tone.PitchSequenceBlock` | MIR_Assignment_1/MIR_Assignment_1_20191048.py:113-120 | the output starts with `int(duration * sr)` zeros, and frequency j's sine wave fills its own stretch after them |
| `Shepard.PitchSpacing` | MIR_Assignment_1/MIR_Assignment_1_20191048.py:164-174 | table pitches lie in 24..95, adjacent columns differ by 24, adjacent rows by 1, and the pitch class of row i is i mod 12 |
| `Shepard.PitchDistinct` | MIR_Assignment_1/MIR_Assignment_1_20191048.py:169-172 | no two cells of the pitch table hold the same pitch |
| `Shepard.AmplitudeMirror` | MIR_Assignment_1/MIR_Assignment_1_20191048.py:186-202 | column 1 is 1.0, column 2 of row i is exp(-0.388 i), and column 0 of row i equals column 2 of row 23 - i |
| `Shepard.Crossfade` | MIR_Assignment_1/MIR_Assignment_1_20191048.py:188-200 | given an increasing exp, the top partial strictly fades out and the bottom one strictly fades in as the step grows |
| `Shepard.CycleSeam` | MIR_Assignment_1/MIR_Assignment_1_20191048.py:164-202 | each step raises every partial a semitone. From step 23 to step 0, each lower partial reappears a semitone higher as the next partial with the same gain, and the vanishing top partial's gain is the new bottom gain |
| `Shepard.LogspaceExponent` | MIR_Assignment_1/MIR_Assignment_1_20191048.py:211 | every exponent of `logspace(0, -3, m)` lies in [-3, 0]; the first is 0 and, for m >= 2, the last is -3 |
| `Shepard.LogspaceEnds` | MIR_Assignment_1/MIR_Assignment_1_20191048.py:211 | for m >= 2 the fade exponents start at 0, end at -3 and strictly decrease in between |
| `Shepard.FadeGains` | MIR_Assignment_1/MIR_Assignment_1_20191048.py:211 | `logspace(0, -3, m)` has m gains, the first 10^0 and, for m >= 2, the last 10^-3 |
| `Shepard.Faded` | MIR_Assignment_1/MIR_Assignment_1_20191048.py:211 | `audio[-m:] *= gains` leaves the first n - m samples as they were and multiplies each of the last m by its own gain, in order |
| `Shepard.ScaleTail` | MIR_Assignment_1/MIR_Assignment_1_20191048.py:211 | the in-place update leaves the first n - m samples unchanged and multiplies each of the last m by its gain |
| `Shepard.ShepardToneGenerator.constructor` | MIR_Assignment_1/MIR_Assignment_1_20191048.py:147-154 | stores the rate, step length and cycle count, sets the fade to a tenth of a step, and fills both tables with exactly the pitch and gain patterns |
| `Shepard.ShepardToneGenerator.DefinePitch` | MIR_Assignment_1/MIR_Assignment_1_20191048.py:164-174 | returns a fresh 24 x 3 table whose cell (i, j) is 24 + i + 24 j |
| `Shepard.ShepardToneGenerator.DefineAmplitude` | MIR_Assignment_1/MIR_Assignment_1_20191048.py:186-202 | returns a fresh 24 x 3 table: column 1 all 1.0, column 2 exp(-0.388 i), and column 0 mirrors column 2 from row 23 - i, which the second pass reads after the first has fixed it |
| `Shepard.ShepardToneGenerator.FadeFitsStep` | MIR_Assignment_1/MIR_Assignment_1_20191048.py:151 | a fade of a tenth of a step never holds more samples than the step |
| `Shepard.ShepardToneGenerator.GenerateStep` | MIR_Assignment_1/MIR_Assignment_1_20191048.py:208-211 | mixing row j of both tables and fading its tail in place yields a fresh buffer holding step j's faded chord |
| `Shepard.ShepardToneGenerator.CollectSteps` | MIR_Assignment_1/MIR_Assignment_1_20191048.py:205-212 | the two loops collect exactly iter cycles of the 24 faded steps, in order |
| `Shepard.ShepardToneGenerator.NextStep` | MIR_Assignment_1/MIR_Assignment_1_20191048.py:205-212 | step j of cycle i is block i * 24 + j of the list, so appending it extends the list by one block, and after step 23 comes cycle i + 1 |
| `Shepard.ShepardToneGenerator.Generate` | MIR_Assignment_1/MIR_Assignment_1_20191048.py:204-213 | fails with the empty-concatenation error exactly when there are no cycles. Otherwise the output is the concatenation of iter cycles of steps 0..23, in order |
| `Shepard.ShepardToneGenerator.ShepardLayout` | MIR_Assignment_1/MIR_Assignment_1_20191048.py:204-213 | the output has iter * 24 * `int(dur * sr)` samples, and its b-th step-long stretch is step b mod 24 |
| `Shepard.ShepardToneGenerator.StepFade` | MIR_Assignment_1/MIR_Assignment_1_20191048.py:211 | within a step, samples before the last `int(fadeout_margin * sr)` are the plain chord. The k-th faded sample is the chord times 10 to the k-th logspace exponent |
| `Spectrogram.ToMono` | MIR_Assignment_1/MIR_Assignment_1_20191048.py:237-242 | fails with the rank error exactly for a rank other than 1 and 2. A vector passes unchanged. A matrix keeps its longer axis, with ties keeping the rows, and each sample is the mean over the other axis: times the number of averaged entries, it is their sum |
| `Spectrogram.MeanOverRows` | MIR_Assignment_1/MIR_Assignment_1_20191048.py:239 | one entry per column, each being the column's sum divided by the number of rows |
| `Spectrogram.MeanOverColumns` | MIR_Assignment_1/MIR_Assignment_1_20191048.py:241 | one entry per row, each being the row's sum divided by the row length |
| `Spectrogram.MeanBetween` | MIR_Assignment_1/MIR_Assignment_1_20191048.py:239-241 | a mean of terms in [lo, hi] lies in [lo, hi] |
| `Spectrogram.MonoBounds` | MIR_Assignment_1/MIR_Assignment_1_20191048.py:237-242 | when every input sample lies in [lo, hi], so does every sample of the mono signal |
| `Spectrogram.MonoOfIdenticalChannels` | MIR_Assignment_1/MIR_Assignment_1_20191048.py:237-241 | when every channel on the shorter axis carries the same signal, mono reduction returns that signal |
| `Spectrogram.Range` | MIR_Assignment_1/MIR_Assignment_1_20191048.py:251 | `range(start, stop, step)` is empty exactly when start >= stop, and every value lies in [start, stop) |
| `Spectrogram.RangeValues` | MIR_Assignment_1/MIR_Assignment_1_20191048.py:251 | `range(start, stop, step)` lists start + t * step, all below stop, and one more step would reach stop |
| `Spectrogram.FrameStartsShape` | MIR_Assignment_1/MIR_Assignment_1_20191048.py:251 | frame t starts at t * hop and lies inside the signal. The next start would overrun, so a trailing partial frame is dropped. There are (N - n_fft) / hop + 1 frames when N >= n_fft and none otherwise |
| `Spectrogram.FrameSpectrum` | MIR_Assignment_1/MIR_Assignment_1_20191048.py:252-256 | a spectrum column has one bin per frame sample |
| `Spectrogram.WindowedOnly` | MIR_Assignment_1/MIR_Assignment_1_20191048.py:252-256 | two frames that agree wherever the window is non-zero give the same spectrum column |
| `Spectrogram.StackRows` | MIR_Assignment_1/MIR_Assignment_1_20191048.py:259 | `torch.stack(columns, 1)[:rows]` is a rows x |columns| matrix whose entry [b][t] is bin b of column t |
| `Spectrogram.SpectrogramConverter.constructor` | MIR_Assignment_1/MIR_Assignment_1_20191048.py:218-226 | stores the settings and the filterbank, and builds a Hann window of n_fft samples |
| `Spectrogram.SpectrogramConverter.Columns` | MIR_Assignment_1/MIR_Assignment_1_20191048.py:251-257 | the collected spectra are one per start, in order, column t being the spectrum of the window at start t |
| `Spectrogram.SpectrogramConverter.FrameLoop` | MIR_Assignment_1/MIR_Assignment_1_20191048.py:249-257 | the loop over `range(0, N - n_fft + 1, hop)` collects exactly the spectrum columns of all whole windows, in order |
| `Spectrogram.SpectrogramConverter.GetSpectrogram` | MIR_Assignment_1/MIR_Assignment_1_20191048.py:237-261 | the framing loop returns exactly the mono reduction's error, the empty-stack error, or the stacked and truncated columns of all whole windows |
| `Spectrogram.SpectrogramConverter.SpectrogramErrors` | MIR_Assignment_1/MIR_Assignment_1_20191048.py:237-259 | `get_spectrogram` fails exactly for a bad rank (rank error) or a signal shorter than one window (empty stack) |
| `Spectrogram.SpectrogramConverter.SpectrogramShape` | MIR_Assignment_1/MIR_Assignment_1_20191048.py:249-259 | a successful spectrogram has n_fft // 2 + 1 rows and (N - n_fft) / hop + 1 columns. Entry [b][t] is bin b of the window starting at t * hop, which lies inside the signal |
| `Spectrogram.SpectrogramConverter.FrameLayout` | MIR_Assignment_1/MIR_Assignment_1_20191048.py:249-259 | the same shape and entries for any mono signal of at least n_fft samples |
| `Spectrogram.SpectrogramConverter.FrequencyBinToHz` | MIR_Assignment_1/MIR_Assignment_1_20191048.py:281 | bin k times n_fft is k times sr: n_fft bins span sr Hz |
| `Spectrogram.SpectrogramConverter.FrequencyBins` | MIR_Assignment_1/MIR_Assignment_1_20191048.py:281 | bin 0 is 0 Hz, bins are sr / n_fft apart, and for even n_fft the last kept bin is sr / 2 |
| `Spectrogram.SpectrogramConverter.TimeBinToSecond` | MIR_Assignment_1/MIR_Assignment_1_20191048.py:298 | the time of bin k times sr is k times the hop: frames are hop samples apart |
| `Spectrogram.SpectrogramConverter.FrameTime` | MIR_Assignment_1/MIR_Assignment_1_20191048.py:298 | time bin t converts to the second at which frame t's first sample lies, t * hop / sr |
| `Spectrogram.SpectrogramConverter.ConvertSpecToMelSpec` | MIR_Assignment_1/MIR_Assignment_1_20191048.py:326 | fails with the shape error exactly when the filterbank and the spectrogram differ in rows. Otherwise the result is num_mels x frames with entry [m][t] = sum over b of fb[b][m] * spec[b][t] |
| `Spectrogram.SpectrogramConverter.MelNonNegative` | MIR_Assignment_1/MIR_Assignment_1_20191048.py:326 | a non-negative filterbank maps a non-negative spectrogram to a non-negative mel spectrogram |
| `Spectrogram.SpectrogramConverter.MelFrameLocal` | MIR_Assignment_1/MIR_Assignment_1_20191048.py:326 | mel column t depends only on spectrogram column t |
| `Spectrogram.SpectrogramConverter.AmplitudeToDb` | MIR_Assignment_1/MIR_Assignment_1_20191048.py:340 | keeps the shape. Every entry at or below eps maps to 10 log10(eps), and every entry at or above eps to 10 log10 of itself |
| `Spectrogram.Clamp` | MIR_Assignment_1/MIR_Assignment_1_20191048.py:340 | `clamp(x, min=lo)` is never below lo, is x from lo upwards and lo from lo downwards |
| `Spectrogram.ToDb` | MIR_Assignment_1/MIR_Assignment_1_20191048.py:340 | an entry at or below eps reads 10 log10(eps), one at or above eps reads 10 log10 of itself |
| `Spectrogram.DbMonotone` | MIR_Assignment_1/MIR_Assignment_1_20191048.py:340 | given a non-decreasing log10, the dB scale preserves order |
| `Spectrogram.SilenceIsMinus100Db` | MIR_Assignment_1/MIR_Assignment_1_20191048.py:330-340 | at the default eps of 1e-10, any entry at or below it reads -100 dB |
| `Spectrogram.SpectrogramConverter.Call` | MIR_Assignment_1/MIR_Assignment_1_20191048.py:353-361 | the pipeline fails exactly when `get_spectrogram` does, with the same error, because the mel projection cannot fail on its output. Otherwise it returns the dB-scaled mel projection, num_mels x frames |

## Left out

- Floating-point rounding: sums and products are exact reals. The values of sine, `exp`, `log10`, `x ** y`, `torch.logspace`'s powers, the Hann window and the FFT are uninterpreted library fields.
- `hz_to_midi_pitch`, the Hz/MIDI round trip and `make_just_intonation_triad_in_midi_pitch`: log and power formulas that only hold within float tolerance.
- `hz_to_mel`: a single log10 formula, unused by the modelled pipeline.
- `get_melfilterbank`: a torchaudio call. The filterbank is a constructor argument of shape (n_fft // 2 + 1) x num_mels.
- Plotting (`change_ytick_to_frequency`, `change_xtick_to_seconds`), `torchaudio.save` and the `__main__` driver: display and file output.
- Default parameter values are not modelled as such. `power` is a constructor argument, and `Call` uses the default `eps` of 1e-10, as `__call__` does.
- `Tone.GenerateMultiPitchTone`: requires `duration >= 0` and `sr > 0`, as do `Tone.SineWave` and `Tone.GenerateSequenceOfPitch`. A negative duration is not modelled. When `duration * sr <= -1`, `torch.zeros` gets a negative size and raises. When `-1 < duration * sr < 0`, `int` truncates to 0 and the zero buffer is empty; each partial or frequency then gives `torch.arange` an end below its start, and with none of them the code returns the empty buffer. With `sr = 0` the code returns an empty buffer, which the model does not capture.
- `Shepard.ShepardToneGenerator.Generate`: requires whole samples per step and a fade of at least one sample (`Playable`). For a fade of zero samples, `audio[-0:]` selects the whole buffer against an empty gain list, which the model does not capture.
- `Shepard.ScaleTail`: requires a non-empty fade, for the same reason.
- `Spectrogram.SpectrogramConverter.constructor`: requires n_fft, hop size and sample rate to be at least 1. A hop of 0 makes `range` raise `ValueError` at line 251. A negative hop is not modelled either. For a signal of at least n_fft - 1 samples it gives an empty `range`, after which `torch.stack` fails on the empty list. For a shorter signal the range is not empty (N = 10, n_fft = 1024, hop = -512 gives starts 0 and -512), and the window product at line 254 fails on a slice shorter than the window. An n_fft or sample rate of 0 makes the unit conversions divide by zero. None of these error paths is modelled.
- `Spectrogram.ToMono`: a two-dimensional input must be rectangular with both dimensions at least 1, since a mean over an empty dimension is NaN. Tensors of other ranks are represented by their rank alone.
