/** The Shepard-tone generator: a 24-step table of three-partial chords whose
    top partial fades out while a bottom partial fades in, played step after
    step with a logarithmic fade at the end of every step. */
module Shepard {
  import opened Base
  import opened Tone

  /** Number of steps in one cycle (rows of the tables). */
  const StepCount: nat := 24
  /** Number of partials per step (columns of the tables). */
  const PartialCount: nat := 3
  /** MIDI pitch of the lowest partial at step 0 (C1). */
  const BasePitch: int := 24

  /** Cell (i, j) of `define_pitch`: step i of partial j. */
  function PitchAt(i: nat, j: nat): (pitch: int)
  {
    (BasePitch + i) + j * 24
  }

  /** The pitch table's shape: within a step the partials lie 24 semitones
      (two octaves) apart, every partial rises one semitone per step, and all
      72 pitches are distinct MIDI pitches from 24 to 95. */
  lemma PitchSpacing(i: nat, j: nat)
    requires i < StepCount && j < PartialCount
    ensures 24 <= PitchAt(i, j) <= 95
    ensures j + 1 < PartialCount ==> PitchAt(i, j + 1) - PitchAt(i, j) == 24
    ensures i + 1 < StepCount ==> PitchAt(i + 1, j) - PitchAt(i, j) == 1
    ensures PitchAt(i, j) % 12 == i % 12
  {
  }

  /** No two cells of the pitch table hold the same pitch. */
  lemma PitchDistinct(i: nat, j: nat, i': nat, j': nat)
    requires i < StepCount && j < PartialCount && i' < StepCount && j' < PartialCount
    requires PitchAt(i, j) == PitchAt(i', j')
    ensures i == i' && j == j'
  {
  }

  /** Gain of the top partial at step i: `exp(-0.388 * i)`. */
  function UpperGain(lib: Library, i: nat): (gain: real)
  {
    lib.exp(-0.388 * i as real)
  }

  /** Cell (i, j) of `define_amplitude`: the middle partial at full gain, the
      top one decaying with the step, the bottom one mirroring the top. */
  function AmplitudeAt(lib: Library, i: nat, j: nat): (amp: real)
    requires i < StepCount && j < PartialCount
  {
    if j == 1 then 1.0
    else if j == 2 then UpperGain(lib, i)
    else UpperGain(lib, 23 - i)
  }

  /** The amplitude table: column 1 is 1.0, column 2 is exp(-0.388 i), and
      column 0 of step i equals column 2 of step 23 - i. */
  lemma AmplitudeMirror(lib: Library, i: nat)
    requires i < StepCount
    ensures AmplitudeAt(lib, i, 1) == 1.0
    ensures AmplitudeAt(lib, i, 2) == lib.exp(-0.388 * i as real)
    ensures AmplitudeAt(lib, i, 0) == AmplitudeAt(lib, 23 - i, 2)
  {
  }

  /** With an increasing exponential the top partial fades out step by step
      while the bottom partial fades in. */
  lemma Crossfade(lib: Library, i: nat, i': nat)
    requires forall x: real, y: real :: x < y ==> lib.exp(x) < lib.exp(y)
    requires i < i' < StepCount
    ensures AmplitudeAt(lib, i', 2) < AmplitudeAt(lib, i, 2)
    ensures AmplitudeAt(lib, i, 0) < AmplitudeAt(lib, i', 0)
  {
    assert -0.388 * i' as real < -0.388 * i as real;
    assert -0.388 * (23 - i) as real < -0.388 * (23 - i') as real;
  }

  /** The seam of the illusion. From step i to step i + 1 every partial rises a
      semitone at the same gain pattern; from step 23 back to step 0, each of
      the two lower partials reappears one semitone higher as the next partial
      up with the very same gain, and the top partial, which ends the cycle at
      its quietest, is replaced by a new bottom partial at that same gain. */
  lemma CycleSeam(lib: Library, j: nat)
    requires lib.exp(0.0) == 1.0
    requires j < PartialCount
    ensures forall i :: 0 <= i < StepCount - 1 ==> PitchAt(i + 1, j) == PitchAt(i, j) + 1
    ensures j + 1 < PartialCount ==>
      PitchAt(0, j + 1) == PitchAt(23, j) + 1 && AmplitudeAt(lib, 0, j + 1) == AmplitudeAt(lib, 23, j)
    ensures AmplitudeAt(lib, 0, 0) == AmplitudeAt(lib, 23, 2)
  {
    assert -0.388 * 0 as real == 0.0;
  }

  /** Exponent k of `torch.logspace(0, -3, m)`: m evenly spaced exponents from
      0 down to -3 (a single element is the start, 0). */
  function LogspaceExponent(k: nat, m: nat): (e: real)
    requires k < m
    ensures -3.0 <= e <= 0.0
    ensures k == 0 ==> e == 0.0
    ensures m >= 2 && k == m - 1 ==> e == -3.0
  {
    if m == 1 then 0.0
    else
      ExponentBounds(k, m);
      -3.0 * k as real / (m - 1) as real
  }

  lemma ExponentBounds(k: nat, m: nat)
    requires k < m && m >= 2
    ensures -3.0 <= -3.0 * k as real / (m - 1) as real <= 0.0
  {
    var d := (m - 1) as real;
    var q := k as real / d;
    assert 0.0 <= q <= 1.0 by {
      assert k as real <= d;
      assert q * d == k as real;
    }
    assert -3.0 * k as real / d == -3.0 * q;
  }

  /** The fade multipliers `torch.logspace(0, -3, m)`. */
  function FadeGains(lib: Library, m: nat): (g: seq<real>)
    ensures |g| == m
    ensures m >= 1 ==> g[0] == lib.pow(10.0, 0.0)
    ensures m >= 2 ==> g[m - 1] == lib.pow(10.0, -3.0)
  {
    var g := seq(m, k requires 0 <= k < m => lib.pow(10.0, LogspaceExponent(k, m)));
    assert m >= 1 ==> g[0] == lib.pow(10.0, LogspaceExponent(0, m));
    assert m >= 2 ==> g[m - 1] == lib.pow(10.0, LogspaceExponent(m - 1, m));
    g
  }

  /** The fade starts at gain 10^0, reaches 10^-3 at its last sample, and its
      exponents fall strictly in between. */
  lemma LogspaceEnds(m: nat, k: nat, k': nat)
    requires 2 <= m
    requires k < k' < m
    ensures LogspaceExponent(0, m) == 0.0
    ensures LogspaceExponent(m - 1, m) == -3.0
    ensures LogspaceExponent(k', m) < LogspaceExponent(k, m)
  {
    var d := (m - 1) as real;
    assert -3.0 * k' as real < -3.0 * k as real;
    DivideStrict(-3.0 * k' as real, -3.0 * k as real, d);
  }

  lemma DivideStrict(x: real, y: real, d: real)
    requires x < y && d > 0.0
    ensures x / d < y / d
  {
  }

  /** A waveform after `audio[-m:] *= gains` with m = |gains|: the first n - m
      samples are untouched and the last m are scaled one gain each. */
  function Faded(s: seq<real>, gains: seq<real>): (r: seq<real>)
    requires |gains| <= |s|
    ensures |r| == |s|
    ensures r[..|s| - |gains|] == s[..|s| - |gains|]
    ensures forall k :: |s| - |gains| <= k < |s| ==> r[k] == s[k] * gains[k - (|s| - |gains|)]
  {
    var start := |s| - |gains|;
    seq(|s|, k requires 0 <= k < |s| => if k < start then s[k] else s[k] * gains[k - start])
  }

  /** `audio[-m:] *= gains`: scales the last |gains| samples in place.
      Precondition: the fade is not empty (for m = 0 the slice `audio[-0:]`
      would be the whole buffer). */
  method ScaleTail(audio: array<real>, gains: seq<real>)
    requires 0 < |gains| <= audio.Length
    modifies audio
    ensures audio[..] == Faded(old(audio[..]), gains)
  {
    var start := audio.Length - |gains|;
    for k := start to audio.Length
      invariant forall q :: 0 <= q < start ==> audio[q] == old(audio[q])
      invariant forall q :: start <= q < k ==> audio[q] == old(audio[q]) * gains[q - start]
      invariant forall q :: k <= q < audio.Length ==> audio[q] == old(audio[q])
    {
      audio[k] := audio[k] * gains[k - start];
    }
    forall q | 0 <= q < audio.Length
      ensures audio[..][q] == Faded(old(audio[..]), gains)[q]
    {
    }
  }

  /** `ShepardToneGenerator`: sample rate, seconds per step, number of cycles,
      the fade length (a tenth of a step) and the two 24 x 3 tables filled at
      construction. */
  class ShepardToneGenerator {
    const lib: Library
    const sr: nat
    const dur: real
    const iter: nat
    const fadeoutMargin: real
    const pitchCombinations: array2<real>
    const amplitudeCombinations: array2<real>

    /** The tables hold exactly the pitch and amplitude patterns. */
    ghost predicate Valid()
      reads pitchCombinations, amplitudeCombinations
    {
      && fadeoutMargin == dur * 0.1
      && pitchCombinations.Length0 == StepCount && pitchCombinations.Length1 == PartialCount
      && amplitudeCombinations.Length0 == StepCount && amplitudeCombinations.Length1 == PartialCount
      && (forall i, j :: 0 <= i < StepCount && 0 <= j < PartialCount ==>
            pitchCombinations[i, j] == PitchAt(i, j) as real)
      && (forall i, j :: 0 <= i < StepCount && 0 <= j < PartialCount ==>
            amplitudeCombinations[i, j] == AmplitudeAt(lib, i, j))
    }

    constructor (lib: Library, sr: nat, durPerStep: real, numIteration: nat)
      ensures Valid()
      ensures this.lib == lib && this.sr == sr && dur == durPerStep && iter == numIteration
      ensures fresh(pitchCombinations) && fresh(amplitudeCombinations)
    {
      this.lib := lib;
      this.sr := sr;
      dur := durPerStep;
      iter := numIteration;
      fadeoutMargin := durPerStep * 0.1;
      var pitches := DefinePitch();
      var amplitudes := DefineAmplitude(lib);
      pitchCombinations := pitches;
      amplitudeCombinations := amplitudes;
    }

    /** `define_pitch`: fills a zeroed 24 x 3 table cell by cell. */
    static method DefinePitch() returns (output: array2<real>)
      ensures fresh(output)
      ensures output.Length0 == StepCount && output.Length1 == PartialCount
      ensures forall i, j :: 0 <= i < StepCount && 0 <= j < PartialCount ==> output[i, j] == PitchAt(i, j) as real
    {
      output := new real[24, 3]((_, _) => 0.0);
      var basePitch := 24;
      for i := 0 to 24
        invariant forall i', j' :: 0 <= i' < i && 0 <= j' < 3 ==> output[i', j'] == PitchAt(i', j') as real
      {
        for j := 0 to 3
          invariant forall i', j' :: 0 <= i' < i && 0 <= j' < 3 ==> output[i', j'] == PitchAt(i', j') as real
          invariant forall j' :: 0 <= j' < j ==> output[i, j'] == PitchAt(i, j') as real
        {
          var pitch := (basePitch + i) + j * 24;
          output[i, j] := pitch as real;
        }
      }
    }

    /** `define_amplitude`: a first pass writes columns 1 and 2 of every row;
        a second pass writes column 0 of row i from column 2 of row 23 - i,
        which the first pass has already fixed and the second never writes. */
    static method DefineAmplitude(lib: Library) returns (output: array2<real>)
      ensures fresh(output)
      ensures output.Length0 == StepCount && output.Length1 == PartialCount
      ensures forall i, j :: 0 <= i < StepCount && 0 <= j < PartialCount ==> output[i, j] == AmplitudeAt(lib, i, j)
    {
      output := new real[24, 3]((_, _) => 0.0);
      for i := 0 to 24
        invariant forall i' :: 0 <= i' < i ==> output[i', 1] == 1.0 && output[i', 2] == UpperGain(lib, i')
      {
        for j := 0 to 3
          invariant forall i' :: 0 <= i' < i ==> output[i', 1] == 1.0 && output[i', 2] == UpperGain(lib, i')
          invariant 1 < j ==> output[i, 1] == 1.0
          invariant 2 < j ==> output[i, 2] == UpperGain(lib, i)
        {
          if j == 1 {
            output[i, j] := 1.0;
          } else if j == 2 {
            output[i, j] := lib.exp(-0.388 * i as real);
          }
        }
      }
      for i := 0 to 24
        invariant forall i' :: 0 <= i' < 24 ==> output[i', 1] == 1.0 && output[i', 2] == UpperGain(lib, i')
        invariant forall i' :: 0 <= i' < i ==> output[i', 0] == UpperGain(lib, 23 - i')
      {
        for j := 0 to 3
          invariant forall i' :: 0 <= i' < 24 ==> output[i', 1] == 1.0 && output[i', 2] == UpperGain(lib, i')
          invariant forall i' :: 0 <= i' < i ==> output[i', 0] == UpperGain(lib, 23 - i')
          invariant 0 < j ==> output[i, 0] == UpperGain(lib, 23 - i)
        {
          if j == 0 {
            output[i, j] := output[23 - i, 2];
          }
        }
      }
    }

    /** What `generate` needs of the caller: a positive rate, a step holding a
        whole number of samples (so the partials fit the mixing buffer), and a
        fade of at least one sample. */
    predicate Playable()
    {
      && sr > 0 && dur >= 0.0 && fadeoutMargin >= 0.0
      && WholeSamples(dur, sr)
      && FloorSamples(fadeoutMargin, sr) >= 1
    }

    /** Samples per step, `int(dur * sr)`. */
    function StepSamples(): (n: nat)
      requires dur >= 0.0
    {
      FloorSamples(dur, sr)
    }

    /** Samples in the fade, `int(fadeout_margin * sr)`. */
    function FadeSamples(): (n: nat)
      requires fadeoutMargin >= 0.0
    {
      FloorSamples(fadeoutMargin, sr)
    }

    /** The fade never reaches past the start of a step. */
    lemma FadeFitsStep()
      requires dur >= 0.0 && fadeoutMargin == dur * 0.1
      ensures FadeSamples() <= StepSamples()
    {
      var x := SampleProduct(dur, sr);
      assert SampleProduct(fadeoutMargin, sr) == 0.1 * x;
    }

    /** Row j of the pitch table as a list. */
    function PitchRow(j: nat): (row: seq<real>)
      requires j < StepCount
      ensures |row| == PartialCount
    {
      [PitchAt(j, 0) as real, PitchAt(j, 1) as real, PitchAt(j, 2) as real]
    }

    /** Row j of the amplitude table as a list. */
    function AmplitudeRow(j: nat): (row: seq<real>)
      requires j < StepCount
      ensures |row| == PartialCount
    {
      [AmplitudeAt(lib, j, 0), AmplitudeAt(lib, j, 1), AmplitudeAt(lib, j, 2)]
    }

    /** The waveform of step j: the three-partial chord of row j, faded out over its last samples. */
    function StepWave(j: nat): (w: seq<real>)
      requires j < StepCount
      requires dur >= 0.0 && fadeoutMargin == dur * 0.1 && sr > 0
      ensures |w| == StepSamples()
    {
      FadeFitsStep();
      Faded(Mix(lib, PitchRow(j), AmplitudeRow(j), StepSamples(), sr), FadeGains(lib, FadeSamples()))
    }

    /** The step waveforms `generate` joins: cycle after cycle, steps 0..23 in order. */
    function ShepardBlocks(): (blocks: seq<seq<real>>)
      requires dur >= 0.0 && fadeoutMargin == dur * 0.1 && sr > 0
      ensures |blocks| == iter * StepCount
    {
      seq(iter * StepCount, b requires 0 <= b < iter * StepCount => StepWave(b % StepCount))
    }

    /** One pass of `generate`'s inner loop: mixes step j's chord from the
        tables, then fades its tail in place. */
    method GenerateStep(j: nat) returns (audio: array<real>)
      requires Valid() && Playable()
      requires j < StepCount
      ensures fresh(audio)
      ensures audio[..] == StepWave(j)
    {
      FadeFitsStep();
      var currentPitches := [pitchCombinations[j, 0], pitchCombinations[j, 1], pitchCombinations[j, 2]];
      var currentAmplitudes := [amplitudeCombinations[j, 0], amplitudeCombinations[j, 1], amplitudeCombinations[j, 2]];
      assert currentPitches == PitchRow(j) && currentAmplitudes == AmplitudeRow(j);
      var tone := GenerateMultiPitchTone(lib, currentPitches, currentAmplitudes, dur, sr);
      var mixed := tone.value;
      audio := new real[|mixed|](k requires 0 <= k < |mixed| => mixed[k]);
      assert audio[..] == mixed;
      var m := FloorSamples(fadeoutMargin, sr);
      ScaleTail(audio, FadeGains(lib, m));
    }

    /** The loops of `generate`: for every cycle and every step, mixes the
        step's chord, fades its tail and appends it to the list of steps. */
    method CollectSteps() returns (outputs: seq<seq<real>>)
      requires Valid() && Playable()
      ensures outputs == ShepardBlocks()
    {
      ghost var blocks := ShepardBlocks();
      outputs := [];
      for i := 0 to iter
        invariant Valid()
        invariant outputs == blocks[..i * 24]
      {
        for j := 0 to pitchCombinations.Length0
          invariant Valid()
          invariant outputs == blocks[..i * 24 + j]
        {
          var audio := GenerateStep(j);
          NextStep(i, j);
          outputs := outputs + [audio[..]];
        }
      }
      assert blocks[..iter * 24] == blocks;
    }

    /** `generate`: the steps of every cycle joined by `torch.cat`. With no
        cycles the list of steps is empty and `torch.cat` fails on it. */
    method Generate() returns (r: Result<seq<real>>)
      requires Valid() && Playable()
      ensures r.Err? <==> iter == 0
      ensures r.Err? ==> r.error == EmptyConcat
      ensures r.Ok? ==> r.value == Concat(ShepardBlocks())
    {
      var outputs := CollectSteps();
      if |outputs| == 0 {
        return Err(EmptyConcat);
      }
      return Ok(Concat(outputs));
    }

    /** Step j of cycle i is block i * 24 + j of the output, and after step
        23 of cycle i come the blocks of cycle i + 1. */
    lemma NextStep(i: nat, j: nat)
      requires dur >= 0.0 && fadeoutMargin == dur * 0.1 && sr > 0
      requires i < iter && j < StepCount
      ensures i * 24 + j + 1 <= |ShepardBlocks()|
      ensures ShepardBlocks()[..i * 24 + j + 1] == ShepardBlocks()[..i * 24 + j] + [StepWave(j)]
      ensures i * 24 + 24 == (i + 1) * 24
    {
      MulMonotone(i + 1, iter, 24);
      var blocks := ShepardBlocks();
      var b := i * 24 + j;
      assert b % 24 == j;
      assert blocks[b] == StepWave(j);
      assert blocks[..b + 1] == blocks[..b] + [blocks[b]];
    }

    /** The output holds iter * 24 steps of `int(dur * sr)` samples each, and
        the b-th stretch is step b % 24 of cycle b / 24. */
    lemma ShepardLayout(b: nat)
      requires dur >= 0.0 && fadeoutMargin == dur * 0.1 && sr > 0
      requires b < iter * StepCount
      ensures var n := StepSamples();
        && |Concat(ShepardBlocks())| == iter * StepCount * n
        && b * n + n <= |Concat(ShepardBlocks())|
        && Concat(ShepardBlocks())[b * n .. b * n + n] == StepWave(b % StepCount)
    {
      var blocks, n := ShepardBlocks(), StepSamples();
      assert forall t :: 0 <= t < |blocks| ==> |blocks[t]| == n;
      ConcatBlock(blocks, n, b);
    }

    /** Within a step only the last `int(fadeout_margin * sr)` samples are
        faded, the k-th of them by 10^(logspace exponent k); every earlier
        sample is the plain chord. */
    lemma StepFade(j: nat, k: nat)
      requires j < StepCount
      requires dur >= 0.0 && fadeoutMargin == dur * 0.1 && sr > 0
      requires k < StepSamples()
      ensures FadeSamples() <= StepSamples()
      ensures var chord := Mix(lib, PitchRow(j), AmplitudeRow(j), StepSamples(), sr);
        var start := StepSamples() - FadeSamples();
        StepWave(j)[k] == if k < start then chord[k]
                          else chord[k] * lib.pow(10.0, LogspaceExponent(k - start, FadeSamples()))
    {
      FadeFitsStep();
    }
  }
}
