/** Tone synthesis: sine partials, their sample-wise mix into a chord, the
    major-scale pitch list, and a sequence of tones played one after another. */
module Tone {
  import opened Base

  /** `midi_pitch_to_hz`: MIDI pitch 69 is 440 Hz, twelve equal semitones per octave. */
  function MidiPitchToHz(lib: Library, pitch: real): (hz: real)
    ensures lib.pow(2.0, 0.0) == 1.0 && pitch == 69.0 ==> hz == 440.0
  {
    440.0 * lib.pow(2.0, (pitch - 69.0) / 12.0)
  }

  /** Given 2^(x + 1) = 2 * 2^x, twelve semitones up doubles the frequency. */
  lemma MidiOctave(lib: Library, pitch: real)
    requires forall x :: lib.pow(2.0, x + 1.0) == 2.0 * lib.pow(2.0, x)
    ensures MidiPitchToHz(lib, pitch + 12.0) == 2.0 * MidiPitchToHz(lib, pitch)
  {
    var e := (pitch - 69.0) / 12.0;
    assert (pitch + 12.0 - 69.0) / 12.0 == e + 1.0;
    assert lib.pow(2.0, e + 1.0) == 2.0 * lib.pow(2.0, e);
  }

  /** Sample k of `make_sine_wave(freq, amp, dur, sr)`: amp * sin(2 pi freq t) at t = k / sr. */
  function SineSample(lib: Library, freq: real, amp: real, sr: nat, k: nat): (x: real)
    requires sr > 0
  {
    amp * lib.sin(2.0 * Pi * freq * (k as real / sr as real))
  }

  /** `make_sine_wave(freq, amp, dur, sr)`: one sample per element of `torch.arange(dur * sr)`. */
  function SineWave(lib: Library, freq: real, amp: real, dur: real, sr: nat): (w: seq<real>)
    requires dur >= 0.0 && sr > 0
    ensures |w| == CeilSamples(dur, sr)
  {
    seq(CeilSamples(dur, sr), k requires 0 <= k => SineSample(lib, freq, amp, sr, k))
  }

  /** Element-wise sum of two equally long waveforms (`a += b` on tensors). */
  function AddWaves(a: seq<real>, b: seq<real>): (r: seq<real>)
    requires |a| == |b|
    ensures |r| == |a|
    ensures forall k :: 0 <= k < |a| ==> r[k] == a[k] + b[k]
  {
    seq(|a|, k requires 0 <= k < |a| => a[k] + b[k])
  }

  /** Sample k of the chord whose partials are (pitches[i], amps[i]):
      the sum over the partials of that partial's sample k. */
  function MixSample(lib: Library, pitches: seq<real>, amps: seq<real>, sr: nat, k: nat): (x: real)
    requires |pitches| == |amps| && sr > 0
    ensures x == Sum(PartialSamples(lib, pitches, amps, sr, k))
    decreases |pitches|
  {
    if |pitches| == 0 then 0.0
    else
      var last := |pitches| - 1;
      assert PartialSamples(lib, pitches[..last], amps[..last], sr, k)
          == PartialSamples(lib, pitches, amps, sr, k)[..last];
      MixSample(lib, pitches[..last], amps[..last], sr, k)
        + SineSample(lib, MidiPitchToHz(lib, pitches[last]), amps[last], sr, k)
  }

  /** Sample k of every partial, one per pitch, in list order. */
  function PartialSamples(lib: Library, pitches: seq<real>, amps: seq<real>, sr: nat, k: nat): (xs: seq<real>)
    requires |pitches| == |amps| && sr > 0
    ensures |xs| == |pitches|
  {
    seq(|pitches|, i requires 0 <= i < |pitches| => SineSample(lib, MidiPitchToHz(lib, pitches[i]), amps[i], sr, k))
  }

  /** The n-sample chord of the given partials. */
  function Mix(lib: Library, pitches: seq<real>, amps: seq<real>, n: nat, sr: nat): (w: seq<real>)
    requires |pitches| == |amps| && sr > 0
    ensures |w| == n
    ensures forall k :: 0 <= k < n ==> w[k] == Sum(PartialSamples(lib, pitches, amps, sr, k))
  {
    seq(n, k requires 0 <= k => MixSample(lib, pitches, amps, sr, k))
  }

  /** `generate_multi_pitch_tone`: fails unless both lists have the same
      length; otherwise converts every pitch to Hz, starts from
      `int(duration * sr)` zeros and adds one sine partial per pitch. A sine
      buffer has `len(torch.arange(duration * sr))` samples; when that is one
      more than the zero buffer, the in-place addition fails on the shape
      clash, unless the zero buffer is empty, onto which a one-sample wave
      broadcasts and leaves it empty. */
  method GenerateMultiPitchTone(lib: Library, pitchList: seq<real>, ampList: seq<real>, duration: real, sr: nat)
    returns (r: Result<seq<real>>)
    requires duration >= 0.0 && sr > 0
    ensures r.Ok? <==> |pitchList| == |ampList| && (|pitchList| == 0 || ChordFits(duration, sr))
    ensures r.Err? ==> r.error == if |pitchList| != |ampList| then LengthMismatch else ShapeMismatch
    ensures r.Ok? ==> |r.value| == FloorSamples(duration, sr)
    ensures r.Ok? ==> r.value == Mix(lib, pitchList, ampList, FloorSamples(duration, sr), sr)
  {
    if |pitchList| != |ampList| {
      return Err(LengthMismatch);
    }
    var freqList := [];
    var i := 0;
    while i < |pitchList|
      invariant 0 <= i <= |pitchList|
      invariant |freqList| == i
      invariant forall q :: 0 <= q < i ==> freqList[q] == MidiPitchToHz(lib, pitchList[q])
    {
      freqList := freqList + [MidiPitchToHz(lib, pitchList[i])];
      i := i + 1;
    }
    SampleCounts(duration, sr);
    var n := FloorSamples(duration, sr);
    var chordTone := Zeros(n);
    i := 0;
    while i < |freqList|
      invariant 0 <= i <= |freqList|
      invariant i > 0 ==> ChordFits(duration, sr)
      invariant chordTone == Mix(lib, pitchList[..i], ampList[..i], n, sr)
    {
      var sineWave := SineWave(lib, freqList[i], ampList[i], duration, sr);
      MixStep(lib, pitchList, ampList, i, duration, sr);
      if |sineWave| == |chordTone| {
        chordTone := AddWaves(chordTone, sineWave);
      } else if |chordTone| != 0 || |sineWave| != 1 {
        return Err(ShapeMismatch);
      }
      i := i + 1;
    }
    assert pitchList[..i] == pitchList && ampList[..i] == ampList;
    return Ok(chordTone);
  }

  /** One turn of the mixing loop: adding partial i's sine wave onto the chord
      of the partials before it gives the chord of partials 0..i; on an empty
      buffer both chords are empty. */
  lemma MixStep(lib: Library, ps: seq<real>, gs: seq<real>, i: nat, duration: real, sr: nat)
    requires |ps| == |gs| && i < |ps| && duration >= 0.0 && sr > 0
    ensures var n := FloorSamples(duration, sr);
      var before, after := Mix(lib, ps[..i], gs[..i], n, sr), Mix(lib, ps[..i + 1], gs[..i + 1], n, sr);
      var wave := SineWave(lib, MidiPitchToHz(lib, ps[i]), gs[i], duration, sr);
      && (|wave| == n ==> after == AddWaves(before, wave))
      && (n == 0 ==> after == before)
  {
    var n := FloorSamples(duration, sr);
    var before, after := Mix(lib, ps[..i], gs[..i], n, sr), Mix(lib, ps[..i + 1], gs[..i + 1], n, sr);
    var wave := SineWave(lib, MidiPitchToHz(lib, ps[i]), gs[i], duration, sr);
    assert ps[..i + 1][..i] == ps[..i] && gs[..i + 1][..i] == gs[..i];
    if |wave| == n {
      forall k | 0 <= k < n
        ensures after[k] == before[k] + wave[k]
      {
        assert after[k] == MixSample(lib, ps[..i + 1], gs[..i + 1], sr, k);
      }
    }
  }

  /** A sine buffer can be added in place onto the zero buffer: the two
      sample counts agree, or the zero buffer is empty (the one-sample wave
      then broadcasts onto it). */
  predicate ChordFits(duration: real, sr: nat)
    requires duration >= 0.0
  {
    WholeSamples(duration, sr) || FloorSamples(duration, sr) == 0
  }

  /** A chord of one partial is exactly that partial's sine wave. */
  lemma MixSinglePartial(lib: Library, pitch: real, amp: real, duration: real, sr: nat)
    requires duration >= 0.0 && sr > 0
    requires WholeSamples(duration, sr)
    ensures Mix(lib, [pitch], [amp], FloorSamples(duration, sr), sr)
         == SineWave(lib, MidiPitchToHz(lib, pitch), amp, duration, sr)
  {
    SampleCounts(duration, sr);
    var n := FloorSamples(duration, sr);
    forall k | 0 <= k < n
      ensures MixSample(lib, [pitch], [amp], sr, k) == SineSample(lib, MidiPitchToHz(lib, pitch), amp, sr, k)
    {
      assert [pitch][..0] == [] && [amp][..0] == [];
    }
  }

  /** Mixing two groups of partials together is the sum of mixing each group. */
  lemma MixAppend(lib: Library, ps: seq<real>, gs: seq<real>, qs: seq<real>, hs: seq<real>, sr: nat, k: nat)
    requires |ps| == |gs| && |qs| == |hs| && sr > 0
    ensures MixSample(lib, ps + qs, gs + hs, sr, k)
         == MixSample(lib, ps, gs, sr, k) + MixSample(lib, qs, hs, sr, k)
  {
    var xs, ys := PartialSamples(lib, ps, gs, sr, k), PartialSamples(lib, qs, hs, sr, k);
    assert PartialSamples(lib, ps + qs, gs + hs, sr, k) == xs + ys;
    SumAppend(xs, ys);
  }

  /** The chord does not depend on the order in which groups of partials are listed. */
  lemma MixReorder(lib: Library, ps: seq<real>, gs: seq<real>, qs: seq<real>, hs: seq<real>, sr: nat, k: nat)
    requires |ps| == |gs| && |qs| == |hs| && sr > 0
    ensures MixSample(lib, ps + qs, gs + hs, sr, k) == MixSample(lib, qs + ps, hs + gs, sr, k)
  {
    MixAppend(lib, ps, gs, qs, hs, sr, k);
    MixAppend(lib, qs, hs, ps, gs, sr, k);
  }

  /** With a sine bounded by 1 and non-negative gains, no chord sample exceeds
      the sum of the gains in magnitude (three unit partials stay within 3.0). */
  lemma {:induction false} MixBound(lib: Library, pitches: seq<real>, amps: seq<real>, sr: nat, k: nat)
    requires |pitches| == |amps| && sr > 0
    requires forall x :: -1.0 <= lib.sin(x) <= 1.0
    requires forall i :: 0 <= i < |amps| ==> amps[i] >= 0.0
    ensures -Sum(amps) <= MixSample(lib, pitches, amps, sr, k) <= Sum(amps)
    decreases |pitches|
  {
    if |pitches| > 0 {
      var last := |pitches| - 1;
      var ps, gs := pitches[..last], amps[..last];
      MixBound(lib, ps, gs, sr, k);
      var a := amps[last];
      var partial := SineSample(lib, MidiPitchToHz(lib, pitches[last]), a, sr, k);
      SineSampleBound(lib, MidiPitchToHz(lib, pitches[last]), a, sr, k);
      assert Sum(amps) == Sum(gs) + a;
      assert MixSample(lib, pitches, amps, sr, k) == MixSample(lib, ps, gs, sr, k) + partial;
    }
  }

  /** One partial's sample lies within plus or minus its gain. */
  lemma SineSampleBound(lib: Library, freq: real, amp: real, sr: nat, k: nat)
    requires sr > 0
    requires forall x :: -1.0 <= lib.sin(x) <= 1.0
    requires amp >= 0.0
    ensures -amp <= SineSample(lib, freq, amp, sr, k) <= amp
  {
    var s := lib.sin(2.0 * Pi * freq * (k as real / sr as real));
    assert -1.0 <= s <= 1.0;
    ProductNonNegative(amp, 1.0 - s);
    ProductNonNegative(amp, 1.0 + s);
  }

  /** The MIDI pitches of the major scale on `midiPitch`, tonic to octave
      (`major_midi_list`). */
  function MajorScaleMidi(midiPitch: real): (pitches: seq<real>)
  {
    [midiPitch, midiPitch + 2.0, midiPitch + 4.0, midiPitch + 5.0,
     midiPitch + 7.0, midiPitch + 9.0, midiPitch + 11.0, midiPitch + 12.0]
  }

  /** Whole, whole, half, whole, whole, whole, half: the half steps fall
      between degrees 3-4 and 7-8. */
  const MajorScaleSteps: seq<real> := [2.0, 2.0, 1.0, 2.0, 2.0, 2.0, 1.0]

  /** The scale climbs by the major pattern and spans exactly one octave. */
  lemma MajorScaleIntervals(midiPitch: real)
    ensures |MajorScaleMidi(midiPitch)| == |MajorScaleSteps| + 1
    ensures MajorScaleMidi(midiPitch)[0] == midiPitch
    ensures forall d :: 0 <= d < |MajorScaleSteps| ==>
      MajorScaleMidi(midiPitch)[d + 1] - MajorScaleMidi(midiPitch)[d] == MajorScaleSteps[d]
    ensures MajorScaleMidi(midiPitch)[7] - MajorScaleMidi(midiPitch)[0] == 12.0
  {
  }

  /** `make_major_scale_hz_sequence`: the eight scale pitches converted to Hz, in order. */
  method MakeMajorScaleHzSequence(lib: Library, midiPitch: real) returns (majorFreqList: seq<real>)
    ensures |majorFreqList| == 8
    ensures forall d :: 0 <= d < 8 ==> majorFreqList[d] == MidiPitchToHz(lib, MajorScaleMidi(midiPitch)[d])
  {
    var majorMidiList := MajorScaleMidi(midiPitch);
    majorFreqList := [];
    var i := 0;
    while i < |majorMidiList|
      invariant 0 <= i <= |majorMidiList|
      invariant |majorFreqList| == i
      invariant forall d :: 0 <= d < i ==> majorFreqList[d] == MidiPitchToHz(lib, majorMidiList[d])
    {
      majorFreqList := majorFreqList + [MidiPitchToHz(lib, majorMidiList[i])];
      i := i + 1;
    }
  }

  /** One unit-amplitude sine block per frequency, in list order. */
  function SineBlocks(lib: Library, alistOfHz: seq<real>, duration: real, sr: nat): (blocks: seq<seq<real>>)
    requires duration >= 0.0 && sr > 0
    ensures |blocks| == |alistOfHz|
    ensures forall t :: 0 <= t < |blocks| ==> |blocks[t]| == CeilSamples(duration, sr)
  {
    seq(|alistOfHz|, j requires 0 <= j < |alistOfHz| => SineWave(lib, alistOfHz[j], 1.0, duration, sr))
  }

  /** The blocks `generate_sequence_of_pitch` joins: a leading block of
      `int(duration * sr)` zeros, then the sine blocks. */
  function PitchSequenceBlocks(lib: Library, alistOfHz: seq<real>, duration: real, sr: nat): (blocks: seq<seq<real>>)
    requires duration >= 0.0 && sr > 0
    ensures |blocks| == |alistOfHz| + 1
  {
    [Zeros(FloorSamples(duration, sr))] + SineBlocks(lib, alistOfHz, duration, sr)
  }

  /** `generate_sequence_of_pitch`: starts from the zero block and appends one
      sine block per frequency. */
  method GenerateSequenceOfPitch(lib: Library, alistOfHz: seq<real>, duration: real, sr: nat)
    returns (scaleSine: seq<real>)
    requires duration >= 0.0 && sr > 0
    ensures scaleSine == Concat(PitchSequenceBlocks(lib, alistOfHz, duration, sr))
  {
    ghost var blocks := PitchSequenceBlocks(lib, alistOfHz, duration, sr);
    scaleSine := Zeros(FloorSamples(duration, sr));
    assert blocks[..1][..0] == [];
    var i := 0;
    while i < |alistOfHz|
      invariant 0 <= i <= |alistOfHz|
      invariant scaleSine == Concat(blocks[..i + 1])
    {
      var sineWave := SineWave(lib, alistOfHz[i], 1.0, duration, sr);
      assert blocks[..i + 2][..i + 1] == blocks[..i + 1];
      scaleSine := scaleSine + sineWave;
      i := i + 1;
    }
    assert blocks[..i + 1] == blocks;
  }

  /** Length of `generate_sequence_of_pitch`'s output: the zero block plus one
      sine block per frequency; on a whole number of samples that is
      (len(alist_of_hz) + 1) * int(duration * sr). */
  lemma PitchSequenceLength(lib: Library, alistOfHz: seq<real>, duration: real, sr: nat)
    requires duration >= 0.0 && sr > 0
    ensures |Concat(PitchSequenceBlocks(lib, alistOfHz, duration, sr))|
         == FloorSamples(duration, sr) + |alistOfHz| * CeilSamples(duration, sr)
    ensures WholeSamples(duration, sr) ==>
      |Concat(PitchSequenceBlocks(lib, alistOfHz, duration, sr))| == (|alistOfHz| + 1) * FloorSamples(duration, sr)
  {
    var f, c := FloorSamples(duration, sr), CeilSamples(duration, sr);
    var sines := SineBlocks(lib, alistOfHz, duration, sr);
    ConcatCons(Zeros(f), sines);
    ConcatLength(sines, c);
    SampleCounts(duration, sr);
    DistributeOne(|alistOfHz|, f);
  }

  /** Layout of `generate_sequence_of_pitch`'s output: first `int(duration * sr)`
      zeros, then frequency j's sine wave in its own stretch, in list order. */
  lemma PitchSequenceBlock(lib: Library, alistOfHz: seq<real>, duration: real, sr: nat, j: nat)
    requires duration >= 0.0 && sr > 0
    requires j < |alistOfHz|
    ensures var s := Concat(PitchSequenceBlocks(lib, alistOfHz, duration, sr));
      var f, c := FloorSamples(duration, sr), CeilSamples(duration, sr);
      && f <= |s| && s[..f] == Zeros(f)
      && f + j * c + c <= |s|
      && s[f + j * c .. f + j * c + c] == SineWave(lib, alistOfHz[j], 1.0, duration, sr)
  {
    var f, c := FloorSamples(duration, sr), CeilSamples(duration, sr);
    var sines := SineBlocks(lib, alistOfHz, duration, sr);
    ConcatCons(Zeros(f), sines);
    ConsBlock(Zeros(f), sines, c, j);
  }


}
