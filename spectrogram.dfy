/** The spectrogram pipeline: mono reduction, framing of the signal into
    windows, the power spectrum of each window, the mel projection and the
    decibel scale, with the bin-to-unit conversions used for plotting axes. */
module Spectrogram {
  import opened Base

  /** An audio tensor as `get_spectrogram` receives it: one-dimensional
      samples, a two-dimensional array (its rows and the common row length),
      or a tensor of any other rank. */
  datatype Tensor =
    | Vector(samples: seq<real>)
    | Matrix(rows: seq<seq<real>>, width: nat)
    | OtherRank(ndim: nat)

  /** A matrix is rectangular with both dimensions positive (the mean over an
      empty dimension is NaN, which the model leaves out); an `OtherRank`
      tensor really has a rank other than 1 and 2. */
  predicate WellShaped(t: Tensor)
  {
    match t
    case Vector(_) => true
    case Matrix(rows, width) => |rows| >= 1 && width >= 1 && forall i :: 0 <= i < |rows| ==> |rows[i]| == width
    case OtherRank(ndim) => ndim != 1 && ndim != 2
  }

  function Mean(s: seq<real>): (m: real)
    requires |s| > 0
  {
    Sum(s) / |s| as real
  }

  /** Column k of a rectangular matrix, top to bottom. */
  function Column(rows: seq<seq<real>>, width: nat, k: nat): (col: seq<real>)
    requires forall i :: 0 <= i < |rows| ==> |rows[i]| == width
    requires k < width
    ensures |col| == |rows|
  {
    seq(|rows|, i requires 0 <= i < |rows| => rows[i][k])
  }

  /** `audio.mean(dim=0)`: for every column, the mean down the rows; entry k
      times the number of rows is the sum of column k. */
  function MeanOverRows(rows: seq<seq<real>>, width: nat): (v: seq<real>)
    requires |rows| >= 1 && forall i :: 0 <= i < |rows| ==> |rows[i]| == width
    ensures |v| == width
    ensures forall k :: 0 <= k < width ==> v[k] * |rows| as real == Sum(Column(rows, width, k))
  {
    seq(width, k requires 0 <= k < width => MeanTimesCount(Column(rows, width, k)); Mean(Column(rows, width, k)))
  }

  /** `audio.mean(dim=1)`: for every row, the mean along it; entry i times
      the row length is the sum of row i. */
  function MeanOverColumns(rows: seq<seq<real>>, width: nat): (v: seq<real>)
    requires width >= 1 && forall i :: 0 <= i < |rows| ==> |rows[i]| == width
    ensures |v| == |rows|
    ensures forall i :: 0 <= i < |rows| ==> v[i] * width as real == Sum(rows[i])
  {
    seq(|rows|, i requires 0 <= i < |rows| => MeanTimesCount(rows[i]); Mean(rows[i]))
  }

  lemma MeanTimesCount(s: seq<real>)
    requires |s| > 0
    ensures Mean(s) * |s| as real == Sum(s)
  {
  }

  /** A mean lies between the smallest and the largest bound of its terms. */
  lemma MeanBetween(s: seq<real>, lo: real, hi: real)
    requires |s| > 0
    requires forall k :: 0 <= k < |s| ==> lo <= s[k] <= hi
    ensures lo <= Mean(s) <= hi
  {
    SumBetween(s, lo, hi);
    var n := |s| as real;
    assert Sum(s) / n >= (lo * n) / n;
    assert Sum(s) / n <= (hi * n) / n;
  }

  lemma {:induction false} SumBetween(s: seq<real>, lo: real, hi: real)
    requires forall k :: 0 <= k < |s| ==> lo <= s[k] <= hi
    ensures lo * |s| as real <= Sum(s) <= hi * |s| as real
  {
    if |s| > 0 {
      SumBetween(s[..|s| - 1], lo, hi);
    }
  }

  /** Averaging channels never leaves the range of the input: when every
      entry lies in [lo, hi], so does every sample of the mono signal. */
  lemma MonoBounds(t: Tensor, lo: real, hi: real)
    requires WellShaped(t) && !t.OtherRank?
    requires t.Vector? ==> forall k :: 0 <= k < |t.samples| ==> lo <= t.samples[k] <= hi
    requires t.Matrix? ==> forall i, k :: 0 <= i < |t.rows| && 0 <= k < t.width ==> lo <= t.rows[i][k] <= hi
    ensures forall k :: 0 <= k < |ToMono(t).value| ==> lo <= ToMono(t).value[k] <= hi
  {
    if t.Matrix? {
      var rows, width := t.rows, t.width;
      if width > |rows| {
        forall k | 0 <= k < width
          ensures lo <= MeanOverRows(rows, width)[k] <= hi
        {
          MeanBetween(Column(rows, width, k), lo, hi);
        }
      } else {
        forall i | 0 <= i < |rows|
          ensures lo <= MeanOverColumns(rows, width)[i] <= hi
        {
          MeanBetween(rows[i], lo, hi);
        }
      }
    }
  }

  /** The start of `get_spectrogram`: a two-dimensional input is averaged
      over dim 0 when it is wider than tall and over dim 1 otherwise (each
      sample times the number of averaged entries is their sum); any rank
      but 1 or 2 fails the assertion. The longer axis survives as time, and a
      square input keeps its rows. */
  function ToMono(t: Tensor): (r: Result<seq<real>>)
    requires WellShaped(t)
    ensures r.Err? <==> t.OtherRank?
    ensures r.Err? ==> r.error == InvalidDimension
    ensures t.Vector? ==> r == Ok(t.samples)
    ensures t.Matrix? && t.width > |t.rows| ==> |r.value| == t.width
    ensures t.Matrix? && t.width <= |t.rows| ==> |r.value| == |t.rows|
    ensures t.Matrix? && t.width > |t.rows| ==>
      forall k :: 0 <= k < t.width ==> r.value[k] * |t.rows| as real == Sum(Column(t.rows, t.width, k))
    ensures t.Matrix? && t.width <= |t.rows| ==>
      forall i :: 0 <= i < |t.rows| ==> r.value[i] * t.width as real == Sum(t.rows[i])
  {
    match t
    case Vector(s) => Ok(s)
    case Matrix(rows, width) =>
      if width > |rows| then Ok(MeanOverRows(rows, width)) else Ok(MeanOverColumns(rows, width))
    case OtherRank(_) => Err(InvalidDimension)
  }

  /** When every channel carries the same signal x, on whichever axis is the
      shorter one, the mono reduction gives back x. */
  lemma MonoOfIdenticalChannels(t: Tensor, x: seq<real>)
    requires WellShaped(t) && t.Matrix?
    requires t.width > |t.rows| ==> forall i :: 0 <= i < |t.rows| ==> t.rows[i] == x
    requires t.width <= |t.rows| ==> |x| == |t.rows| && forall i, k :: 0 <= i < |t.rows| && 0 <= k < t.width ==> t.rows[i][k] == x[i]
    ensures ToMono(t) == Ok(x)
  {
    var rows, width := t.rows, t.width;
    if width > |rows| {
      assert |x| == width by { assert rows[0] == x; }
      forall k | 0 <= k < width
        ensures MeanOverRows(rows, width)[k] == x[k]
      {
        MeanConstant(Column(rows, width, k), x[k]);
      }
      assert MeanOverRows(rows, width) == x;
    } else {
      forall i | 0 <= i < |rows|
        ensures MeanOverColumns(rows, width)[i] == x[i]
      {
        MeanConstant(rows[i], x[i]);
      }
      assert MeanOverColumns(rows, width) == x;
    }
  }

  /** The mean of n copies of v is v. */
  lemma MeanConstant(s: seq<real>, v: real)
    requires |s| > 0
    requires forall k :: 0 <= k < |s| ==> s[k] == v
    ensures Mean(s) == v
  {
    SumConstant(s, v);
    var n := |s| as real;
    assert Sum(s) == n * v;
    assert (n * v) / n == v;
  }

  /** Python's `range(start, stop, step)` for a positive step: empty exactly
      when start >= stop, and every value lies in [start, stop). */
  function Range(start: int, stop: int, step: nat): (r: seq<int>)
    requires step > 0
    ensures |r| == 0 <==> start >= stop
    ensures forall t :: 0 <= t < |r| ==> start <= r[t] < stop
    decreases stop - start
  {
    if start >= stop then [] else [start] + Range(start + step, stop, step)
  }

  /** The values of `range(start, stop, step)`: start, start + step, ... all
      below stop, and one more step would reach stop. */
  lemma {:induction false} RangeValues(start: int, stop: int, step: nat)
    requires step > 0
    ensures forall t :: 0 <= t < |Range(start, stop, step)| ==> Range(start, stop, step)[t] == start + t * step
    ensures forall t :: 0 <= t < |Range(start, stop, step)| ==> Range(start, stop, step)[t] < stop
    ensures start + |Range(start, stop, step)| * step >= stop
    decreases stop - start
  {
    if start < stop {
      var r, rest := Range(start, stop, step), Range(start + step, stop, step);
      RangeValues(start + step, stop, step);
      RangeUnfold(start, stop, step);
      forall t | 0 <= t < |r|
        ensures r[t] == start + t * step && r[t] < stop
      {
        if t > 0 {
          assert r[t] == rest[t - 1];
          StepShift(start, step, t);
        }
      }
      StepShift(start, step, |r|);
    }
  }

  lemma StepShift(start: int, step: nat, t: nat)
    requires t >= 1
    ensures start + step + (t - 1) * step == start + t * step
  {
  }

  lemma RangeUnfold(start: int, stop: int, step: nat)
    requires step > 0 && start < stop
    ensures Range(start, stop, step) == [start] + Range(start + step, stop, step)
  {
  }

  /** x / h is the unique q with q * h <= x < (q + 1) * h. */
  lemma DivUnique(x: nat, h: nat, q: nat)
    requires h > 0 && q * h <= x < (q + 1) * h
    ensures x / h == q
  {
    var d := x / h;
    if d > q {
      MulMonotone(q + 1, d, h);
    } else if d < q {
      MulMonotone(d + 1, q, h);
    }
  }

  /** Frame starts of `get_spectrogram`: `range(0, N - n_fft + 1, hop)`. */
  function FrameStarts(n: nat, nFft: nat, hop: nat): (starts: seq<int>)
    requires hop > 0
  {
    Range(0, n - nFft + 1, hop)
  }

  /** The framing keeps exactly the whole windows: start t is t * hop, each
      window [start, start + n_fft) lies inside the signal, the next start
      would run past its end (a trailing partial frame is dropped), and there
      are (N - n_fft) / hop + 1 frames when N >= n_fft and none otherwise. */
  lemma FrameStartsShape(n: nat, nFft: nat, hop: nat)
    requires hop > 0
    ensures var starts := FrameStarts(n, nFft, hop);
      && (forall t :: 0 <= t < |starts| ==> starts[t] == t * hop && 0 <= starts[t] && starts[t] + nFft <= n)
      && |starts| * hop + nFft > n
      && |starts| == if n < nFft then 0 else (n - nFft) / hop + 1
  {
    var starts := FrameStarts(n, nFft, hop);
    RangeValues(0, n - nFft + 1, hop);
    if n >= nFft && |starts| > 0 {
      var c := |starts|;
      assert starts[c - 1] == (c - 1) * hop;
      DivUnique(n - nFft, hop, c - 1);
    }
  }

  /** One column of `get_spectrogram` before truncation: the frame times the
      window, its DFT magnitudes, each raised to `power`. The frame enters
      only through its product with the window (see `WindowedOnly`). */
  function FrameSpectrum(lib: Library, frame: seq<real>, window: seq<real>, power: real): (col: seq<real>)
    requires |frame| == |window|
    ensures |col| == |frame|
  {
    var windowed := seq(|frame|, k requires 0 <= k < |frame| => frame[k] * window[k]);
    seq(|frame|, b requires 0 <= b < |frame| => lib.pow(lib.fftAbs(windowed, b), power))
  }

  /** Samples the window weights by zero do not reach the spectrum: two
      frames that agree wherever the window is non-zero give the same column. */
  lemma WindowedOnly(lib: Library, frame: seq<real>, frame': seq<real>, window: seq<real>, power: real)
    requires |frame| == |window| && |frame'| == |window|
    requires forall k :: 0 <= k < |window| && window[k] != 0.0 ==> frame[k] == frame'[k]
    ensures FrameSpectrum(lib, frame, window, power) == FrameSpectrum(lib, frame', window, power)
  {
    var windowed := seq(|frame|, k requires 0 <= k < |frame| => frame[k] * window[k]);
    var windowed' := seq(|frame'|, k requires 0 <= k < |frame'| => frame'[k] * window[k]);
    forall k | 0 <= k < |window|
      ensures windowed[k] == windowed'[k]
    {
      if window[k] != 0.0 {
        assert frame[k] == frame'[k];
      }
    }
    assert windowed == windowed';
  }

  /** `torch.stack(columns, 1)[:rows]`: a `rows` x |columns| matrix whose
      column t holds the first `rows` bins of columns[t]. */
  function StackRows(columns: seq<seq<real>>, rows: nat): (m: seq<seq<real>>)
    requires forall t :: 0 <= t < |columns| ==> |columns[t]| >= rows
    ensures IsMatrix(m, rows, |columns|)
    ensures forall b, t :: 0 <= b < rows && 0 <= t < |columns| ==> m[b][t] == columns[t][b]
  {
    seq(rows, b requires 0 <= b < rows =>
      seq(|columns|, t requires 0 <= t < |columns| => columns[t][b]))
  }

  /** Every row of the matrix has `cols` entries, and there are `rows` rows. */
  predicate IsMatrix(m: seq<seq<real>>, rows: nat, cols: nat)
  {
    |m| == rows && forall i :: 0 <= i < |m| ==> |m[i]| == cols
  }

  /** Number of columns of a matrix (0 when it has no rows). */
  function Width(m: seq<seq<real>>): (w: nat)
  {
    if |m| == 0 then 0 else |m[0]|
  }

  /** Entry [mel][t] of `mm(fb.T, spec)`: the sum over bins b of fb[b][mel] * spec[b][t]. */
  function MelEntry(fb: seq<seq<real>>, spec: seq<seq<real>>, mel: nat, t: nat): (entry: real)
    requires |fb| == |spec|
    requires forall b :: 0 <= b < |fb| ==> mel < |fb[b]| && t < |spec[b]|
  {
    Sum(seq(|fb|, b requires 0 <= b < |fb| => fb[b][mel] * spec[b][t]))
  }

  /** `torch.clamp(x, min=lo)`: never below lo, x itself from lo upwards,
      lo itself from lo downwards. */
  function Clamp(x: real, lo: real): (c: real)
    ensures c >= lo
    ensures x >= lo ==> c == x
    ensures x <= lo ==> c == lo
  {
    if x < lo then lo else x
  }

  /** One entry of `amplitude_to_db`: 10 * log10(clamp(x, min=eps)); at or
      below eps the entry reads 10 * log10(eps), at or above it 10 * log10(x). */
  function ToDb(lib: Library, x: real, eps: real): (db: real)
    ensures x <= eps ==> db == 10.0 * lib.log10(eps)
    ensures x >= eps ==> db == 10.0 * lib.log10(x)
  {
    10.0 * lib.log10(Clamp(x, eps))
  }

  /** Default clamp floor of `amplitude_to_db`, 1e-10. */
  const DefaultEps: real := 0.0000000001

  /** With a non-decreasing logarithm the dB scale is non-decreasing too. */
  lemma DbMonotone(lib: Library, x: real, y: real, eps: real)
    requires forall u: real, v: real :: u <= v ==> lib.log10(u) <= lib.log10(v)
    requires x <= y
    ensures ToDb(lib, x, eps) <= ToDb(lib, y, eps)
  {
    assert Clamp(x, eps) <= Clamp(y, eps);
  }

  /** A silent entry reads -100 dB at the default floor, since log10(1e-10) is -10. */
  lemma SilenceIsMinus100Db(lib: Library, x: real)
    requires lib.log10(DefaultEps) == -10.0
    requires x <= DefaultEps
    ensures ToDb(lib, x, DefaultEps) == -100.0
  {
  }

  /** `SpectrogramConverter`: frame size, hop, sample rate, mel band count,
      the window and exponent, and the mel filterbank (a matrix of
      n_fft // 2 + 1 rows by num_mels columns, computed once at construction
      by torchaudio and taken here as given). */
  class SpectrogramConverter {
    const lib: Library
    const nFft: nat
    const hopSize: nat
    const sr: nat
    const numMels: nat
    const windowTensor: seq<real>
    const power: real
    const melFb: seq<seq<real>>

    ghost predicate Valid()
    {
      && nFft >= 1 && hopSize >= 1 && sr >= 1
      && |windowTensor| == nFft
      && IsMatrix(melFb, nFft / 2 + 1, numMels)
    }

    constructor (lib: Library, nFft: nat, hopSize: nat, sampleRate: nat, numMels: nat, power: real,
                 melFb: seq<seq<real>>)
      requires nFft >= 1 && hopSize >= 1 && sampleRate >= 1
      requires IsMatrix(melFb, nFft / 2 + 1, numMels)
      ensures Valid()
      ensures this.lib == lib && this.nFft == nFft && this.hopSize == hopSize && sr == sampleRate
      ensures this.numMels == numMels && this.power == power && this.melFb == melFb
      ensures windowTensor == seq(nFft, k requires 0 <= k < nFft => lib.hann(nFft, k))
    {
      this.lib := lib;
      this.nFft := nFft;
      this.hopSize := hopSize;
      sr := sampleRate;
      this.numMels := numMels;
      windowTensor := seq(nFft, k requires 0 <= k < nFft => lib.hann(nFft, k));
      this.power := power;
      this.melFb := melFb;
    }

    /** Number of rows kept by `get_spectrogram`: the bins 0 .. n_fft // 2. */
    function BinCount(): (n: nat)
    {
      nFft / 2 + 1
    }

    /** Every start leaves room for a whole window inside a signal of n samples. */
    predicate WindowsFit(starts: seq<int>, n: nat)
    {
      forall t :: 0 <= t < |starts| ==> 0 <= starts[t] && starts[t] + nFft <= n
    }

    /** The spectrum of the window of `x` that starts at `start`. */
    function WindowSpectrum(x: seq<real>, start: nat): (col: seq<real>)
      requires Valid() && start + nFft <= |x|
      ensures |col| == nFft
    {
      FrameSpectrum(lib, x[start..start + nFft], windowTensor, power)
    }

    /** The spectra of the windows at the given starts, in order. */
    function Columns(x: seq<real>, starts: seq<int>): (cols: seq<seq<real>>)
      requires Valid() && WindowsFit(starts, |x|)
      ensures |cols| == |starts|
      ensures forall t :: 0 <= t < |cols| ==> cols[t] == WindowSpectrum(x, starts[t])
    {
      if |starts| == 0 then []
      else Columns(x, starts[..|starts| - 1]) + [WindowSpectrum(x, starts[|starts| - 1])]
    }

    /** One turn of the framing loop keeps its invariant. */
    lemma FrameStep(x: seq<real>, done: seq<int>, start: int, stop: int)
      requires Valid() && WindowsFit(done, |x|)
      requires 0 <= start < stop && stop == |x| - nFft + 1
      requires Range(0, stop, hopSize) == done + Range(start, stop, hopSize)
      ensures WindowsFit(done + [start], |x|)
      ensures Range(0, stop, hopSize) == (done + [start]) + Range(start + hopSize, stop, hopSize)
      ensures Columns(x, done + [start]) == Columns(x, done) + [WindowSpectrum(x, start)]
    {
      RangeUnfold(start, stop, hopSize);
      assert done + Range(start, stop, hopSize) == (done + [start]) + Range(start + hopSize, stop, hopSize);
      ColumnsSnoc(x, done, start);
    }

    lemma ColumnsSnoc(x: seq<real>, starts: seq<int>, start: nat)
      requires Valid() && WindowsFit(starts, |x|) && start + nFft <= |x|
      ensures WindowsFit(starts + [start], |x|)
      ensures Columns(x, starts + [start]) == Columns(x, starts) + [WindowSpectrum(x, start)]
    {
      var more := starts + [start];
      assert more[..|starts|] == starts;
      assert more[|more| - 1] == start;
    }

    /** When the framing loop ends it has visited every frame start. */
    lemma FramesDone(x: seq<real>, done: seq<int>, start: int, stop: int)
      requires Valid() && WindowsFit(done, |x|)
      requires start >= stop && stop == |x| - nFft + 1
      requires Range(0, stop, hopSize) == done + Range(start, stop, hopSize)
      ensures Columns(x, done) == FrameColumns(x)
    {
      assert Range(start, stop, hopSize) == [];
      assert done + [] == done;
    }

    /** The spectra of all whole windows of a mono signal, in order. */
    function FrameColumns(x: seq<real>): (cols: seq<seq<real>>)
      requires Valid()
      ensures |cols| == |FrameStarts(|x|, nFft, hopSize)|
    {
      FrameStartsShape(|x|, nFft, hopSize);
      Columns(x, FrameStarts(|x|, nFft, hopSize))
    }

    /** What `get_spectrogram` returns for `audio`. */
    function SpectrogramOf(audio: Tensor): (r: Result<seq<seq<real>>>)
      requires Valid() && WellShaped(audio)
    {
      match ToMono(audio)
      case Err(e) => Err(e)
      case Ok(x) =>
        var cols := FrameColumns(x);
        if |cols| == 0 then Err(NoFrames) else Ok(StackRows(cols, BinCount()))
    }

    /** The framing loop of `get_spectrogram`: walks the frame starts of the
        mono signal and stores the spectrum column of each whole window. */
    method FrameLoop(x: seq<real>) returns (output: seq<seq<real>>)
      requires Valid()
      ensures output == FrameColumns(x)
    {
      var stop := |x| - nFft + 1;
      ghost var done: seq<int> := [];
      output := [];
      var startIdx := 0;
      while startIdx < stop
        invariant startIdx >= 0
        invariant Range(0, stop, hopSize) == done + Range(startIdx, stop, hopSize)
        invariant WindowsFit(done, |x|)
        invariant output == Columns(x, done)
        decreases stop - startIdx
      {
        var endIdx := startIdx + nFft;
        var correspSlice := x[startIdx..endIdx];
        var spectrogramSlice := FrameSpectrum(lib, correspSlice, windowTensor, power);
        FrameStep(x, done, startIdx, stop);
        output := output + [spectrogramSlice];
        done := done + [startIdx];
        startIdx := startIdx + hopSize;
      }
      FramesDone(x, done, startIdx, stop);
    }

    /** `get_spectrogram`: reduces to mono, frames the signal, stacks the
        columns and keeps the first n_fft // 2 + 1 bins. */
    method GetSpectrogram(audio: Tensor) returns (r: Result<seq<seq<real>>>)
      requires Valid() && WellShaped(audio)
      ensures r == SpectrogramOf(audio)
    {
      var mono := ToMono(audio);
      if mono.Err? {
        return Err(mono.error);
      }
      var output := FrameLoop(mono.value);
      if |output| == 0 {
        return Err(NoFrames);
      }
      return Ok(StackRows(output, nFft / 2 + 1));
    }

    /** `get_spectrogram` fails only for a rank other than 1 or 2 (the
        assertion) or a signal shorter than one window (nothing to stack). */
    lemma SpectrogramErrors(audio: Tensor)
      requires Valid() && WellShaped(audio)
      ensures SpectrogramOf(audio).Err? <==> audio.OtherRank? || |ToMono(audio).value| < nFft
      ensures SpectrogramOf(audio).Err? ==>
        SpectrogramOf(audio).error == if audio.OtherRank? then InvalidDimension else NoFrames
    {
      if !audio.OtherRank? {
        FrameStartsShape(|ToMono(audio).value|, nFft, hopSize);
      }
    }

    /** Shape and content of a successful `get_spectrogram`: n_fft // 2 + 1
        rows and (N - n_fft) / hop + 1 columns, entry [b][t] being bin b of the
        spectrum of the window that starts at sample t * hop. */
    lemma SpectrogramShape(audio: Tensor, b: nat, t: nat)
      requires Valid() && WellShaped(audio)
      requires SpectrogramOf(audio).Ok?
      ensures var x, s := ToMono(audio).value, SpectrogramOf(audio).value;
        && IsMatrix(s, BinCount(), (|x| - nFft) / hopSize + 1)
        && (b < BinCount() && t < (|x| - nFft) / hopSize + 1 ==>
              t * hopSize + nFft <= |x| && s[b][t] == WindowSpectrum(x, t * hopSize)[b])
    {
      var x := ToMono(audio).value;
      FrameStartsShape(|x|, nFft, hopSize);
      assert SpectrogramOf(audio).value == StackRows(FrameColumns(x), BinCount());
      FrameLayout(x, b, t);
    }

    /** The stacked spectrogram of a mono signal of at least one window. */
    lemma FrameLayout(x: seq<real>, b: nat, t: nat)
      requires Valid() && |x| >= nFft
      ensures var s := StackRows(FrameColumns(x), BinCount());
        && IsMatrix(s, BinCount(), (|x| - nFft) / hopSize + 1)
        && (b < BinCount() && t < (|x| - nFft) / hopSize + 1 ==>
              t * hopSize + nFft <= |x| && s[b][t] == WindowSpectrum(x, t * hopSize)[b])
    {
      var starts := FrameStarts(|x|, nFft, hopSize);
      FrameStartsShape(|x|, nFft, hopSize);
      var cols := FrameColumns(x);
      assert cols == Columns(x, starts);
      if b < BinCount() && t < |cols| {
        assert starts[t] == t * hopSize;
        assert cols[t] == WindowSpectrum(x, t * hopSize);
      }
    }

    /** `frequency_bin_to_hz`: bin_index * (sr / n_fft); n_fft bins span sr Hz. */
    function FrequencyBinToHz(binIndex: real): (hz: real)
      requires Valid()
      ensures hz * nFft as real == binIndex * sr as real
    {
      binIndex * (sr as real / nFft as real)
    }

    /** Bins are sr / n_fft Hz apart, bin 0 is 0 Hz, and for an even n_fft the
        last kept bin, n_fft / 2, is the Nyquist frequency sr / 2. */
    lemma FrequencyBins(k: real)
      requires Valid()
      ensures FrequencyBinToHz(0.0) == 0.0
      ensures FrequencyBinToHz(k + 1.0) - FrequencyBinToHz(k) == sr as real / nFft as real
      ensures nFft % 2 == 0 ==> FrequencyBinToHz((BinCount() - 1) as real) == sr as real / 2.0
    {
      if nFft % 2 == 0 {
        var h := (nFft / 2) as real;
        assert nFft as real == 2.0 * h;
        assert h * (sr as real / (2.0 * h)) == sr as real / 2.0;
      }
    }

    /** `time_bin_to_second`: bin_index * hop_size / sr; sr seconds' worth
        of frames cover bin_index * hop_size samples. */
    function TimeBinToSecond(binIndex: real): (sec: real)
      requires Valid()
      ensures sec * sr as real == binIndex * hopSize as real
    {
      binIndex * hopSize as real / sr as real
    }

    /** The time of frame t is the time of its first sample. */
    lemma FrameTime(n: nat, t: nat)
      requires Valid()
      requires t < |FrameStarts(n, nFft, hopSize)|
      ensures TimeBinToSecond(t as real) == FrameStarts(n, nFft, hopSize)[t] as real / sr as real
    {
      FrameStartsShape(n, nFft, hopSize);
    }

    /** `convert_spec_to_mel_spec`: `torch.mm(mel_fb.T, spec)`, which fails
        unless the filterbank has as many rows as the spectrogram. */
    function ConvertSpecToMelSpec(spec: seq<seq<real>>): (r: Result<seq<seq<real>>>)
      requires Valid()
      requires IsMatrix(spec, |spec|, Width(spec))
      ensures r.Err? <==> |spec| != |melFb|
      ensures r.Err? ==> r.error == ShapeMismatch
      ensures r.Ok? ==> IsMatrix(r.value, numMels, Width(spec))
      ensures r.Ok? ==> forall mel, t :: 0 <= mel < numMels && 0 <= t < Width(spec) ==>
        r.value[mel][t] == MelEntry(melFb, spec, mel, t)
    {
      if |spec| != |melFb| then Err(ShapeMismatch)
      else
        var frames := Width(spec);
        assert forall b :: 0 <= b < |spec| ==> spec[b] in spec && melFb[b] in melFb;
        Ok(seq(numMels, mel requires 0 <= mel < numMels =>
          seq(frames, t requires 0 <= t < frames => MelEntry(melFb, spec, mel, t))))
    }

    /** A non-negative filterbank maps a non-negative spectrogram to a
        non-negative mel spectrogram. */
    lemma MelNonNegative(spec: seq<seq<real>>, mel: nat, t: nat)
      requires Valid()
      requires IsMatrix(spec, |melFb|, Width(spec))
      requires forall b, m :: 0 <= b < |melFb| && 0 <= m < numMels ==> melFb[b][m] >= 0.0
      requires forall b, u :: 0 <= b < |spec| && 0 <= u < Width(spec) ==> spec[b][u] >= 0.0
      requires mel < numMels && t < Width(spec)
      ensures ConvertSpecToMelSpec(spec).Ok?
      ensures ConvertSpecToMelSpec(spec).value[mel][t] >= 0.0
    {
      assert forall b :: 0 <= b < |spec| ==> spec[b] in spec && melFb[b] in melFb;
      var terms := seq(|melFb|, b requires 0 <= b < |melFb| => melFb[b][mel] * spec[b][t]);
      forall b | 0 <= b < |terms|
        ensures terms[b] >= 0.0
      {
        ProductNonNegative(melFb[b][mel], spec[b][t]);
      }
      SumNonNegative(terms);
    }

    /** Column t of the mel spectrogram depends on column t of the
        spectrogram alone: frames are projected independently. */
    lemma MelFrameLocal(spec: seq<seq<real>>, spec': seq<seq<real>>, t: nat, mel: nat)
      requires Valid()
      requires IsMatrix(spec, |melFb|, Width(spec)) && IsMatrix(spec', |melFb|, Width(spec'))
      requires t < Width(spec) && t < Width(spec') && mel < numMels
      requires forall b :: 0 <= b < |spec| ==> spec[b][t] == spec'[b][t]
      ensures ConvertSpecToMelSpec(spec).Ok? && ConvertSpecToMelSpec(spec').Ok?
      ensures ConvertSpecToMelSpec(spec).value[mel][t] == ConvertSpecToMelSpec(spec').value[mel][t]
    {
      var terms := seq(|melFb|, b requires 0 <= b < |melFb| => melFb[b][mel] * spec[b][t]);
      var terms' := seq(|melFb|, b requires 0 <= b < |melFb| => melFb[b][mel] * spec'[b][t]);
      forall b | 0 <= b < |melFb|
        ensures terms[b] == terms'[b]
      {
      }
      assert terms == terms';
    }

    /** `amplitude_to_db`: 10 * log10(clamp(x, min=eps)) entry by entry. Entries
        at or below eps all map to 10 * log10(eps); entries at or above eps
        keep their own value under the logarithm. */
    function AmplitudeToDb(spectrogram: seq<seq<real>>, eps: real): (r: seq<seq<real>>)
      ensures |r| == |spectrogram|
      ensures forall i :: 0 <= i < |r| ==> |r[i]| == |spectrogram[i]|
      ensures forall i, j :: 0 <= i < |r| && 0 <= j < |r[i]| && spectrogram[i][j] <= eps ==>
        r[i][j] == 10.0 * lib.log10(eps)
      ensures forall i, j :: 0 <= i < |r| && 0 <= j < |r[i]| && spectrogram[i][j] >= eps ==>
        r[i][j] == 10.0 * lib.log10(spectrogram[i][j])
    {
      seq(|spectrogram|, i requires 0 <= i < |spectrogram| =>
        seq(|spectrogram[i]|, j requires 0 <= j < |spectrogram[i]| => ToDb(lib, spectrogram[i][j], eps)))
    }

    /** `__call__`: spectrogram, then mel projection, then decibels at the
        default floor. The projection cannot fail here, because the
        spectrogram has exactly as many rows as the filterbank; so the pipeline
        fails exactly when `get_spectrogram` does, and otherwise yields a
        num_mels x frames matrix. */
    method Call(audio: Tensor) returns (r: Result<seq<seq<real>>>)
      requires Valid() && WellShaped(audio)
      ensures r.Err? <==> SpectrogramOf(audio).Err?
      ensures r.Err? ==> r.error == SpectrogramOf(audio).error
      ensures r.Ok? ==>
        var spec := SpectrogramOf(audio).value;
        && IsMatrix(spec, |spec|, Width(spec))
        && ConvertSpecToMelSpec(spec).Ok?
        && r.value == AmplitudeToDb(ConvertSpecToMelSpec(spec).value, DefaultEps)
        && IsMatrix(r.value, numMels, Width(spec))
    {
      var spec := GetSpectrogram(audio);
      if spec.Err? {
        return Err(spec.error);
      }
      var s := spec.value;
      assert IsMatrix(s, |s|, Width(s)) && |s| == |melFb|;
      var melSpec := ConvertSpecToMelSpec(s);
      var melSpecDb := AmplitudeToDb(melSpec.value, DefaultEps);
      return Ok(melSpecDb);
    }
  }
}
