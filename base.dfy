/** Shared vocabulary of the toolkit: the floating-point primitives it calls
    (kept uninterpreted), the error kinds it raises, sample-count conversions
    from seconds, and the concatenation of sample blocks (`torch.cat`). */
module Base {

  /** The numeric library the toolkit calls into. Each field stands for a
      floating-point routine whose values the model does not interpret:
      `math`/`torch` sine, exponential and base-10 logarithm, `x ** y`,
      `torch.hann_window(n)[k]` and `abs(torch.fft.fft(x))[k]`. */
  datatype Library = Library(
    sin: real -> real,
    exp: real -> real,
    log10: real -> real,
    pow: (real, real) -> real,
    hann: (nat, nat) -> real,
    fftAbs: (seq<real>, nat) -> real)

  /** `math.pi` */
  const Pi: real := 3.141592653589793

  /** The exceptions the core raises, one per failing check or library call. */
  datatype Error =
    | LengthMismatch     // `assert len(pitch_list) == len(amp_list)`
    | ShapeMismatch      // `chord_tone += sine_wave` on unequal lengths, or `torch.mm` with unequal inner dimensions
    | InvalidDimension   // `assert audio.ndim == 1`
    | NoFrames           // `torch.stack` of an empty list
    | EmptyConcat        // `torch.cat` of an empty list

  datatype Result<T> = Ok(value: T) | Err(error: Error)

  /** The real number of samples in `seconds` at rate `sr`. */
  function SampleProduct(seconds: real, sr: nat): (x: real)
    requires seconds >= 0.0
    ensures x >= 0.0
    ensures sr > 0 && seconds > 0.0 ==> x > 0.0
  {
    NonNegativeProduct(seconds, sr);
    seconds * sr as real
  }

  lemma NonNegativeProduct(seconds: real, sr: nat)
    requires seconds >= 0.0
    ensures seconds * sr as real >= 0.0
    ensures sr > 0 && seconds > 0.0 ==> seconds * sr as real > 0.0
  {
  }

  /** `int(seconds * sr)`: Python's `int` truncates toward zero, which on a
      non-negative product is the floor. */
  function FloorSamples(seconds: real, sr: nat): (n: nat)
    requires seconds >= 0.0
    ensures n as real <= SampleProduct(seconds, sr) < n as real + 1.0
  {
    SampleProduct(seconds, sr).Floor
  }

  /** `len(torch.arange(seconds * sr))`: the number of integers k with
      0 <= k < seconds * sr, that is, the ceiling of the product. */
  function CeilSamples(seconds: real, sr: nat): (n: nat)
    requires seconds >= 0.0
    ensures SampleProduct(seconds, sr) <= n as real < SampleProduct(seconds, sr) + 1.0
  {
    var x := SampleProduct(seconds, sr);
    if x.Floor as real == x then x.Floor else x.Floor + 1
  }

  /** The duration covers a whole number of samples, so that the two counts above agree. */
  predicate WholeSamples(seconds: real, sr: nat)
    requires seconds >= 0.0
  {
    var x := SampleProduct(seconds, sr);
    x.Floor as real == x
  }

  /** `torch.arange` counts exactly the integers below the product, and
      `int(...)` and `arange` agree precisely on whole products. */
  lemma SampleCounts(seconds: real, sr: nat)
    requires seconds >= 0.0
    ensures CeilSamples(seconds, sr) as real >= SampleProduct(seconds, sr)
    ensures (CeilSamples(seconds, sr) - 1) as real < SampleProduct(seconds, sr)
    ensures FloorSamples(seconds, sr) <= CeilSamples(seconds, sr) <= FloorSamples(seconds, sr) + 1
    ensures FloorSamples(seconds, sr) == CeilSamples(seconds, sr) <==> WholeSamples(seconds, sr)
  {
  }

  /** `torch.zeros(n)` */
  function Zeros(n: nat): (z: seq<real>)
    ensures |z| == n
    ensures forall k :: 0 <= k < n ==> z[k] == 0.0
  {
    seq(n, _ => 0.0)
  }

  /** `torch.cat(blocks)` for one-dimensional blocks: the blocks end to end, in order. */
  function Concat(blocks: seq<seq<real>>): (joined: seq<real>)
  {
    if |blocks| == 0 then [] else Concat(blocks[..|blocks| - 1]) + blocks[|blocks| - 1]
  }

  /** `torch.cat` holds as many samples as all the blocks together. */
  lemma {:induction false} ConcatTotalLength(blocks: seq<seq<real>>)
    ensures |Concat(blocks)| == TotalLength(blocks)
  {
    if |blocks| > 0 {
      ConcatTotalLength(blocks[..|blocks| - 1]);
      TotalLengthSnoc(blocks);
    }
  }

  /** The number of samples in all the blocks together. */
  function TotalLength(blocks: seq<seq<real>>): (n: nat)
  {
    if |blocks| == 0 then 0 else |blocks[0]| + TotalLength(blocks[1..])
  }

  /** Counting from the front agrees with counting the last block separately. */
  lemma {:induction false} TotalLengthSnoc(blocks: seq<seq<real>>)
    requires |blocks| > 0
    ensures TotalLength(blocks) == TotalLength(blocks[..|blocks| - 1]) + |blocks[|blocks| - 1]|
  {
    var last := |blocks| - 1;
    if last > 0 {
      var tail := blocks[1..];
      TotalLengthSnoc(tail);
      assert tail[..|tail| - 1] == blocks[..last][1..];
      assert tail[|tail| - 1] == blocks[last];
    } else {
      assert blocks[1..] == [];
      assert blocks[..last] == [];
    }
  }

  /** When every block holds c samples, the concatenation holds |blocks| * c
      samples and its j-th stretch of c samples is exactly block j. */
  lemma {:induction false} ConcatBlock(blocks: seq<seq<real>>, c: nat, j: nat)
    requires forall t :: 0 <= t < |blocks| ==> |blocks[t]| == c
    requires j < |blocks|
    ensures |Concat(blocks)| == |blocks| * c
    ensures j * c + c <= |blocks| * c
    ensures Concat(blocks)[j * c .. j * c + c] == blocks[j]
  {
    var last := |blocks| - 1;
    var front := blocks[..last];
    var head := Concat(front);
    ConcatLength(front, c);
    DistributeOne(last, c);
    DistributeOne(j, c);
    assert Concat(blocks) == head + blocks[last];
    if j < last {
      ConcatBlock(front, c, j);
      assert front[j] == blocks[j];
      SliceOfPrefix(head, blocks[last], j * c, j * c + c);
    } else {
      SliceOfSuffix(head, blocks[last], j * c, j * c + c);
    }
  }

  /** A leading block followed by uniform blocks of c samples: the leading
      block comes first, and block j fills its own stretch after it. */
  lemma ConsBlock(first: seq<real>, blocks: seq<seq<real>>, c: nat, j: nat)
    requires forall t :: 0 <= t < |blocks| ==> |blocks[t]| == c
    requires j < |blocks|
    ensures var s := first + Concat(blocks);
      && s[..|first|] == first
      && |first| + j * c + c <= |s|
      && s[|first| + j * c .. |first| + j * c + c] == blocks[j]
  {
    ConcatBlock(blocks, c, j);
    SliceOfSuffixRange(first, Concat(blocks), j * c, j * c + c);
  }

  lemma SliceOfPrefix(a: seq<real>, b: seq<real>, lo: nat, hi: nat)
    requires lo <= hi <= |a|
    ensures (a + b)[lo..hi] == a[lo..hi]
  {
  }

  lemma SliceOfSuffix(a: seq<real>, b: seq<real>, lo: nat, hi: nat)
    requires lo == |a| && hi == |a| + |b|
    ensures (a + b)[lo..hi] == b
  {
  }

  lemma SliceOfSuffixRange(a: seq<real>, b: seq<real>, lo: nat, hi: nat)
    requires lo <= hi <= |b|
    ensures (a + b)[|a| + lo .. |a| + hi] == b[lo..hi]
    ensures (a + b)[..|a|] == a
  {
  }

  /** Putting a block in front of a concatenation. */
  lemma {:induction false} ConcatCons(first: seq<real>, rest: seq<seq<real>>)
    ensures Concat([first] + rest) == first + Concat(rest)
    decreases |rest|
  {
    if |rest| > 0 {
      var last := |rest| - 1;
      ConcatCons(first, rest[..last]);
      assert ([first] + rest)[..|rest|] == [first] + rest[..last];
    } else {
      assert [first] + rest == [first];
      assert [first][..0] == [];
    }
  }

  lemma {:induction false} ConcatLength(blocks: seq<seq<real>>, c: nat)
    requires forall t :: 0 <= t < |blocks| ==> |blocks[t]| == c
    ensures |Concat(blocks)| == |blocks| * c
  {
    if |blocks| > 0 {
      var last := |blocks| - 1;
      var front := blocks[..last];
      ConcatLength(front, c);
      assert |Concat(blocks)| == |Concat(front)| + |blocks[last]|;
      DistributeOne(last, c);
    }
  }

  lemma DistributeOne(m: nat, f: nat)
    ensures (m + 1) * f == f + m * f
  {
  }

  lemma MulMonotone(a: nat, b: nat, c: nat)
    requires a <= b
    ensures a * c <= b * c
  {
  }

  lemma ProductNonNegative(a: real, b: real)
    requires a >= 0.0 && b >= 0.0
    ensures a * b >= 0.0
  {
  }

  /** Sum of a sequence of reals (exact; float rounding is not modelled). */
  function Sum(s: seq<real>): (total: real)
  {
    if |s| == 0 then 0.0 else Sum(s[..|s| - 1]) + s[|s| - 1]
  }

  /** The sum of two sequences joined is the sum of their sums. */
  lemma {:induction false} SumAppend(a: seq<real>, b: seq<real>)
    ensures Sum(a + b) == Sum(a) + Sum(b)
    decreases |b|
  {
    if |b| > 0 {
      var last := |b| - 1;
      SumAppend(a, b[..last]);
      assert (a + b)[..|a + b| - 1] == a + b[..last];
    } else {
      assert a + b == a;
    }
  }

  /** A sum of non-negative terms is non-negative. */
  lemma {:induction false} SumNonNegative(s: seq<real>)
    requires forall k :: 0 <= k < |s| ==> s[k] >= 0.0
    ensures Sum(s) >= 0.0
  {
    if |s| > 0 {
      SumNonNegative(s[..|s| - 1]);
    }
  }

  /** Summing n copies of x gives n * x. */
  lemma {:induction false} SumConstant(s: seq<real>, x: real)
    requires forall k :: 0 <= k < |s| ==> s[k] == x
    ensures Sum(s) == |s| as real * x
  {
    if |s| > 0 {
      SumConstant(s[..|s| - 1], x);
    }
  }
}
