/** The amplitude sampler: the waveform-capture listener of MainActivity, which turns a
    buffer of signed 8-bit samples into one loudness value, the mean square of the buffer.

    The listener computes `it.map { it * it }.sum() / it.size` with Kotlin's `Int`:
    `Byte * Byte` is an exact `Int`, `sum()` adds left to right with 32-bit wrap-around,
    and `/` truncates toward zero. All three are written out below. */
module Sampler {

  /** A Kotlin `Byte`. */
  type Int8 = b: int | -128 <= b <= 127

  const Int32Min: int := -0x8000_0000
  const Int32Max: int := 0x7fff_ffff

  /** The largest buffer whose squares cannot overflow a Kotlin `Int` when summed:
      16384 * 131071 <= Int32Max < 16384 * 131072. */
  const LongestExactBuffer: int := 131071

  /** The largest square of a byte, (-128) * (-128). */
  const MaxSquare: int := 16384

  datatype Option<T> = None | Some(value: T)

  /** What one call of the capture listener does. */
  datatype Capture =
    | NoEmission              // the buffer was null: `waveform?.let` skips the body
    | Emitted(amplitude: int) // `amplitude(rms.toFloat())` was called with this value
    | DivisionByZero          // the buffer was empty: `/ it.size` throws

  /** Two's-complement reduction of an unbounded integer to a Kotlin `Int`. */
  function WrapInt32(x: int): (r: int)
    ensures Int32Min <= r <= Int32Max
    ensures Int32Min <= x <= Int32Max ==> r == x
    ensures (r - x) % 0x1_0000_0000 == 0
  {
    (x - Int32Min) % 0x1_0000_0000 + Int32Min
  }

  /** Kotlin's `/` on `Int`, which rounds toward zero. */
  function TruncDiv(a: int, b: int): (q: int)
    requires b > 0
    ensures a >= 0 ==> q * b <= a < (q + 1) * b
    ensures a < 0 ==> (q - 1) * b < a <= q * b
  {
    if a >= 0 then a / b else -((-a) / b)
  }

  /** The mathematical sum, added from the left like `Iterable<Int>.sum()`. */
  function Sum(xs: seq<int>): int
  {
    if xs == [] then 0 else Sum(xs[..|xs| - 1]) + xs[|xs| - 1]
  }

  /** `Iterable<Int>.sum()`: an `Int` accumulator, each addition wrapping at 32 bits. */
  function KotlinSum(xs: seq<int>): (r: int)
    ensures Int32Min <= r <= Int32Max
  {
    if xs == [] then 0 else WrapInt32(KotlinSum(xs[..|xs| - 1]) + xs[|xs| - 1])
  }

  /** `it.map { it * it }`: each byte squared as an `Int` (never more than 16384, so exact). */
  function Squares(s: seq<Int8>): (r: seq<int>)
    ensures |r| == |s|
  {
    seq(|s|, i requires 0 <= i < |s| => s[i] as int * s[i] as int)
  }

  /** `val rms` at line 39: the value the listener passes on for a non-empty buffer, before
      `toFloat()`. What it means is stated by `MeanSquareExact` (the true mean square for every
      realistic buffer) and `MeanSquareRange` (bounded for every buffer). */
  function MeanSquare(s: seq<Int8>): int
    requires |s| > 0
  {
    TruncDiv(KotlinSum(Squares(s)), |s|)
  }

  /** One invocation of `onWaveFormDataCapture` with the given (nullable) buffer. */
  function OnWaveFormDataCapture(waveform: Option<seq<Int8>>): (c: Capture)
    ensures c.NoEmission? <==> waveform.None?
    ensures c.DivisionByZero? <==> waveform.Some? && |waveform.value| == 0
    ensures c.Emitted? ==> -MaxSquare <= c.amplitude <= MaxSquare
    ensures c.Emitted? && |waveform.value| <= LongestExactBuffer ==>
              0 <= c.amplitude <= MaxSquare && c.amplitude == Sum(Squares(waveform.value)) / |waveform.value|
  {
    match waveform
    case None => NoEmission
    case Some(s) =>
      if |s| == 0 then DivisionByZero
      else
        MeanSquareRange(s);
        if |s| <= LongestExactBuffer then
          MeanSquareExact(s);
          Emitted(MeanSquare(s))
        else
          Emitted(MeanSquare(s))
  }

  /** Where truncation and Dafny's floor division part: a negative odd quotient. */
  lemma TruncDivRoundsTowardZero()
    ensures TruncDiv(-7, 2) == -3 && -7 / 2 == -4
    ensures TruncDiv(7, 2) == 3
  {
  }

  // ---------------------------------------------------------------------------
  // Wrap-around

  lemma WrapShift(x: int, k: int)
    ensures WrapInt32(x + k * 0x1_0000_0000) == WrapInt32(x)
  {
    var m := 0x1_0000_0000;
    var y := x - Int32Min;
    var q, r := y / m, y % m;
    assert y == q * m + r && 0 <= r < m;
    assert y + k * m == (q + k) * m + r;
  }

  /** Wrapping after every addition gives the same `Int` as wrapping the exact sum once. */
  lemma {:induction false} KotlinSumIsWrappedSum(xs: seq<int>)
    ensures KotlinSum(xs) == WrapInt32(Sum(xs))
  {
    if xs != [] {
      var init, last := xs[..|xs| - 1], xs[|xs| - 1];
      KotlinSumIsWrappedSum(init);
      var s := Sum(init);
      var m := 0x1_0000_0000;
      var k := (s - Int32Min) / m;
      assert WrapInt32(s) == s - k * m;
      WrapShift(s + last, -k);
      assert s + last + -k * m == WrapInt32(s) + last;
    }
  }

  // ---------------------------------------------------------------------------
  // Bounds on the sum of squares

  lemma SquareOfByte(b: Int8)
    ensures 0 <= b as int * b as int <= MaxSquare
  {
  }

  /** Each square is at most 128 * 128, so the exact sum is at most 16384 per sample. */
  lemma {:induction false} SquareSumBound(s: seq<Int8>)
    ensures 0 <= Sum(Squares(s)) <= MaxSquare * |s|
  {
    if s != [] {
      var n := |s|;
      assert Squares(s)[..n - 1] == Squares(s[..n - 1]);
      SquareSumBound(s[..n - 1]);
      SquareOfByte(s[n - 1]);
    }
  }

  lemma DivBound(a: int, n: int, c: int)
    requires n > 0 && c >= 0
    requires 0 <= a <= c * n
    ensures 0 <= a / n <= c
  {
  }

  /** For every buffer the capture can deliver (the Android Visualizer's capture size is at
      most 1024 bytes, far below 131071), the `Int` arithmetic is exact: the emitted value is
      the true mean square, rounded down, and lies in [0, 16384]. */
  lemma MeanSquareExact(s: seq<Int8>)
    requires 0 < |s| <= LongestExactBuffer
    ensures MeanSquare(s) == Sum(Squares(s)) / |s|
    ensures 0 <= MeanSquare(s) <= MaxSquare
  {
    SquareSumBound(s);
    KotlinSumIsWrappedSum(Squares(s));
    assert MaxSquare * |s| <= MaxSquare * LongestExactBuffer <= Int32Max;
    DivBound(Sum(Squares(s)), |s|, MaxSquare);
  }

  /** Whatever the buffer length, the emitted value lies in [-16384, 16384]: well inside the
      integers a `Float` holds exactly, so `rms.toFloat()` loses nothing. */
  lemma MeanSquareRange(s: seq<Int8>)
    requires |s| > 0
    ensures -MaxSquare <= MeanSquare(s) <= MaxSquare
  {
    var n := |s|;
    var total := Sum(Squares(s));
    SquareSumBound(s);
    KotlinSumIsWrappedSum(Squares(s));
    if total <= Int32Max {
      DivBound(total, n, MaxSquare);
    } else {
      // the sum only overflows when the buffer holds at least 2^17 samples
      assert n >= 0x2_0000;
      var w := WrapInt32(total);
      assert 0x8000_0000 == MaxSquare * 0x2_0000 <= MaxSquare * n;
      if w >= 0 {
        DivBound(w, n, MaxSquare);
      } else {
        DivBound(-w, n, MaxSquare);
      }
    }
  }

  // ---------------------------------------------------------------------------
  // What happens beyond the exact range

  lemma {:induction false} ConstantSquareSum(n: nat, b: Int8)
    ensures Sum(Squares(seq(n, _ => b))) == n * (b * b)
  {
    if n > 0 {
      var s := seq(n, _ => b);
      assert s[..n - 1] == seq(n - 1, _ => b);
      assert Squares(s)[..n - 1] == Squares(s[..n - 1]);
      ConstantSquareSum(n - 1, b);
    }
  }

  /** A buffer one sample longer than the exact range, all at -128, sums to 2^31, which the
      `Int` accumulator wraps to -2^31: the listener then emits -16384 instead of 16384. */
  lemma WideBufferWraps()
    ensures MeanSquare(seq(LongestExactBuffer + 1, _ => -128)) == -MaxSquare
  {
    var s: seq<Int8> := seq(LongestExactBuffer + 1, _ => -128);
    ConstantSquareSum(LongestExactBuffer + 1, -128);
    KotlinSumIsWrappedSum(Squares(s));
    assert KotlinSum(Squares(s)) == Int32Min;
  }
}
