/**
 * The arithmetic of `updateLevel` on the home page: the byte spectrum read
 * from the analyser is summed, averaged over its `bufferLength` bins,
 * divided by 128 and clamped to 1 with `Math.min`.
 *
 * JavaScript numbers are modelled as reals plus NaN, the only non-finite
 * value these steps can produce (an empty buffer makes the average 0 / 0).
 */
module AudioLevel {

  /** One entry of the `Uint8Array` filled by `getByteFrequencyData`. */
  type Byte = x: int | 0 <= x < 256

  /** The reference ceiling the average is divided by. */
  const ReferenceCeiling: real := 128.0

  datatype Number = NaN | Real(value: real)

  /** `sum += dataArray[i]` over the whole buffer. */
  function Sum(s: seq<Byte>): (r: int)
    ensures r >= 0
  {
    if s == [] then 0 else Sum(s[..|s| - 1]) + s[|s| - 1]
  }

  /** `sum / bufferLength`. */
  function Average(s: seq<Byte>): (r: Number)
    ensures r.Real? <==> |s| > 0
  {
    if |s| == 0 then NaN else Real(Sum(s) as real / |s| as real)
  }

  /** `Math.min(x, 1)`; NaN stays NaN. */
  function MinOne(x: Number): (r: Number)
    ensures r.NaN? <==> x.NaN?
    ensures x.Real? ==> r.value <= 1.0 && r.value <= x.value && (r.value == x.value || r.value == 1.0)
  {
    match x
    case NaN => NaN
    case Real(v) => Real(if v <= 1.0 then v else 1.0)
  }

  /** `Math.min(average / 128, 1)`. */
  function Normalized(s: seq<Byte>): (r: Number)
    ensures r.Real? <==> |s| > 0
    ensures r.Real? ==> r.value <= 1.0
  {
    match Average(s)
    case NaN => NaN
    case Real(a) => MinOne(Real(a / ReferenceCeiling))
  }

  /**
   * The loop of `updateLevel`: it adds up exactly the `data.Length` bins of
   * the buffer, then averages and normalises the sum.
   */
  method MeasureLevel(data: array<Byte>) returns (sum: int, level: Number)
    ensures sum == Sum(data[..])
    ensures 0 <= sum <= 255 * data.Length
    ensures level == Normalized(data[..])
  {
    sum := 0;
    for i := 0 to data.Length
      invariant sum == Sum(data[..i])
    {
      assert data[..i + 1][..i] == data[..i];
      sum := sum + data[i];
    }
    assert data[..data.Length] == data[..];
    SumBounds(data[..]);
    if data.Length == 0 {
      level := NaN;
    } else {
      var average := sum as real / data.Length as real;
      level := if average / ReferenceCeiling <= 1.0 then Real(average / ReferenceCeiling) else Real(1.0);
    }
  }

  // ---- properties ----

  /** Every bin is at most 255, so the sum of `n` bins lies in [0, 255 * n]. */
  lemma {:induction false} SumBounds(s: seq<Byte>)
    ensures 0 <= Sum(s) <= 255 * |s|
  {
    if s != [] {
      SumBounds(s[..|s| - 1]);
    }
  }

  /** The sum is zero exactly when every bin is zero. */
  lemma {:induction false} SumZeroIff(s: seq<Byte>)
    ensures Sum(s) == 0 <==> forall i :: 0 <= i < |s| ==> s[i] == 0
  {
    if s != [] {
      var init := s[..|s| - 1];
      SumZeroIff(init);
      SumBounds(init);
      assert forall i :: 0 <= i < |init| ==> init[i] == s[i];
    }
  }

  /** A non-empty buffer has a finite average in [0, 255]; an empty one yields NaN. */
  lemma AverageBounds(s: seq<Byte>)
    ensures Average(s).Real? <==> |s| > 0
    ensures Average(s).Real? ==> 0.0 <= Average(s).value <= 255.0
  {
    SumBounds(s);
    if |s| > 0 {
      var n := |s| as real;
      assert Sum(s) as real <= 255.0 * n;
      assert Sum(s) as real / n <= 255.0;
    }
  }

  /** The normalised level of a non-empty buffer lies in [0, 1]. */
  lemma NormalizedInUnit(s: seq<Byte>)
    ensures Normalized(s).Real? <==> |s| > 0
    ensures Normalized(s).Real? ==> 0.0 <= Normalized(s).value <= 1.0
  {
    AverageBounds(s);
  }

  /** A silent buffer (every bin zero), and only a silent one, gives level 0. */
  lemma NormalizedZeroIff(s: seq<Byte>)
    requires |s| > 0
    ensures Normalized(s) == Real(0.0) <==> forall i :: 0 <= i < |s| ==> s[i] == 0
  {
    SumZeroIff(s);
    SumBounds(s);
    var n := |s| as real;
    if Sum(s) != 0 {
      assert Sum(s) as real / n > 0.0;
    }
  }

  /** The level is clamped to exactly 1 precisely when the average reaches the ceiling of 128. */
  lemma NormalizedFullIff(s: seq<Byte>)
    requires |s| > 0
    ensures Normalized(s) == Real(1.0) <==> Average(s).value >= ReferenceCeiling
  {
  }
}
