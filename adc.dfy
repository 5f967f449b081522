/**
 * The integer arithmetic shared by the LM35 and LDR drivers: averaging a
 * burst of 12-bit conversions into a 32-bit accumulator, and scaling a raw
 * reading to millivolts in 64-bit arithmetic. The conversions themselves
 * come in as a sequence of samples; the first one is the read the driver
 * throws away.
 */
module Adc {
  import opened Arith

  /** Full-scale value of a 12-bit conversion, also the divisor of the scaling. */
  const FullScale: nat := 4095

  const U16Limit: nat := 0x1_0000
  const U32Limit: nat := 0x1_0000_0000
  const U64Limit: nat := 0x1_0000_0000_0000_0000

  /** Parameter values `begin` falls back to when given zero. */
  const DefaultVrefMv: nat := 3300
  const DefaultSamples: nat := 8

  /** Parameter values the drivers hold before their first `begin`. */
  const InitialVrefMv: nat := 3300
  const InitialSamples: nat := 16

  /** One 12-bit conversion. */
  type Sample = x: nat | x <= 4095

  type U16 = x: nat | x < 0x1_0000
  type U32 = x: nat | x < 0x1_0000_0000

  /** Sum of a window of samples, accumulated front to back. */
  function Sum(s: seq<Sample>): nat
  {
    if s == [] then 0 else Sum(s[..|s| - 1]) + s[|s| - 1]
  }

  /** Floor of the arithmetic mean of a non-empty window. */
  function Mean(s: seq<Sample>): nat
    requires s != []
  {
    Sum(s) / |s|
  }

  /** Smallest sample of a non-empty window. */
  function Min(s: seq<Sample>): (m: Sample)
    requires s != []
    ensures m in s && forall i :: 0 <= i < |s| ==> m <= s[i]
  {
    if |s| == 1 then s[0]
    else if s[0] <= Min(s[1..]) then s[0] else Min(s[1..])
  }

  /** Largest sample of a non-empty window. */
  function Max(s: seq<Sample>): (m: Sample)
    requires s != []
    ensures m in s && forall i :: 0 <= i < |s| ==> s[i] <= m
  {
    if |s| == 1 then s[0]
    else if Max(s[1..]) <= s[0] then s[0] else Max(s[1..])
  }

  /** The number of conversions averaged for a request of `n`: zero is read as one. */
  function EffectiveCount(n: U16): (c: U16)
    ensures 0 < c
    ensures c == n || (n == 0 && c == 1)
  {
    if n == 0 then 1 else n
  }

  /** The samples that are averaged: the `EffectiveCount(n)` after the discarded first one. */
  function Window(n: U16, conv: seq<Sample>): (w: seq<Sample>)
    requires EffectiveCount(n) < |conv|
    ensures |w| == EffectiveCount(n)
  {
    conv[1..EffectiveCount(n) + 1]
  }

  // ---------------------------------------------------------------------
  // Bounds on sums and means

  /** A window whose samples lie in [lo, hi] sums to between lo and hi times its length. */
  lemma {:induction false} SumBounds(s: seq<Sample>, lo: nat, hi: nat)
    requires forall i :: 0 <= i < |s| ==> lo <= s[i] <= hi
    ensures lo * |s| <= Sum(s) <= hi * |s|
  {
    if s != [] {
      var k := |s| - 1;
      SumBounds(s[..k], lo, hi);
      assert lo * |s| == lo * k + lo && hi * |s| == hi * k + hi;
    }
  }

  /** The 32-bit accumulator never wraps: at most 65535 samples of at most 4095. */
  lemma AccumulatorFits(s: seq<Sample>)
    requires |s| < U16Limit
    ensures Sum(s) <= FullScale * |s| < U32Limit
  {
    SumBounds(s, 0, FullScale);
  }

  /** The floor mean lies between the smallest and the largest sample, hence within 12 bits. */
  lemma MeanWithinRange(s: seq<Sample>)
    requires s != []
    ensures Min(s) <= Mean(s) <= Max(s) <= FullScale
  {
    var n := |s|;
    SumBounds(s, Min(s), Max(s));
    DivBounds(Sum(s), n, Min(s), Max(s));
  }

  /** Averaging a constant signal gives that constant back. */
  lemma {:induction false} MeanOfConstant(s: seq<Sample>, v: Sample)
    requires s != [] && forall i :: 0 <= i < |s| ==> s[i] == v
    ensures Mean(s) == v
  {
    SumBounds(s, v, v);
    assert Sum(s) == v * |s|;
    DivBounds(Sum(s), |s|, v, v);
  }

  /** A request for zero samples averages exactly one: the conversion after the discarded one. */
  lemma ZeroRequestReadsOne(conv: seq<Sample>)
    requires 1 < |conv|
    ensures Window(0, conv) == Window(1, conv) == [conv[1]]
    ensures Mean(Window(0, conv)) == conv[1]
  {
    var w := Window(0, conv);
    assert w[..0] == [];
    assert Sum(w) == conv[1];
  }

  // ---------------------------------------------------------------------
  // Averaging a burst of conversions

  /**
   * Throws the first conversion away, accumulates the next
   * `EffectiveCount(n)` in a 32-bit accumulator and returns the floor mean
   * truncated to 16 bits. Neither width ever truncates, so the result is
   * the exact floor mean of the window and stays within its range.
   */
  method ReadRawAvg(n: U16, conv: seq<Sample>) returns (raw: U16)
    requires EffectiveCount(n) < |conv|
    ensures raw == Mean(Window(n, conv))
    ensures Min(Window(n, conv)) <= raw <= Max(Window(n, conv))
    ensures raw <= FullScale
  {
    var count := if n == 0 then 1 else n;
    var acc: nat := 0;
    var i := 0;
    while i < count
      invariant i <= count
      invariant acc == Sum(conv[1..i + 1])
    {
      var w := conv[1..i + 2];
      assert w[..i] == conv[1..i + 1];
      AccumulatorFits(w);
      ModSmall(acc + conv[i + 1], U32Limit);
      acc := (acc + conv[i + 1]) % U32Limit;
      i := i + 1;
    }
    var w := Window(n, conv);
    assert acc == Sum(w);
    MeanWithinRange(w);
    assert acc / count == Mean(w);
    ModSmall(acc / count, U16Limit);
    raw := (acc / count) % U16Limit;
  }

  // ---------------------------------------------------------------------
  // Scaling to millivolts

  /**
   * `raw * vref / 4095` with the product formed in 64 bits and the quotient
   * cast to 32 bits. The product never wraps for any 16-bit raw value; the
   * cast can wrap only above 12 bits, which no averaged reading reaches. For
   * a 12-bit raw value the result is the floor of the exact scaling, at most
   * vref, zero at zero and exactly vref at full scale.
   */
  function Millivolts(raw: U16, vrefMv: U32): (mv: U32)
    ensures mv == raw * vrefMv / FullScale % U32Limit
    ensures raw <= FullScale ==> mv == raw * vrefMv / FullScale
    ensures raw <= FullScale ==> mv <= vrefMv
    ensures raw == 0 ==> mv == 0
    ensures raw == FullScale ==> mv == vrefMv
  {
    var p := raw * vrefMv;
    ScalingNeverWraps(raw, vrefMv, p);
    (p % U64Limit) / FullScale % U32Limit
  }

  /** The 64-bit product never wraps, and a 12-bit reading scales to at most vref. */
  lemma ScalingNeverWraps(raw: U16, vrefMv: U32, p: nat)
    requires p == raw * vrefMv
    ensures p % U64Limit == p
    ensures raw <= FullScale ==> p / FullScale % U32Limit == p / FullScale <= vrefMv
    ensures raw == 0 ==> p == 0
    ensures raw == FullScale ==> p / FullScale == vrefMv
  {
    ProductFits(raw, vrefMv);
    ModSmall(p, U64Limit);
    MulMonotone(raw, FullScale, vrefMv);
    if raw <= FullScale {
      DivUpper(p, FullScale, vrefMv);
      ModSmall(p / FullScale, U32Limit);
    }
    if raw == FullScale {
      DivBounds(p, FullScale, vrefMv, vrefMv);
    }
  }

  lemma ProductFits(raw: U16, vrefMv: U32)
    ensures raw * vrefMv < U64Limit
  {
    MulMonotone(raw, U16Limit - 1, vrefMv);
    MulMonotone(vrefMv, U32Limit - 1, U16Limit - 1);
    assert (U16Limit - 1) * (U32Limit - 1) < U64Limit;
  }

  /** A larger raw reading never gives fewer millivolts. */
  lemma MillivoltsMonotone(raw1: U16, raw2: U16, vrefMv: U32)
    requires raw1 <= raw2 <= FullScale
    ensures Millivolts(raw1, vrefMv) <= Millivolts(raw2, vrefMv)
  {
    var p1, p2 := raw1 * vrefMv, raw2 * vrefMv;
    MulMonotone(raw1, raw2, vrefMv);
    DivMonotone(p1, p2, FullScale);
    assert Millivolts(raw1, vrefMv) == p1 / FullScale;
    assert Millivolts(raw2, vrefMv) == p2 / FullScale;
  }
}
