/**
 * The packed-light arithmetic of AoFaceData. A lightmap word keeps block light in bits 0-7
 * and sky light in bits 16-23. Java `int` values are integers in the `i32` range; bit
 * operations are written arithmetically: `w & 0xFF` is `w % 256` and `w >> 16` is the floor
 * division `w / 65536`, both exact on two's-complement words because Dafny's `/` and `%`
 * round toward negative infinity for a positive divisor.
 */
module PackedLight {
  import opened JavaInt

  /** `unpackBlockLight`: `w & 0xFF`. */
  function BlockLight(w: int): (r: int)
    ensures 0 <= r <= 255
  {
    w % 256
  }

  /** `unpackSkyLight`: `(w >> 16) & 0xFF`. */
  function SkyLight(w: int): (r: int)
    ensures 0 <= r <= 255
  {
    (w / 65536) % 256
  }

  /** `w & 0xFF00FF`: bits 0-7 and 16-23 of the word. */
  function ChannelMask(w: int): int
  {
    BlockLight(w) + SkyLight(w) * 65536
  }

  /** A word with no bit set outside `0xFF00FF`. */
  predicate ChannelsOnly(w: int)
  {
    ChannelMask(w) == w
  }

  /** Masking keeps both channels and clears every other bit. */
  lemma ChannelMaskKeepsChannels(w: int)
    ensures 0 <= ChannelMask(w) <= 0xFF00FF
    ensures BlockLight(ChannelMask(w)) == BlockLight(w)
    ensures SkyLight(ChannelMask(w)) == SkyLight(w)
    ensures ChannelsOnly(ChannelMask(w))
  {
    var b, s := BlockLight(w), SkyLight(w);
    var m := b + s * 65536;
    assert m == 256 * (s * 256) + b;
    assert m % 256 == b;
    assert m / 65536 == s;
  }

  /** A channels-only word is determined by its two channels. */
  lemma ChannelsDetermineWord(v: int, w: int)
    requires ChannelsOnly(v) && ChannelsOnly(w)
    requires BlockLight(v) == BlockLight(w) && SkyLight(v) == SkyLight(w)
    ensures v == w
  {
  }

  /** `minNonZero`: the smaller of its non-zero arguments; zero only when both are zero. */
  function MinNonZero(a: i32, b: i32): i32
  {
    if a == 0 then b else if b == 0 then a else Min(a, b)
  }

  /** `MinNonZero` picks one of its arguments, the least non-zero one, and is 0 only for two zeros. */
  lemma MinNonZeroIsLeastNonZero(a: i32, b: i32)
    ensures MinNonZero(a, b) == 0 <==> a == 0 && b == 0
    ensures MinNonZero(a, b) == a || MinNonZero(a, b) == b
    ensures a != 0 ==> MinNonZero(a, b) <= a
    ensures b != 0 ==> MinNonZero(a, b) <= b
  {
  }

  /** The four light samples of one corner, in the argument order of `calculateCornerBrightness`. */
  datatype Samples = Samples(a: i32, b: i32, c: i32, d: i32)
  {
    predicate HasZero() { a == 0 || b == 0 || c == 0 || d == 0 }
    predicate AllZero() { a == 0 && b == 0 && c == 0 && d == 0 }
    predicate AllNonNegative() { a >= 0 && b >= 0 && c >= 0 && d >= 0 }
  }

  /** `minNonZero(minNonZero(a, b), minNonZero(c, d))`: the smallest non-zero sample, or 0. */
  function SmallestNonZero(s: Samples): i32
  {
    MinNonZero(MinNonZero(s.a, s.b), MinNonZero(s.c, s.d))
  }

  /** The nested `minNonZero` chain yields the least non-zero sample, and 0 only when all are 0. */
  lemma SmallestNonZeroIsLeastNonZero(s: Samples)
    ensures SmallestNonZero(s) == 0 <==> s.AllZero()
    ensures var m := SmallestNonZero(s); m == s.a || m == s.b || m == s.c || m == s.d
    ensures s.a != 0 ==> SmallestNonZero(s) <= s.a
    ensures s.b != 0 ==> SmallestNonZero(s) <= s.b
    ensures s.c != 0 ==> SmallestNonZero(s) <= s.c
    ensures s.d != 0 ==> SmallestNonZero(s) <= s.d
  {
    MinNonZeroIsLeastNonZero(s.a, s.b);
    MinNonZeroIsLeastNonZero(s.c, s.d);
    MinNonZeroIsLeastNonZero(MinNonZero(s.a, s.b), MinNonZero(s.c, s.d));
  }

  /**
   * Zero lifting: when any sample is 0 every sample is raised to at least the smallest
   * non-zero sample, so an unlit neighbour does not darken a lit corner.
   */
  function Lift(s: Samples): Samples
  {
    if s.HasZero() then
      var m := SmallestNonZero(s);
      Samples(Max(s.a, m), Max(s.b, m), Max(s.c, m), Max(s.d, m))
    else
      s
  }

  /**
   * Lifting changes nothing without an unlit sample or with four; it never lowers a sample,
   * raises every sample to the smallest lit one, and leaves no unlit non-negative sample.
   */
  lemma LiftRaisesToSmallestLit(s: Samples)
    ensures !s.HasZero() || s.AllZero() ==> Lift(s) == s
    ensures Lift(s).a >= s.a && Lift(s).b >= s.b && Lift(s).c >= s.c && Lift(s).d >= s.d
    ensures s.AllNonNegative() && !s.AllZero() ==> !Lift(s).HasZero()
    ensures s.HasZero() ==>
              var m := SmallestNonZero(s);
              Lift(s).a >= m && Lift(s).b >= m && Lift(s).c >= m && Lift(s).d >= m
  {
    SmallestNonZeroIsLeastNonZero(s);
  }

  /** The emissive override: each flagged sample is replaced by the maximum light coordinate. */
  function Emit(s: Samples, aem: bool, bem: bool, cem: bool, dem: bool, maxLight: i32): Samples
  {
    Samples(if aem then maxLight else s.a, if bem then maxLight else s.b,
            if cem then maxLight else s.c, if dem then maxLight else s.d)
  }

  /** `((a + b + c + d) >> 2) & 0xFF00FF` with Java's wrapping `int` addition. */
  function Average(s: Samples): int
  {
    ChannelMask(Wrap(s.a + s.b + s.c + s.d) / 4)
  }

  /** `calculateCornerBrightness`: lifting on the original samples, then emission, then averaging. */
  function CornerBrightness(a: i32, b: i32, c: i32, d: i32,
                            aem: bool, bem: bool, cem: bool, dem: bool, maxLight: i32): int
  {
    Average(Emit(Lift(Samples(a, b, c, d)), aem, bem, cem, dem, maxLight))
  }

  /** The corner word never has a bit set outside `0xFF00FF`, whatever the inputs. */
  lemma CornerBrightnessChannelsOnly(a: i32, b: i32, c: i32, d: i32,
                                     aem: bool, bem: bool, cem: bool, dem: bool, maxLight: i32)
    ensures ChannelsOnly(CornerBrightness(a, b, c, d, aem, bem, cem, dem, maxLight))
    ensures 0 <= CornerBrightness(a, b, c, d, aem, bem, cem, dem, maxLight) <= 0xFF00FF
  {
    var s := Emit(Lift(Samples(a, b, c, d)), aem, bem, cem, dem, maxLight);
    ChannelMaskKeepsChannels(Wrap(s.a + s.b + s.c + s.d) / 4);
  }

  /**
   * The sum-then-shift trick: dividing a two-channel sum by four and masking yields each
   * channel's own quotient, because a channel sum of at most 1020 never carries into the
   * neighbouring channel.
   */
  lemma ShiftedSumSplits(lo: int, hi: int, w: int)
    requires 0 <= lo <= 1020 && 0 <= hi <= 1020 && w == lo + hi * 65536
    ensures BlockLight(w / 4) == lo / 4
    ensures SkyLight(w / 4) == hi / 4
  {
    var lq, lr, hq, hr := lo / 4, lo % 4, hi / 4, hi % 4;
    var q := lq + hq * 65536 + hr * 16384;
    QuotientOf(w, 4, q, lr);
    QuotientOf(q, 256, hq * 256 + hr * 64, lq);
    QuotientOf(q, 65536, hq, lq + hr * 16384);
    QuotientOf(hq, 256, 0, hq);
  }

  /** Division by a shift or mask width is determined by a quotient and a remainder in range. */
  lemma QuotientOf(x: int, d: int, q: int, r: int)
    requires d == 4 || d == 256 || d == 65536
    requires 0 <= r < d && x == d * q + r
    ensures x / d == q && x % d == r
  {
    if d == 4 {
    } else if d == 256 {
    } else {
    }
  }


  /** A channels-only word is its block channel plus its sky channel shifted to bits 16-23. */
  lemma ChannelsOnlySplit(w: int)
    requires ChannelsOnly(w)
    ensures w == BlockLight(w) + SkyLight(w) * 65536
  {
  }

  /** Four channels-only words add up channel by channel, each channel sum at most 1020. */
  lemma ChannelSum(s: Samples)
    requires ChannelsOnly(s.a) && ChannelsOnly(s.b) && ChannelsOnly(s.c) && ChannelsOnly(s.d)
    ensures var lo := BlockLight(s.a) + BlockLight(s.b) + BlockLight(s.c) + BlockLight(s.d);
            var hi := SkyLight(s.a) + SkyLight(s.b) + SkyLight(s.c) + SkyLight(s.d);
            s.a + s.b + s.c + s.d == lo + hi * 65536 && 0 <= lo <= 1020 && 0 <= hi <= 1020
  {
    ChannelsOnlySplit(s.a);
    ChannelsOnlySplit(s.b);
    ChannelsOnlySplit(s.c);
    ChannelsOnlySplit(s.d);
  }

  /** A sum that fits in an `int` is not wrapped before the shift. */
  lemma AverageWithoutOverflow(s: Samples)
    requires 0 <= s.a + s.b + s.c + s.d <= INT_MAX
    ensures Average(s) == ChannelMask((s.a + s.b + s.c + s.d) / 4)
  {
  }

  /** Two channel sums without carry average channel by channel. */
  lemma AverageChannels(s: Samples, lo: int, hi: int)
    requires s.a + s.b + s.c + s.d == lo + hi * 65536 && 0 <= lo <= 1020 && 0 <= hi <= 1020
    ensures BlockLight(Average(s)) == lo / 4 && SkyLight(Average(s)) == hi / 4
  {
    var sum := s.a + s.b + s.c + s.d;
    AverageWithoutOverflow(s);
    ShiftedSumSplits(lo, hi, sum);
    ChannelMaskKeepsChannels(sum / 4);
  }

  /** Four channels-only samples contribute, per channel, the floor of their mean. */
  lemma AverageIsChannelFloor(s: Samples)
    requires ChannelsOnly(s.a) && ChannelsOnly(s.b) && ChannelsOnly(s.c) && ChannelsOnly(s.d)
    ensures BlockLight(Average(s))
         == (BlockLight(s.a) + BlockLight(s.b) + BlockLight(s.c) + BlockLight(s.d)) / 4
    ensures SkyLight(Average(s))
         == (SkyLight(s.a) + SkyLight(s.b) + SkyLight(s.c) + SkyLight(s.d)) / 4
  {
    ChannelSum(s);
    AverageChannels(s, BlockLight(s.a) + BlockLight(s.b) + BlockLight(s.c) + BlockLight(s.d),
                    SkyLight(s.a) + SkyLight(s.b) + SkyLight(s.c) + SkyLight(s.d));
  }

  /**
   * With four non-zero, non-emissive channels-only inputs each output channel is the floor
   * of the mean of that channel.
   */
  lemma CornerBrightnessAveragesChannels(a: i32, b: i32, c: i32, d: i32, maxLight: i32)
    requires a != 0 && b != 0 && c != 0 && d != 0
    requires ChannelsOnly(a) && ChannelsOnly(b) && ChannelsOnly(c) && ChannelsOnly(d)
    ensures BlockLight(CornerBrightness(a, b, c, d, false, false, false, false, maxLight))
         == (BlockLight(a) + BlockLight(b) + BlockLight(c) + BlockLight(d)) / 4
    ensures SkyLight(CornerBrightness(a, b, c, d, false, false, false, false, maxLight))
         == (SkyLight(a) + SkyLight(b) + SkyLight(c) + SkyLight(d)) / 4
  {
    var s := Samples(a, b, c, d);
    assert Emit(Lift(s), false, false, false, false, maxLight) == s;
    AverageIsChannelFloor(s);
  }

  /** Four unlit, non-emissive samples give an unlit corner. */
  lemma AllZeroStaysZero(maxLight: i32)
    ensures CornerBrightness(0, 0, 0, 0, false, false, false, false, maxLight) == 0
  {
    var zero := Samples(0, 0, 0, 0);
    assert Emit(Lift(zero), false, false, false, false, maxLight) == zero;
    assert Wrap(0) == 0;
  }

  /** Four equal non-emissive channels-only inputs pass through unchanged, without rounding drift. */
  lemma EqualInputsPassThrough(v: i32, maxLight: i32)
    requires ChannelsOnly(v)
    ensures CornerBrightness(v, v, v, v, false, false, false, false, maxLight) == v
  {
    if v == 0 {
      AllZeroStaysZero(maxLight);
    } else {
      var r := CornerBrightness(v, v, v, v, false, false, false, false, maxLight);
      CornerBrightnessAveragesChannels(v, v, v, v, maxLight);
      CornerBrightnessChannelsOnly(v, v, v, v, false, false, false, false, maxLight);
      ChannelsDetermineWord(r, v);
    }
  }

  /** Unlit samples among copies of one lit value are lifted to it: the corner keeps that value. */
  lemma ZeroSamplesAreLifted(a: i32, b: i32, c: i32, d: i32, v: i32, maxLight: i32)
    requires ChannelsOnly(v)
    requires (a == 0 || a == v) && (b == 0 || b == v) && (c == 0 || c == v) && (d == 0 || d == v)
    ensures CornerBrightness(a, b, c, d, false, false, false, false, maxLight) == v
            || (a == 0 && b == 0 && c == 0 && d == 0)
    ensures a == 0 && b == 0 && c == 0 && d == 0 ==>
              CornerBrightness(a, b, c, d, false, false, false, false, maxLight) == 0
  {
    var s := Samples(a, b, c, d);
    if s.AllZero() {
      AllZeroStaysZero(maxLight);
    } else {
      assert SmallestNonZero(s) == v;
      assert Lift(s) == Samples(v, v, v, v);
      EqualInputsPassThrough(v, maxLight);
    }
  }

  /**
   * The own value of an emissive first sample never matters, not even through lifting, as
   * long as the other three samples are lit.
   */
  lemma EmissiveSampleValueIsIgnored(a1: i32, a2: i32, b: i32, c: i32, d: i32,
                                     bem: bool, cem: bool, dem: bool, maxLight: i32)
    requires b != 0 && c != 0 && d != 0
    ensures CornerBrightness(a1, b, c, d, true, bem, cem, dem, maxLight)
         == CornerBrightness(a2, b, c, d, true, bem, cem, dem, maxLight)
  {
    var s1, s2 := Samples(a1, b, c, d), Samples(a2, b, c, d);
    SmallestNonZeroIsLeastNonZero(s1);
    SmallestNonZeroIsLeastNonZero(s2);
    assert Lift(s1).b == b && Lift(s1).c == c && Lift(s1).d == d;
    assert Lift(s2).b == b && Lift(s2).c == c && Lift(s2).d == d;
    assert Emit(Lift(s1), true, bem, cem, dem, maxLight) == Emit(Lift(s2), true, bem, cem, dem, maxLight);
  }

  /**
   * Emission is applied after lifting: a lit emissive sample still lifts the unlit ones to
   * its original value, and only then counts as the maximum light coordinate.
   */
  lemma LiftingUsesOriginalValues(v: i32, maxLight: i32)
    requires v > 0
    ensures CornerBrightness(v, 0, 0, 0, true, false, false, false, maxLight)
         == Average(Samples(maxLight, v, v, v))
  {
    var s := Samples(v, 0, 0, 0);
    SmallestNonZeroIsLeastNonZero(s);
    assert Emit(Lift(s), true, false, false, false, maxLight) == Samples(maxLight, v, v, v);
  }
}
