/** The decay curve of the envelope generator: the 256-entry lookup table
    `DecayCurveLookup`, the interpolating lookup `get_curve` over a 16-bit
    phase, and the derivation of a per-tick phase increment (the "granule")
    from a 10-bit time parameter. */
module Curve {

  /** Eight consecutive table entries: one line of the firmware's table. */
  datatype Line = Line(e0: int, e1: int, e2: int, e3: int, e4: int, e5: int, e6: int, e7: int)
  {
    function At(c: int): int
      requires 0 <= c < 8
    {
      match c
      case 0 => e0 case 1 => e1 case 2 => e2 case 3 => e3
      case 4 => e4 case 5 => e5 case 6 => e6 case _ => e7
    }
  }

  /** Line `r` of the table: entries 8r .. 8r+7. */
  function TableLine(r: int): Line
  {
    match r
    case  0 => Line(65535, 63715, 61945, 60224, 58552, 56925, 55344, 53807)
    case  1 => Line(52312, 50859, 49447, 48073, 46738, 45440, 44178, 42951)
    case  2 => Line(41758, 40598, 39470, 38374, 37308, 36272, 35264, 34285)
    case  3 => Line(33332, 32406, 31506, 30631, 29780, 28953, 28149, 27367)
    case  4 => Line(26607, 25868, 25149, 24451, 23772, 23112, 22470, 21845)
    case  5 => Line(21239, 20649, 20075, 19518, 18975, 18448, 17936, 17438)
    case  6 => Line(16953, 16483, 16025, 15580, 15147, 14726, 14317, 13919)
    case  7 => Line(13533, 13157, 12792, 12436, 12091, 11755, 11428, 11111)
    case  8 => Line(10802, 10502, 10211,  9927,  9651,  9383,  9123,  8869)
    case  9 => Line( 8623,  8383,  8150,  7924,  7704,  7490,  7282,  7080)
    case 10 => Line( 6883,  6692,  6506,  6325,  6150,  5979,  5813,  5651)
    case 11 => Line( 5494,  5342,  5193,  5049,  4909,  4772,  4640,  4511)
    case 12 => Line( 4386,  4264,  4145,  4030,  3918,  3810,  3704,  3601)
    case 13 => Line( 3501,  3404,  3309,  3217,  3128,  3041,  2956,  2874)
    case 14 => Line( 2795,  2717,  2641,  2568,  2497,  2427,  2360,  2294)
    case 15 => Line( 2231,  2169,  2108,  2050,  1993,  1938,  1884,  1831)
    case 16 => Line( 1781,  1731,  1683,  1636,  1591,  1547,  1504,  1462)
    case 17 => Line( 1421,  1382,  1343,  1306,  1270,  1235,  1200,  1167)
    case 18 => Line( 1135,  1103,  1072,  1043,  1014,   986,   958,   932)
    case 19 => Line(  906,   880,   856,   832,   809,   787,   765,   744)
    case 20 => Line(  723,   703,   683,   664,   646,   628,   611,   594)
    case 21 => Line(  577,   561,   545,   530,   516,   501,   487,   474)
    case 22 => Line(  461,   448,   435,   423,   412,   400,   389,   378)
    case 23 => Line(  368,   357,   348,   338,   329,   319,   311,   302)
    case 24 => Line(  294,   285,   277,   270,   262,   255,   248,   241)
    case 25 => Line(  234,   228,   221,   215,   209,   204,   198,   192)
    case 26 => Line(  187,   182,   177,   172,   167,   162,   158,   154)
    case 27 => Line(  149,   145,   141,   137,   133,   130,   126,   123)
    case 28 => Line(  119,   116,   113,   110,   106,   104,   101,    98)
    case 29 => Line(   95,    92,    90,    87,    85,    83,    80,    78)
    case 30 => Line(   76,    74,    72,    70,    68,    66,    64,    62)
    case 31 => Line(   61,    59,    57,    56,    54,    53,    51,    50)
    case _ => Line(0, 0, 0, 0, 0, 0, 0, 0)
  }

  /** `DecayCurveLookup[k]`: a normalised exponential decay from 65535 towards 0. */
  function DecayCurveLookup(k: int): (r: int)
    requires 0 <= k < 256
    ensures 0 <= r < 0x1_0000
  {
    TableLine(k / 8).At(k % 8)
  }

  /** The entry after `k`, reading the (absent) entry 256 as 0. */
  function NextEntry(k: int): (r: int)
    requires 0 <= k < 256
    ensures 0 <= r < DecayCurveLookup(k)
  {
    TableEnds();
    if k < 255 then
      TableDecreasing(k, k + 1);
      DecayCurveLookup(k + 1)
    else
      0
  }

  // Sixteen slices of the table; the verifier checks each slice by unfolding
  // the table rows for the indices in range.

  lemma DecreasingChunk0()
    ensures forall k :: 0 <= k < 16 ==> DecayCurveLookup(k) > DecayCurveLookup(k + 1)
  {
  }

  lemma DecreasingChunk1()
    ensures forall k :: 16 <= k < 32 ==> DecayCurveLookup(k) > DecayCurveLookup(k + 1)
  {
  }

  lemma DecreasingChunk2()
    ensures forall k :: 32 <= k < 48 ==> DecayCurveLookup(k) > DecayCurveLookup(k + 1)
  {
  }

  lemma DecreasingChunk3()
    ensures forall k :: 48 <= k < 64 ==> DecayCurveLookup(k) > DecayCurveLookup(k + 1)
  {
  }

  lemma DecreasingChunk4()
    ensures forall k :: 64 <= k < 80 ==> DecayCurveLookup(k) > DecayCurveLookup(k + 1)
  {
  }

  lemma DecreasingChunk5()
    ensures forall k :: 80 <= k < 96 ==> DecayCurveLookup(k) > DecayCurveLookup(k + 1)
  {
  }

  lemma DecreasingChunk6()
    ensures forall k :: 96 <= k < 112 ==> DecayCurveLookup(k) > DecayCurveLookup(k + 1)
  {
  }

  lemma DecreasingChunk7()
    ensures forall k :: 112 <= k < 128 ==> DecayCurveLookup(k) > DecayCurveLookup(k + 1)
  {
  }

  lemma DecreasingChunk8()
    ensures forall k :: 128 <= k < 144 ==> DecayCurveLookup(k) > DecayCurveLookup(k + 1)
  {
  }

  lemma DecreasingChunk9()
    ensures forall k :: 144 <= k < 160 ==> DecayCurveLookup(k) > DecayCurveLookup(k + 1)
  {
  }

  lemma DecreasingChunk10()
    ensures forall k :: 160 <= k < 176 ==> DecayCurveLookup(k) > DecayCurveLookup(k + 1)
  {
  }

  lemma DecreasingChunk11()
    ensures forall k :: 176 <= k < 192 ==> DecayCurveLookup(k) > DecayCurveLookup(k + 1)
  {
  }

  lemma DecreasingChunk12()
    ensures forall k :: 192 <= k < 208 ==> DecayCurveLookup(k) > DecayCurveLookup(k + 1)
  {
  }

  lemma DecreasingChunk13()
    ensures forall k :: 208 <= k < 224 ==> DecayCurveLookup(k) > DecayCurveLookup(k + 1)
  {
  }

  lemma DecreasingChunk14()
    ensures forall k :: 224 <= k < 240 ==> DecayCurveLookup(k) > DecayCurveLookup(k + 1)
  {
  }

  lemma DecreasingChunk15()
    ensures forall k :: 240 <= k < 255 ==> DecayCurveLookup(k) > DecayCurveLookup(k + 1)
  {
  }

  /** Each entry of the table is strictly smaller than the one before it. */
  lemma TableStepsDown()
    ensures forall k :: 0 <= k < 255 ==> DecayCurveLookup(k) > DecayCurveLookup(k + 1)
  {
    DecreasingChunk0();
    DecreasingChunk1();
    DecreasingChunk2();
    DecreasingChunk3();
    DecreasingChunk4();
    DecreasingChunk5();
    DecreasingChunk6();
    DecreasingChunk7();
    DecreasingChunk8();
    DecreasingChunk9();
    DecreasingChunk10();
    DecreasingChunk11();
    DecreasingChunk12();
    DecreasingChunk13();
    DecreasingChunk14();
    DecreasingChunk15();
  }

  /** The table is strictly decreasing: a later entry is always smaller. */
  lemma {:induction false} TableDecreasing(i: int, j: int)
    requires 0 <= i <= j < 256
    ensures DecayCurveLookup(j) <= DecayCurveLookup(i)
    ensures i < j ==> DecayCurveLookup(j) < DecayCurveLookup(i)
    decreases j - i
  {
    if i < j {
      TableStepsDown();
      TableDecreasing(i, j - 1);
    }
  }

  /** The first entry is full scale, the last one 50. */
  lemma TableEnds()
    ensures DecayCurveLookup(0) == 65535 && DecayCurveLookup(255) == 50
  {
  }

  /** Every entry lies between the last one (50) and the first one (65535),
      and the entry after it (0 past the end) is smaller. */
  lemma TableRange(k: int)
    requires 0 <= k < 256
    ensures 50 <= DecayCurveLookup(k) <= 65535
    ensures 0 <= NextEntry(k) < DecayCurveLookup(k)
  {
    TableEnds();
    TableDecreasing(0, k);
    TableDecreasing(k, 255);
  }

  /** Linear interpolation from `prev` (at `fine == -1`) down to `next` (at
      `fine == 255`), truncated to an integer. */
  function Interpolate(prev: int, next: int, fine: int): (r: int)
    requires 0 <= next <= prev && 0 <= fine < 256
    ensures next <= r <= prev
    ensures 256 * (r - next) <= (prev - next) * (255 - fine) < 256 * (r - next + 1)
    ensures fine == 255 ==> r == next
  {
    FractionBounds(prev - next, 255 - fine);
    next + (prev - next) * (255 - fine) / 256
  }

  /** One step of `fine` lowers the interpolant by at most
      `(prev - next) / 256 + 1` and never raises it. */
  lemma InterpolateStep(prev: int, next: int, fine: int)
    requires 0 <= next <= prev && 0 <= fine < 255
    ensures Interpolate(prev, next, fine + 1) <= Interpolate(prev, next, fine)
              <= Interpolate(prev, next, fine + 1) + (prev - next) / 256 + 1
  {
    FractionStep(prev - next, 254 - fine);
  }

  /** At `fine == 0` the interpolant lies at most `(prev - next) / 256 + 1`
      below `prev`. */
  lemma InterpolateStart(prev: int, next: int)
    requires 0 <= next <= prev
    ensures prev - Interpolate(prev, next, 0) <= (prev - next) / 256 + 1
  {
    FractionStep(prev - next, 255);
  }

  /** `get_curve`: the curve at a 16-bit phase, interpolated linearly between
      entry `phase >> 8` and its successor by the low byte `phase & 0xFF`.
      The result is the exact interpolant truncated to an integer: every
      intermediate of the firmware's single-precision steps is an integer
      below 2^24, or such an integer divided by 256: the product
      `(prev - next) * (255 - fine)` stays below 2^24, and so does
      `256 * next` plus that product (see CurveArithmeticExact). So the float
      computation is exact. */
  function GetCurve(phase: int): (r: int)
    requires 0 <= phase < 0x1_0000
    ensures NextEntry(phase / 256) <= r <= DecayCurveLookup(phase / 256)
    ensures 256 * (r - NextEntry(phase / 256))
              <= (DecayCurveLookup(phase / 256) - NextEntry(phase / 256)) * (255 - phase % 256)
              < 256 * (r - NextEntry(phase / 256) + 1)
    ensures phase % 256 == 255 ==> r == NextEntry(phase / 256)
    ensures 0 <= r <= 65535
  {
    TableRange(phase / 256);
    Interpolate(DecayCurveLookup(phase / 256), NextEntry(phase / 256), phase % 256)
  }

  /** `d * w` with `w <= 255` is at most `255 * d`. */
  lemma ProductBound(d: int, w: int)
    requires 0 <= d && 0 <= w <= 255
    ensures 0 <= d * w <= 255 * d
  {
  }

  /** `d * w / 256` with `w <= 255` is a fraction of `d`. */
  lemma FractionBounds(d: int, w: int)
    requires 0 <= d && 0 <= w <= 255
    ensures 0 <= d * w / 256 <= d
    ensures w == 0 ==> d * w / 256 == 0
  {
    ProductBound(d, w);
  }

  /** Raising the weight `w` by one raises `d * w / 256` by at most
      `d / 256 + 1` and never lowers it. */
  lemma FractionStep(d: int, w: int)
    requires 0 <= d && 0 <= w <= 255
    ensures d * w / 256 <= d * (w + 1) / 256 <= d * w / 256 + d / 256 + 1
  {
    assert d * (w + 1) == d * w + d;
    ProductBound(d, w);
  }

  /** The single-precision steps of `get_curve` are exact: the product
      `(prev - next) * (255 - fine)` and the interpolant scaled by 256 both
      stay below 2^24, the width of a float's significand. */
  lemma CurveArithmeticExact(phase: int)
    requires 0 <= phase < 0x1_0000
    ensures var key := phase / 256;
      var d := DecayCurveLookup(key) - NextEntry(key);
      && 0 <= d * (255 - phase % 256) < 0x100_0000
      && 256 * NextEntry(key) + d * (255 - phase % 256) < 0x100_0000
  {
    var key := phase / 256;
    TableRange(key);
    ProductBound(DecayCurveLookup(key) - NextEntry(key), 255 - phase % 256);
  }

  /** One step forward in phase never raises the curve, also where the phase
      crosses from one table segment into the next. */
  lemma CurveStep(phase: int)
    requires 0 <= phase < 0xFFFF
    ensures GetCurve(phase + 1) <= GetCurve(phase)
  {
    var key := phase / 256;
    if phase % 256 < 255 {
      assert (phase + 1) / 256 == key && (phase + 1) % 256 == phase % 256 + 1;
      TableRange(key);
      InterpolateStep(DecayCurveLookup(key), NextEntry(key), phase % 256);
    } else {
      assert (phase + 1) / 256 == key + 1 && key < 255;
    }
  }

  /** `get_curve` is non-increasing over all 65536 phases. */
  lemma {:induction false} CurveNonIncreasing(p: int, q: int)
    requires 0 <= p <= q < 0x1_0000
    ensures GetCurve(q) <= GetCurve(p)
    decreases q - p
  {
    if p < q {
      CurveNonIncreasing(p, q - 1);
      CurveStep(q - 1);
    }
  }

  /** The curve has no jumps: one step in phase lowers it by at most 1/256 of
      the drop across the segment the new phase lies in, plus one for
      truncation. This holds at segment boundaries too. */
  lemma CurveContinuous(phase: int)
    requires 0 <= phase < 0xFFFF
    ensures var key := (phase + 1) / 256;
      GetCurve(phase) - GetCurve(phase + 1) <= (DecayCurveLookup(key) - NextEntry(key)) / 256 + 1
  {
    var key := phase / 256;
    if phase % 256 < 255 {
      assert (phase + 1) / 256 == key && (phase + 1) % 256 == phase % 256 + 1;
      TableRange(key);
      InterpolateStep(DecayCurveLookup(key), NextEntry(key), phase % 256);
    } else {
      assert (phase + 1) / 256 == key + 1 && (phase + 1) % 256 == 0 && key < 255;
      TableRange(key + 1);
      InterpolateStart(DecayCurveLookup(key + 1), NextEntry(key + 1));
    }
  }

  /** The phase increment per tick for a 10-bit time parameter: entry
      `param / 4` of the table divided by 256, raised to 1 where that is 0 so
      that every ramp makes progress. */
  function Granule(param: int): (g: int)
    requires 0 <= param < 1024
    ensures 1 <= g <= 255
    ensures DecayCurveLookup(param / 4) >= 256 ==> 256 * g <= DecayCurveLookup(param / 4) < 256 * (g + 1)
    ensures DecayCurveLookup(param / 4) < 256 ==> g == 1
  {
    TableRange(param / 4);
    var raw := DecayCurveLookup(param / 4) / 256;
    if raw == 0 then 1 else raw
  }

  /** A larger (slower) parameter never gives a larger granule; the fastest
      setting advances 255 per tick and the slowest 1. */
  lemma GranuleNonIncreasing(p: int, q: int)
    requires 0 <= p <= q < 1024
    ensures Granule(q) <= Granule(p)
    ensures Granule(0) == 255 && Granule(1023) == 1
  {
    TableDecreasing(p / 4, q / 4);
    assert DecayCurveLookup(0) == 65535 && DecayCurveLookup(255) == 50;
  }
}
