/**
 * What the outline of buildWavePathByVariant looks like: its frame (start at
 * the bottom-left corner, end at the bottom-right corner, then close), its
 * command counts, the sample points the crest passes through, the horizontal
 * extent of every command, the vertical range of the samples, and which clock
 * inputs each variant ignores.
 */
module WaveShape {
  import opened Js
  import opened SkiaPath
  import opened WaveTypes
  import opened WaveBuilder

  // ---------------------------------------------------------------------------
  // Span lists

  lemma {:induction false} JoinedLength(j: Joint, xs: seq<real>, ys: seq<real>, i: nat)
    requires |xs| == |ys| && 1 <= i <= |xs|
    ensures |Joined(j, xs, ys, i)| == (i - 1) * SpanLength(j)
    decreases i
  {
    if i > 1 {
      JoinedLength(j, xs, ys, i - 1);
    }
  }

  /** Command t of span m (the span from sample m-1 to sample m) sits at index (m-1)*L + t. */
  lemma {:induction false} JoinedSpanAt(j: Joint, xs: seq<real>, ys: seq<real>, i: nat, m: nat, t: nat)
    requires |xs| == |ys| && 1 <= m < i <= |xs| && t < SpanLength(j)
    ensures (m - 1) * SpanLength(j) + t < |Joined(j, xs, ys, i)|
    ensures Joined(j, xs, ys, i)[(m - 1) * SpanLength(j) + t] == SpanCmds(j, xs[m - 1], ys[m - 1], xs[m], ys[m])[t]
    decreases i
  {
    var len := SpanLength(j);
    JoinedLength(j, xs, ys, i - 1);
    JoinedLength(j, xs, ys, i);
    if m == i - 1 {
      assert (m - 1) * len == |Joined(j, xs, ys, i - 1)|;
    } else {
      JoinedSpanAt(j, xs, ys, i - 1, m, t);
    }
  }

  /** Every span ends on its sample point. */
  lemma JoinedSpanEnds(j: Joint, xs: seq<real>, ys: seq<real>, m: nat)
    requires |xs| == |ys| && 1 <= m < |xs|
    ensures m * SpanLength(j) - 1 < |Joined(j, xs, ys, |xs|)|
    ensures var cmd := Joined(j, xs, ys, |xs|)[m * SpanLength(j) - 1];
      !cmd.Close? && cmd.End() == (xs[m], ys[m])
  {
    var len := SpanLength(j);
    JoinedSpanAt(j, xs, ys, |xs|, m, len - 1);
    assert (m - 1) * len + (len - 1) == m * len - 1;
  }

  // ---------------------------------------------------------------------------
  // Sample coordinates

  lemma SampleXStep(width: real, n: nat, i: nat)
    requires n >= 2
    ensures SampleX(width, n, i + 1) == SampleX(width, n, i) + SegmentWidth(width, n)
  {
    var sw := SegmentWidth(width, n);
    assert (i + 1) as real * sw == i as real * sw + sw;
  }

  /** The last sample sits exactly on the right edge. */
  lemma LastSampleX(width: real, n: nat)
    requires n >= 2
    ensures SampleX(width, n, n - 1) == width
  {
    var d := (n - 1) as real;
    assert d * (width / d) == width;
  }

  /** xs starts at 0, ends at width, and rises by one segment width per sample. */
  lemma XsShape(width: real, n: nat)
    requires n >= 2
    ensures var xs := Xs(width, n);
      && |xs| == n && xs[0] == 0.0 && xs[n - 1] == width
      && (forall k :: 0 <= k < n - 1 ==> xs[k + 1] == xs[k] + SegmentWidth(width, n))
  {
    LastSampleX(width, n);
    forall k | 0 <= k < n - 1
      ensures Xs(width, n)[k + 1] == Xs(width, n)[k] + SegmentWidth(width, n)
    {
      SampleXStep(width, n, k);
    }
  }

  lemma SampleXWithin(width: real, n: nat, i: nat)
    requires n >= 2 && i < n && width >= 0.0
    ensures 0.0 <= SampleX(width, n, i) <= width
  {
    var sw := SegmentWidth(width, n);
    var d := (n - 1) as real;
    assert sw >= 0.0;
    assert i as real <= d;
    calc {
      SampleX(width, n, i);
    ==
      i as real * sw;
    <= { MulLe(sw, i as real, d); }
      d * sw;
    == { LastSampleX(width, n); }
      width;
    }
  }

  /** For a positive width, xs is strictly increasing. */
  lemma XsIncreasing(width: real, n: nat, i: nat, k: nat)
    requires n >= 2 && width > 0.0 && i < k < n
    ensures Xs(width, n)[i] < Xs(width, n)[k]
  {
    var sw := SegmentWidth(width, n);
    assert sw > 0.0;
    assert k as real * sw - i as real * sw == (k - i) as real * sw;
  }

  // ---------------------------------------------------------------------------
  // The outline frame

  /** How many commands each sample after the first adds to the crest. */
  function CrestStep(v: Variant, a: PathArgs): nat {
    if UsesSmoothCrest(v) then 1 else SpanLength(JointOf(v, a, PointCount(v)))
  }

  /**
   * The crest passes through every sample after the first, in order: the
   * command closing step m ends on sample m, and the crest is exactly N-1
   * steps long, so its last command ends on the last sample.
   */
  lemma CrestVisitsSamples(v: Variant, a: PathArgs, xs: seq<real>, ys: seq<real>, m: nat)
    requires v != Pulse && |xs| == |ys| == PointCount(v) && 1 <= m < |xs|
    ensures |Crest(v, a, xs, ys)| == (|xs| - 1) * CrestStep(v, a)
    ensures m * CrestStep(v, a) - 1 < |Crest(v, a, xs, ys)|
    ensures var cmd := Crest(v, a, xs, ys)[m * CrestStep(v, a) - 1];
      !cmd.Close? && cmd.End() == (xs[m], ys[m])
  {
    if !UsesSmoothCrest(v) {
      var j := JointOf(v, a, |xs|);
      JoinedLength(j, xs, ys, |xs|);
      JoinedSpanEnds(j, xs, ys, m);
    }
  }

  lemma CrestOutlineFrame(v: Variant, a: PathArgs, xs: seq<real>, ys: seq<real>)
    requires v != Pulse && |xs| == |ys| == PointCount(v)
    requires xs[0] == 0.0 && xs[|xs| - 1] == a.width
    ensures var o := CrestOutline(v, a, xs, ys); var n := PointCount(v);
      && (UsesSmoothCrest(v) ==> |o| == n + 3)
      && (v == Square ==> |o| == 3 * n + 1)
      && (v == Rounded || v == Choppy ==> |o| == 2 * n + 2)
      && o[1] == Line(0.0, ys[0])
      && !o[|o| - 3].Close? && o[|o| - 3].End() == (a.width, ys[|ys| - 1])
  {
    var n := |xs|;
    var crest := Crest(v, a, xs, ys);
    CrestVisitsSamples(v, a, xs, ys, n - 1);
    var o := CrestOutline(v, a, xs, ys);
    assert |o| == |crest| + 4;
    var step := CrestStep(v, a);
    assert |crest| == (n - 1) * step;
    if UsesSmoothCrest(v) {
      assert step == 1;
      assert |crest| == n - 1;
    } else if v == Square {
      assert step == 3;
      assert |crest| == 3 * n - 3;
    } else {
      assert step == 2;
      assert |crest| == 2 * n - 2;
    }
    assert o[|o| - 3] == crest[|crest| - 1];
  }

  /**
   * Every outline starts at the bottom-left corner, draws up to its first
   * point on the left edge, reaches the right edge with the last crest
   * command, then draws down to the bottom-right corner and closes.
   * The command counts are 6 for pulse, N+3 for the Catmull-Rom variants,
   * 3N+1 for square and 2N+2 for rounded and choppy, N being the sample count.
   */
  lemma OutlineFrame(sin: Sine, v: Variant, a: PathArgs)
    ensures var o := Outline(sin, v, a); var n := PointCount(v);
      && (v == Pulse ==> |o| == 6)
      && (UsesSmoothCrest(v) ==> |o| == n + 3)
      && (v == Square ==> |o| == 3 * n + 1)
      && (v == Rounded || v == Choppy ==> |o| == 2 * n + 2)
      && o[0] == Move(0.0, a.height)
      && o[1].Line? && o[1].x == 0.0
      && !o[|o| - 3].Close? && o[|o| - 3].End().0 == a.width
      && o[|o| - 2] == Line(a.width, a.height)
      && o[|o| - 1] == Close
  {
    if v != Pulse {
      var n := PointCount(v);
      var xs, ys := Xs(a.width, n), Ys(sin, v, a, n);
      XsShape(a.width, n);
      CrestOutlineFrame(v, a, xs, ys);
    }
  }

  // ---------------------------------------------------------------------------
  // Horizontal extent

  /** Every command of a span lies between the span's two sample x values. */
  lemma SpanWithin(j: Joint, prevX: real, prevY: real, x: real, y: real, k: nat)
    requires prevX <= x && k < SpanLength(j)
    requires j.HandleJoint? ==> 0.0 <= j.handle <= (x - prevX) / 2.0
    ensures k < |SpanCmds(j, prevX, prevY, x, y)|
    ensures SpanCmds(j, prevX, prevY, x, y)[k].XWithin(prevX, x)
  {
  }

  /** Evenly spaced sample x values, one segment width apart, all inside [0, width]. */
  ghost predicate Grid(xs: seq<real>, sw: real, width: real) {
    && sw >= 0.0
    && (forall k :: 0 <= k < |xs| ==> 0.0 <= xs[k] <= width)
    && (forall k :: 0 <= k < |xs| - 1 ==> xs[k + 1] == xs[k] + sw)
  }

  lemma {:induction false} JoinedWithin(j: Joint, xs: seq<real>, ys: seq<real>, i: nat, sw: real, width: real)
    requires |xs| == |ys| && 1 <= i <= |xs| && Grid(xs, sw, width)
    requires j.HandleJoint? ==> 0.0 <= j.handle <= sw / 2.0
    ensures forall c :: c in Joined(j, xs, ys, i) ==> c.XWithin(0.0, width)
    decreases i
  {
    if i > 1 {
      JoinedWithin(j, xs, ys, i - 1, sw, width);
      var span := SpanCmds(j, xs[i - 2], ys[i - 2], xs[i - 1], ys[i - 1]);
      assert xs[i - 1] == xs[i - 2] + sw;
      forall k | 0 <= k < |span|
        ensures span[k].XWithin(0.0, width)
      {
        SpanWithin(j, xs[i - 2], ys[i - 2], xs[i - 1], ys[i - 1], k);
      }
    }
  }

  /** A Catmull-Rom control point moves at most two thirds of a segment from its sample. */
  lemma SmoothSegmentWithin(xs: seq<real>, ys: seq<real>, sw: real, k: nat, width: real)
    requires |xs| == |ys| && k + 1 < |xs| && Grid(xs, sw, width)
    ensures SmoothSegment(xs, ys, k).XWithin(0.0, width)
  {
    var n := |xs|;
    var i0, i3 := ClampIndex(k - 1, n), ClampIndex(k + 2, n);
    assert xs[k + 1] == xs[k] + sw;
    assert xs[k + 1] - xs[i0] <= 2.0 * sw by {
      if k > 0 { assert xs[k] == xs[k - 1] + sw; }
    }
    assert xs[i3] - xs[k] <= 2.0 * sw by {
      if k + 2 < n { assert xs[k + 2] == xs[k + 1] + sw; }
    }
  }

  lemma HandleBound(sw: real, roundness: real)
    requires sw >= 0.0 && 0.0 <= roundness <= 1.0
    ensures 0.0 <= sw * 0.5 * roundness <= sw / 2.0
  {
    assert sw * 0.5 - sw * 0.5 * roundness == sw * 0.5 * (1.0 - roundness);
  }

  lemma SmoothCrestWithin(xs: seq<real>, ys: seq<real>, sw: real, width: real)
    requires |xs| == |ys| && Grid(xs, sw, width)
    ensures forall c :: c in SmoothCrest(xs, ys) ==> c.XWithin(0.0, width)
  {
    var crest := SmoothCrest(xs, ys);
    forall c | c in crest
      ensures c.XWithin(0.0, width)
    {
      var k :| 0 <= k < |crest| && crest[k] == c;
      SmoothSegmentWithin(xs, ys, sw, k, width);
    }
  }

  /** The crest of a sampled variant over an even grid stays within [0, width]. */
  lemma CrestWithin(v: Variant, a: PathArgs, xs: seq<real>, ys: seq<real>)
    requires v != Pulse && |xs| == |ys| == PointCount(v)
    requires Grid(xs, SegmentWidth(a.width, |xs|), a.width) && 0.0 <= a.roundness <= 1.0
    ensures forall c :: c in Crest(v, a, xs, ys) ==> c.XWithin(0.0, a.width)
  {
    var sw := SegmentWidth(a.width, |xs|);
    if UsesSmoothCrest(v) {
      SmoothCrestWithin(xs, ys, sw, a.width);
    } else {
      HandleBound(sw, a.roundness);
      assert 0.0 <= sw * 0.5 * a.roundness <= sw / 2.0;
      var j := JointOf(v, a, |xs|);
      assert j.HandleJoint? ==> j.handle == sw * 0.5 * a.roundness;
      JoinedWithin(j, xs, ys, |xs|, sw, a.width);
    }
  }

  lemma CrestOutlineWithin(v: Variant, a: PathArgs, xs: seq<real>, ys: seq<real>)
    requires v != Pulse && |xs| == |ys| == PointCount(v)
    requires Grid(xs, SegmentWidth(a.width, |xs|), a.width) && 0.0 <= a.roundness <= 1.0
    ensures forall c :: c in CrestOutline(v, a, xs, ys) ==> c.XWithin(0.0, a.width)
  {
    CrestWithin(v, a, xs, ys);
    var crest := Crest(v, a, xs, ys);
    assert Line(xs[0], ys[0]).XWithin(0.0, a.width);
    assert Line(a.width, a.height).XWithin(0.0, a.width);
    assert forall c :: c in CrestOutline(v, a, xs, ys) ==>
      (c in crest || c == Move(0.0, a.height) || c == Line(xs[0], ys[0]) || c == Line(a.width, a.height) || c == Close);
  }

  /**
   * For a non-negative width and a roundness in [0, 1], every command of
   * every outline, control points included, stays within [0, width].
   */
  lemma OutlineWithinWidth(sin: Sine, v: Variant, a: PathArgs)
    requires a.width >= 0.0 && 0.0 <= a.roundness <= 1.0
    ensures forall c :: c in Outline(sin, v, a) ==> c.XWithin(0.0, a.width)
  {
    if v != Pulse {
      var n := PointCount(v);
      var xs := Xs(a.width, n);
      XsShape(a.width, n);
      forall k | 0 <= k < n
        ensures 0.0 <= xs[k] <= a.width
      {
        SampleXWithin(a.width, n, k);
      }
      CrestOutlineWithin(v, a, xs, Ys(sin, v, a, n));
    }
  }

  // ---------------------------------------------------------------------------
  // Vertical range of the samples

  lemma MulUnit(s: real, e: real)
    requires -1.0 <= s <= 1.0 && 0.0 <= e <= 1.0
    ensures -1.0 <= s * e <= 1.0
  {
    var y := s * e;
    if s >= 0.0 {
      MulLeRight(e, 0.0, s, 0.0 * e, y);
      MulLeRight(e, s, 1.0, y, 1.0 * e);
    } else {
      MulLeRight(e, -1.0, s, -1.0 * e, y);
      MulLeRight(e, s, 0.0, y, 0.0 * e);
    }
  }

  lemma ScaledBound(s: real, h: real, m: real)
    requires -1.0 <= s <= 1.0 && h >= 0.0 && m >= 0.0
    ensures -(h * m) <= s * h * m <= h * m
  {
    var hm := h * m;
    assert hm >= 0.0;
    assert s * h * m == s * hm;
    MulLe(hm, s, 1.0);
    MulLe(hm, -1.0, s);
  }

  /** A height base + s*h*m with |s| <= 1 lies within h*m of the base. */
  lemma HeightBound(s: real, base: real, h: real, m: real, y: real)
    requires -1.0 <= s <= 1.0 && h >= 0.0 && m >= 0.0 && y == base + s * h * m
    ensures base - h * m <= y <= base + h * m
    ensures s == 1.0 ==> y == base + h * m
    ensures s == -1.0 ==> y == base - h * m
  {
    ScaledBound(s, h, m);
  }

  /** Each column's horizontal position, as a ratio of the width, lies in [0, 1]. */
  lemma XRatioUnit(i: nat, n: nat)
    requires n >= 2 && i < n
    ensures 0.0 <= i as real / (n - 1) as real <= 1.0
  {
    var d := (n - 1) as real;
    assert i as real <= d;
    assert i as real / d <= d / d;
  }

  /**
   * With |sin| <= 1 every unit sample lies in [-1, 1] (the ripple envelope
   * lies in [0.35, 1] across the width); square samples are exactly +1 or -1
   * whatever sin returns.
   */
  lemma SampleWaveBounded(sin: Sine, v: Variant, tRad: real, tContinuousRad: real,
                          phaseOffsetRad: real, phaseProgress: real, xRatio: real)
    requires SineBounded(sin) && 0.0 <= xRatio <= 1.0
    ensures var s := SampleWave(sin, v, tRad, tContinuousRad, phaseOffsetRad, phaseProgress, xRatio);
      -1.0 <= s <= 1.0
  {
    if v == Ripple {
      var phase := tRad + phaseProgress * TAU + phaseOffsetRad;
      var envelope := 0.35 + 0.65 * (1.0 - Abs(xRatio - 0.5) * 2.0);
      assert 0.35 <= envelope <= 1.0;
      MulUnit(sin(phase), envelope);
    }
  }

  lemma SquareSampleUnit(sin: Sine, tRad: real, tContinuousRad: real,
                         phaseOffsetRad: real, phaseProgress: real, xRatio: real)
    ensures var s := SampleWave(sin, Square, tRad, tContinuousRad, phaseOffsetRad, phaseProgress, xRatio);
      s == 1.0 || s == -1.0
    ensures var s := SampleWave(sin, Square, tRad, tContinuousRad, phaseOffsetRad, phaseProgress, xRatio);
      s == 1.0 <==> sin(tRad + phaseProgress * TAU + phaseOffsetRad) >= 0.0
  {
  }

  /**
   * With |sin| <= 1 and a non-negative wave height, every sample of a
   * sampled variant lies within waveHeight times the variant's amplitude
   * multiplier of the base line; square samples sit exactly on one of the two
   * extremes.
   */
  lemma YsWithinAmplitude(sin: Sine, v: Variant, a: PathArgs, k: nat)
    requires SineBounded(sin) && a.waveHeight >= 0.0 && v != Pulse && k < PointCount(v)
    ensures var y := SampleY(sin, v, a, PointCount(v), k); var amp := a.waveHeight * AmplitudeMultiplier(v);
      && a.baseY - amp <= y <= a.baseY + amp
      && (v == Square ==> y == a.baseY + amp || y == a.baseY - amp)
  {
    var n := PointCount(v);
    XRatioUnit(k, n);
    SampleWaveBounded(sin, v, a.tRad, a.tContinuousRad, a.phaseOffsetRad, PhaseProgress(v, k, n), k as real / (n - 1) as real);
    if v == Square {
      SquareSampleUnit(sin, a.tRad, a.tContinuousRad, a.phaseOffsetRad, PhaseProgress(v, k, n), k as real / (n - 1) as real);
    }
    ColumnHeight(sin, v, a, n, k);
  }

  /** The height of one column, given the range of its unit sample. */
  lemma ColumnHeight(sin: Sine, v: Variant, a: PathArgs, n: nat, k: nat)
    requires a.waveHeight >= 0.0 && n >= 2
    ensures var s := SampleWave(sin, v, a.tRad, a.tContinuousRad, a.phaseOffsetRad, PhaseProgress(v, k, n), k as real / (n - 1) as real);
      var y := SampleY(sin, v, a, n, k); var amp := a.waveHeight * AmplitudeMultiplier(v);
      -1.0 <= s <= 1.0 ==>
        && a.baseY - amp <= y <= a.baseY + amp
        && (s == 1.0 ==> y == a.baseY + amp)
        && (s == -1.0 ==> y == a.baseY - amp)
  {
    var s := SampleWave(sin, v, a.tRad, a.tContinuousRad, a.phaseOffsetRad, PhaseProgress(v, k, n), k as real / (n - 1) as real);
    if -1.0 <= s <= 1.0 {
      HeightBound(s, a.baseY, a.waveHeight, AmplitudeMultiplier(v), SampleY(sin, v, a, n, k));
    }
  }

  /** The pulse's edges stay within 0.3 and its peak within 1.8 wave heights of the base line. */
  lemma PulseHeights(sin: Sine, a: PathArgs)
    requires SineBounded(sin) && a.waveHeight >= 0.0
    ensures a.baseY - a.waveHeight * 0.3 <= PulseLeftY(sin, a) <= a.baseY + a.waveHeight * 0.3
    ensures a.baseY - a.waveHeight * 1.8 <= PulsePeakY(sin, a) <= a.baseY + a.waveHeight * 1.8
    ensures a.baseY - a.waveHeight * 0.3 <= PulseRightY(sin, a) <= a.baseY + a.waveHeight * 0.3
  {
    HeightBound(sin(a.tRad + a.phaseOffsetRad), a.baseY, a.waveHeight, 0.3, PulseLeftY(sin, a));
    HeightBound(sin(a.tRad + a.phaseOffsetRad + PI * 0.5), a.baseY, a.waveHeight, 1.8, PulsePeakY(sin, a));
    HeightBound(sin(a.tRad + a.phaseOffsetRad + PI), a.baseY, a.waveHeight, 0.3, PulseRightY(sin, a));
  }

  // ---------------------------------------------------------------------------
  // Which inputs each variant reads

  /**
   * Two argument sets give the same outline of a sampled variant when they
   * agree on the canvas size, on the roundness where the variant reads it, and
   * on every column's sample.
   */
  lemma SameOutline(sin: Sine, v: Variant, a: PathArgs, b: PathArgs)
    requires v != Pulse && a.width == b.width && a.height == b.height
    requires v == Rounded ==> a.roundness == b.roundness
    requires forall k: nat :: k < PointCount(v) ==> SampleY(sin, v, a, PointCount(v), k) == SampleY(sin, v, b, PointCount(v), k)
    ensures Outline(sin, v, a) == Outline(sin, v, b)
  {
    var n := PointCount(v);
    assert Ys(sin, v, a, n) == Ys(sin, v, b, n) by {
      assert forall k | 0 <= k < n :: Ys(sin, v, a, n)[k] == Ys(sin, v, b, n)[k];
    }
    assert JointOf(v, a, n) == JointOf(v, b, n) || UsesSmoothCrest(v);
  }

  /** The pulse reads neither the continuous clock angle nor the roundness. */
  lemma SamePulse(sin: Sine, a: PathArgs, b: PathArgs)
    requires a.(tContinuousRad := 0.0, roundness := 0.0) == b.(tContinuousRad := 0.0, roundness := 0.0)
    ensures Outline(sin, Pulse, a) == Outline(sin, Pulse, b)
  {
    assert a.width == b.width && a.height == b.height && a.baseY == b.baseY;
    assert a.waveHeight == b.waveHeight && a.tRad == b.tRad && a.phaseOffsetRad == b.phaseOffsetRad;
    assert PulseLeftY(sin, a) == PulseLeftY(sin, b);
    assert PulsePeakY(sin, a) == PulsePeakY(sin, b);
    assert PulseRightY(sin, a) == PulseRightY(sin, b);
  }

  /** Only the travel variant reads the continuous clock angle. */
  lemma OutlineIgnoresContinuousClock(sin: Sine, v: Variant, a: PathArgs, t: real)
    requires v != Travel
    ensures Outline(sin, v, a.(tContinuousRad := t)) == Outline(sin, v, a)
  {
    if v != Pulse {
      var n := PointCount(v);
      var b := a.(tContinuousRad := t);
      forall k: nat | k < n
        ensures SampleY(sin, v, b, n, k) == SampleY(sin, v, a, n, k)
      {
        SampleIgnoresContinuousClock(sin, v, a, b, n, k);
      }
      SameOutline(sin, v, b, a);
    } else {
      SamePulse(sin, a.(tContinuousRad := t), a);
    }
  }

  lemma SampleIgnoresContinuousClock(sin: Sine, v: Variant, a: PathArgs, b: PathArgs, n: nat, k: nat)
    requires v != Travel && n >= 2
    requires b == a.(tContinuousRad := b.tContinuousRad)
    ensures SampleY(sin, v, b, n, k) == SampleY(sin, v, a, n, k)
  {
    var xRatio := k as real / (n - 1) as real;
    var pp := PhaseProgress(v, k, n);
    assert SampleWave(sin, v, b.tRad, b.tContinuousRad, b.phaseOffsetRad, pp, xRatio)
        == SampleWave(sin, v, a.tRad, a.tContinuousRad, a.phaseOffsetRad, pp, xRatio);
  }

  /** The travel variant ignores the wrapped clock angle. */
  lemma TravelIgnoresWrappedClock(sin: Sine, a: PathArgs, t: real)
    ensures Outline(sin, Travel, a.(tRad := t)) == Outline(sin, Travel, a)
  {
    var n := PointCount(Travel);
    var b := a.(tRad := t);
    forall k: nat | k < n
      ensures SampleY(sin, Travel, b, n, k) == SampleY(sin, Travel, a, n, k)
    {
      var xRatio := k as real / (n - 1) as real;
      var pp := PhaseProgress(Travel, k, n);
      assert SampleWave(sin, Travel, t, b.tContinuousRad, b.phaseOffsetRad, pp, xRatio)
          == SampleWave(sin, Travel, a.tRad, a.tContinuousRad, a.phaseOffsetRad, pp, xRatio);
    }
    SameOutline(sin, Travel, b, a);
  }

  /** Only the rounded variant reads the roundness. */
  lemma OutlineIgnoresRoundness(sin: Sine, v: Variant, a: PathArgs, r: real)
    requires v != Rounded
    ensures Outline(sin, v, a.(roundness := r)) == Outline(sin, v, a)
  {
    if v != Pulse {
      var n := PointCount(v);
      var b := a.(roundness := r);
      forall k: nat | k < n
        ensures SampleY(sin, v, b, n, k) == SampleY(sin, v, a, n, k)
      {
      }
      SameOutline(sin, v, b, a);
    } else {
      SamePulse(sin, a.(roundness := r), a);
    }
  }

  /**
   * The first sample always has phase progress 0; the last reaches a full
   * period (progress 1) exactly for the variants that divide by N-1, and falls
   * short of it for rounded, choppy and smooth, which divide by N.
   */
  lemma PhaseProgressEnds(v: Variant, n: nat)
    requires n >= 2
    ensures PhaseProgress(v, 0, n) == 0.0
    ensures PhaseProgress(v, n - 1, n) == 1.0 <==> !(v == Rounded || v == Choppy || v == Smooth)
    ensures PhaseProgress(v, n - 1, n) <= 1.0
  {
    var last := (n - 1) as real;
    if v == Rounded || v == Choppy || v == Smooth {
      var m := n as real;
      var p := last / m;
      assert p * m == last;
      if p >= 1.0 {
        MulLeRight(m, 1.0, p, m, last);
        assert false;
      }
      assert PhaseProgress(v, n - 1, n) == p < 1.0;
    } else {
      SelfRatio(last);
      assert PhaseProgress(v, n - 1, n) == last / last;
    }
  }

  lemma SelfRatio(x: real)
    requires x > 0.0
    ensures x / x == 1.0
  {
    var q := x / x;
    assert x * q == x;
    if q < 1.0 {
      MulStrict(x, q, 1.0);
      assert false;
    }
    if q > 1.0 {
      MulStrict(x, 1.0, q);
      assert false;
    }
  }
}
