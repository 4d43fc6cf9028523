/**
 * The first, fixed version of the loader: three rounded waves with
 * hard-coded layouts, and three path builders (rounded, choppy and smooth)
 * that take a wave index instead of a phase offset. Each builder is proved
 * to draw its own outline, and each outline is proved to be the outline the
 * configurable loader draws for the same variant.
 */
module LegacyWave {
  import opened Js
  import opened SkiaPath
  import opened WaveTypes
  import opened WaveBuilder
  import opened WaveShape
  import opened WaveConfig
  import opened WaveLayouts
  import opened WaveClock
  import opened WaveLoaderView

  const DURATION_MS: real := 4000.0
  const ROUND_MS: real := 2400.0
  const ROUND_MIN: real := 0.1
  const ROUND_MAX: real := 0.5

  /** The fixed loader's `width = 240, height = 80` defaults. */
  const LEGACY_WIDTH: real := 240.0
  const LEGACY_HEIGHT: real := 80.0

  /** The three waves, back to front: base line and height as shares of the canvas height. */
  const BASE_RATIOS: seq<real> := [0.35, 0.5, 0.65]
  const HEIGHT_RATIOS: seq<real> := [0.12, 0.15, 0.1]
  const OPACITIES: seq<real> := [0.2, 0.35, 0.5]
  const GRADIENT_STOPS: seq<real> := [0.7, 0.8, 0.9]
  const FADE_POSITIONS: seq<real> := [0.0, 0.3, 0.7, 1.0]

  function PhaseOffset(waveIndex: real): real {
    waveIndex * PI * 0.7
  }

  // ---------------------------------------------------------------------------
  // Samples

  /** The crest height at sample i of the rounded and choppy builders. */
  function LegacyY(sin: Sine, baseY: real, waveHeight: real, tRad: real, phaseOffset: real, n: nat, i: nat): real
    requires n >= 2
  {
    baseY + sin(tRad + (i as real / n as real) * PI * 2.0 + phaseOffset) * waveHeight
  }

  /** The smooth builder groups the phase before adding the clock angle. */
  function LegacySmoothY(sin: Sine, baseY: real, waveHeight: real, tRad: real, phaseOffset: real, n: nat, i: nat): real
    requires n >= 2
  {
    var phase := (i as real / n as real) * PI * 2.0 + phaseOffset;
    baseY + sin(tRad + phase) * waveHeight
  }

  /** The heights of the n samples, for n = POINTS in the builders. */
  function LegacyYs(sin: Sine, baseY: real, waveHeight: real, tRad: real, phaseOffset: real, n: nat): (ys: seq<real>)
    requires n >= 2
    ensures |ys| == n
  {
    seq(n, i requires 0 <= i < n => LegacyY(sin, baseY, waveHeight, tRad, phaseOffset, n, i))
  }

  function LegacySmoothYs(sin: Sine, baseY: real, waveHeight: real, tRad: real, phaseOffset: real, n: nat): (ys: seq<real>)
    requires n >= 2
    ensures |ys| == n
  {
    seq(n, i requires 0 <= i < n => LegacySmoothY(sin, baseY, waveHeight, tRad, phaseOffset, n, i))
  }

  // ---------------------------------------------------------------------------
  // Outlines

  /** Up the left edge to the first sample, the joined spans, down the right edge. */
  function QuadOutline(j: Joint, width: real, height: real, xs: seq<real>, ys: seq<real>): seq<Cmd>
    requires |xs| == |ys| >= 1
  {
    [Move(0.0, height), Line(0.0, ys[0])] + Joined(j, xs, ys, |xs|) + [Line(width, height), Close]
  }

  function RoundedOutline(sin: Sine, width: real, height: real, baseY: real, waveHeight: real,
                          tRad: real, waveIndex: real, roundness: real): seq<Cmd>
  {
    QuadOutline(HandleJoint(Handle(width, POINTS, roundness)), width, height,
      Xs(width, POINTS), LegacyYs(sin, baseY, waveHeight, tRad, PhaseOffset(waveIndex), POINTS))
  }

  function ChoppyOutline(sin: Sine, width: real, height: real, baseY: real, waveHeight: real,
                         tRad: real, waveIndex: real): seq<Cmd>
  {
    QuadOutline(MidJoint, width, height,
      Xs(width, POINTS), LegacyYs(sin, baseY, waveHeight, tRad, PhaseOffset(waveIndex), POINTS))
  }

  /** The Catmull-Rom cubic for span k, with its tangents scaled by `tension`. */
  function TensionSegment(xs: seq<real>, ys: seq<real>, k: nat, tension: real): Cmd
    requires |xs| == |ys| && k + 1 < |xs|
  {
    var n := |xs|;
    var i0, i1, i2, i3 := ClampIndex(k - 1, n), ClampIndex(k, n), ClampIndex(k + 1, n), ClampIndex(k + 2, n);
    Cubic(xs[i1] + Pull(xs[i2], xs[i0], tension), ys[i1] + Pull(ys[i2], ys[i0], tension),
          xs[i2] - Pull(xs[i3], xs[i1], tension), ys[i2] - Pull(ys[i3], ys[i1], tension),
          xs[i2], ys[i2])
  }

  /** ((to - from) / 6) * tension: how far a control point leans towards the neighbours' direction. */
  function Pull(to: real, from: real, tension: real): real {
    ((to - from) / 6.0) * tension
  }

  function TensionCrest(xs: seq<real>, ys: seq<real>, tension: real): (r: seq<Cmd>)
    requires |xs| == |ys| >= 1
    ensures |r| == |xs| - 1
  {
    seq(|xs| - 1, k requires 0 <= k < |xs| - 1 => TensionSegment(xs, ys, k, tension))
  }

  function SmoothOutline(sin: Sine, width: real, height: real, baseY: real, waveHeight: real,
                         tRad: real, waveIndex: real, tension: real): seq<Cmd>
  {
    var xs, ys := Xs(width, POINTS), LegacySmoothYs(sin, baseY, waveHeight, tRad, PhaseOffset(waveIndex), POINTS);
    [Move(0.0, height), Line(xs[0], ys[0])] + TensionCrest(xs, ys, tension) + [Line(width, height), Close]
  }

  // ---------------------------------------------------------------------------
  // Builders

  /** buildWavePathRounded */
  method BuildWavePathRounded(path: Path, sin: Sine, width: real, height: real, baseY: real,
                              waveHeight: real, tRad: real, waveIndex: real, roundness: real)
    modifies path
    ensures path.cmds == RoundedOutline(sin, width, height, baseY, waveHeight, tRad, waveIndex, roundness)
  {
    var handle := Handle(width, POINTS, roundness);
    DrawQuadOutline(path, sin, width, height, baseY, waveHeight, tRad, PhaseOffset(waveIndex), POINTS,
      HandleJoint(handle));
  }

  /** buildWavePath: the choppy builder, with both control points on the span midpoint. */
  method BuildWavePath(path: Path, sin: Sine, width: real, height: real, baseY: real,
                       waveHeight: real, tRad: real, waveIndex: real)
    modifies path
    ensures path.cmds == ChoppyOutline(sin, width, height, baseY, waveHeight, tRad, waveIndex)
  {
    DrawQuadOutline(path, sin, width, height, baseY, waveHeight, tRad, PhaseOffset(waveIndex), POINTS, MidJoint);
  }

  /** The body both quadratic builders share: reset, up the left edge, the spans, down the right edge. */
  method DrawQuadOutline(path: Path, sin: Sine, width: real, height: real, baseY: real, waveHeight: real,
                         tRad: real, phaseOffset: real, n: nat, joint: Joint)
    requires n >= 2 && (joint.MidJoint? || joint.HandleJoint?)
    modifies path
    ensures path.cmds == QuadOutline(joint, width, height, Xs(width, n), LegacyYs(sin, baseY, waveHeight, tRad, phaseOffset, n))
  {
    ghost var ys := LegacyYs(sin, baseY, waveHeight, tRad, phaseOffset, n);
    ghost var crest := Joined(joint, Xs(width, n), ys, n);
    path.Reset();
    path.MoveTo(0.0, height);
    path.LineTo(0.0, LegacyY(sin, baseY, waveHeight, tRad, phaseOffset, n, 0));
    assert path.cmds == [Move(0.0, height), Line(0.0, ys[0])];
    DrawQuadSamples(path, sin, width, baseY, waveHeight, tRad, phaseOffset, n, joint);
    assert path.cmds == [Move(0.0, height), Line(0.0, ys[0])] + crest;
    path.LineTo(width, height);
    path.Close();
  }

  /**
   * The span loop the rounded and choppy builders share: each pass samples
   * the next point and draws the two quadratics from the previous one. The
   * rounded builder's joint carries its handle, segmentWidth * 0.5 * roundness.
   */
  method DrawQuadSamples(path: Path, sin: Sine, width: real, baseY: real, waveHeight: real,
                         tRad: real, phaseOffset: real, n: nat, joint: Joint)
    requires n >= 2 && (joint.MidJoint? || joint.HandleJoint?)
    modifies path
    ensures path.cmds == old(path.cmds)
      + Joined(joint, Xs(width, n), LegacyYs(sin, baseY, waveHeight, tRad, phaseOffset, n), n)
  {
    ghost var xs, ys := Xs(width, n), LegacyYs(sin, baseY, waveHeight, tRad, phaseOffset, n);
    ghost var head := path.cmds;

    var prevX := 0.0;
    var prevY := LegacyY(sin, baseY, waveHeight, tRad, phaseOffset, n, 0);
    for i := 1 to n
      invariant prevX == xs[i - 1] && prevY == ys[i - 1]
      invariant path.cmds == head + Joined(joint, xs, ys, i)
    {
      var x := SampleX(width, n, i);
      var y := LegacyY(sin, baseY, waveHeight, tRad, phaseOffset, n, i);
      assert x == xs[i] && y == ys[i];
      ghost var before := path.cmds;
      DrawSpan(path, joint, prevX, prevY, x, y);
      JoinedStep(head, joint, xs, ys, i, before, path.cmds);
      prevX := x;
      prevY := y;
    }
  }

  /** One more span extends the commands drawn after `head` by the next joined span. */
  lemma JoinedStep(head: seq<Cmd>, j: Joint, xs: seq<real>, ys: seq<real>, i: nat, before: seq<Cmd>, after: seq<Cmd>)
    requires |xs| == |ys| && 1 <= i < |xs|
    requires before == head + Joined(j, xs, ys, i)
    requires after == before + SpanCmds(j, xs[i - 1], ys[i - 1], xs[i], ys[i])
    ensures after == head + Joined(j, xs, ys, i + 1)
  {
    assert Joined(j, xs, ys, i + 1) == Joined(j, xs, ys, i) + SpanCmds(j, xs[i - 1], ys[i - 1], xs[i], ys[i]);
  }

  /** One pass of the span loop: the two quadratics from the previous sample to the next. */
  method DrawSpan(path: Path, joint: Joint, prevX: real, prevY: real, x: real, y: real)
    requires joint.MidJoint? || joint.HandleJoint?
    modifies path
    ensures path.cmds == old(path.cmds) + SpanCmds(joint, prevX, prevY, x, y)
  {
    if joint.MidJoint? {
      var cpX := (prevX + x) / 2.0;
      path.QuadTo(cpX, prevY, cpX, (prevY + y) / 2.0);
      path.QuadTo(cpX, y, x, y);
    } else {
      var midX := (prevX + x) / 2.0;
      var midY := (prevY + y) / 2.0;
      var c1x := midX - joint.handle;
      var c2x := midX + joint.handle;
      path.QuadTo(c1x, prevY, midX, midY);
      path.QuadTo(c2x, y, x, y);
    }
  }

  /** buildWavePathSmooth: samples into arrays, then one Catmull-Rom cubic per span. */
  method BuildWavePathSmooth(path: Path, sin: Sine, width: real, height: real, baseY: real,
                             waveHeight: real, tRad: real, waveIndex: real, tension: real)
    modifies path
    ensures path.cmds == SmoothOutline(sin, width, height, baseY, waveHeight, tRad, waveIndex, tension)
  {
    path.Reset();
    var xs, ys := SampleSmooth(sin, width, baseY, waveHeight, tRad, PhaseOffset(waveIndex), POINTS);
    path.MoveTo(0.0, height);
    path.LineTo(xs[0], ys[0]);
    DrawTensionSpans(path, xs, ys, tension);
    path.LineTo(width, height);
    path.Close();
  }

  /** The sampling loop of buildWavePathSmooth. */
  method SampleSmooth(sin: Sine, width: real, baseY: real, waveHeight: real, tRad: real, phaseOffset: real, n: nat)
    returns (xs: array<real>, ys: array<real>)
    requires n >= 2
    ensures fresh(xs) && fresh(ys)
    ensures xs[..] == Xs(width, n)
    ensures ys[..] == LegacySmoothYs(sin, baseY, waveHeight, tRad, phaseOffset, n)
  {
    xs := new real[n];
    ys := new real[n];
    for i := 0 to n
      invariant forall k :: 0 <= k < i ==> xs[k] == SampleX(width, n, k)
      invariant forall k :: 0 <= k < i ==> ys[k] == LegacySmoothY(sin, baseY, waveHeight, tRad, phaseOffset, n, k)
    {
      xs[i] := SampleX(width, n, i);
      ys[i] := LegacySmoothY(sin, baseY, waveHeight, tRad, phaseOffset, n, i);
    }
  }

  /** The cubic loop of buildWavePathSmooth, reading neighbours through the clamped `get`. */
  method DrawTensionSpans(path: Path, xs: array<real>, ys: array<real>, tension: real)
    requires xs.Length == ys.Length >= 1
    modifies path
    ensures path.cmds == old(path.cmds) + TensionCrest(xs[..], ys[..], tension)
  {
    var pointCount := xs.Length;
    ghost var start := path.cmds;
    ghost var crest := TensionCrest(xs[..], ys[..], tension);
    for i := 0 to pointCount - 1
      invariant path.cmds == start + crest[..i]
    {
      var b0, b1, b2, b3 := ClampIndex(i - 1, pointCount), ClampIndex(i, pointCount),
                            ClampIndex(i + 1, pointCount), ClampIndex(i + 2, pointCount);
      var c1x := xs[b1] + Pull(xs[b2], xs[b0], tension);
      var c1y := ys[b1] + Pull(ys[b2], ys[b0], tension);
      var c2x := xs[b2] - Pull(xs[b3], xs[b1], tension);
      var c2y := ys[b2] - Pull(ys[b3], ys[b1], tension);
      assert crest[i] == TensionSegment(xs[..], ys[..], i, tension) == Cubic(c1x, c1y, c2x, c2y, xs[b2], ys[b2]);
      path.CubicTo(c1x, c1y, c2x, c2y, xs[b2], ys[b2]);
      assert crest[..i + 1] == crest[..i] + [crest[i]];
    }
    assert crest[..pointCount - 1] == crest;
  }

  // ---------------------------------------------------------------------------
  // The fixed loader's frame

  /** The clock angle of one frame of the fixed loader: a full turn every 4000 ms. */
  function LegacyT(clock: real): (r: real)
    ensures clock >= 0.0 ==> 0.0 <= r < TAU
  {
    WrappedPhase(clock, DURATION_MS)
  }

  /** The roundness of one frame of the fixed loader, swinging between 0.1 and 0.5 every 2400 ms. */
  function LegacyRoundness(sin: Sine, clock: real): (r: real)
    ensures SineBounded(sin) ==> ROUND_MIN <= r <= ROUND_MAX
  {
    var s := sin(WrappedPhase(clock, ROUND_MS));
    assert SineBounded(sin) ==> -1.0 <= s <= 1.0;
    ROUND_MIN + (ROUND_MAX - ROUND_MIN) * (0.5 + 0.5 * s)
  }

  /** Wave `w` (0 back, 1 middle, 2 front) of the fixed loader at a clock value. */
  function LegacyWavePath(sin: Sine, clock: real, width: real, height: real, w: nat): seq<Cmd>
    requires w < 3
  {
    RoundedOutline(sin, width, height, height * BASE_RATIOS[w], height * HEIGHT_RATIOS[w],
      LegacyT(clock), w as real, LegacyRoundness(sin, clock))
  }

  // ---------------------------------------------------------------------------
  // The fixed builders draw what the configurable builder draws

  lemma SamplesAgree(sin: Sine, v: Variant, a: PathArgs, waveIndex: real)
    requires v == Rounded || v == Choppy || v == Smooth
    requires a.phaseOffsetRad == PhaseOffset(waveIndex)
    ensures PointCount(v) == POINTS
    ensures LegacyYs(sin, a.baseY, a.waveHeight, a.tRad, PhaseOffset(waveIndex), POINTS) == Ys(sin, v, a, POINTS)
    ensures LegacySmoothYs(sin, a.baseY, a.waveHeight, a.tRad, PhaseOffset(waveIndex), POINTS) == Ys(sin, v, a, POINTS)
  {
    var off := PhaseOffset(waveIndex);
    forall i | 0 <= i < POINTS
      ensures LegacyY(sin, a.baseY, a.waveHeight, a.tRad, off, POINTS, i) == SampleY(sin, v, a, POINTS, i)
      ensures LegacySmoothY(sin, a.baseY, a.waveHeight, a.tRad, off, POINTS, i) == SampleY(sin, v, a, POINTS, i)
    {
      SampleAgrees(sin, v, a, i);
    }
  }

  lemma SampleAgrees(sin: Sine, v: Variant, a: PathArgs, i: nat)
    requires v == Rounded || v == Choppy || v == Smooth
    ensures LegacyY(sin, a.baseY, a.waveHeight, a.tRad, a.phaseOffsetRad, POINTS, i) == SampleY(sin, v, a, POINTS, i)
    ensures LegacySmoothY(sin, a.baseY, a.waveHeight, a.tRad, a.phaseOffsetRad, POINTS, i) == SampleY(sin, v, a, POINTS, i)
  {
    var p := i as real / POINTS as real;
    var phase := a.tRad + p * TAU + a.phaseOffsetRad;
    assert PhaseProgress(v, i, POINTS) == p;
    assert SampleWave(sin, v, a.tRad, a.tContinuousRad, a.phaseOffsetRad, p, i as real / (POINTS - 1) as real)
      == sin(phase);
    assert SampleY(sin, v, a, POINTS, i) == a.baseY + sin(phase) * a.waveHeight * 1.0;
    assert p * PI * 2.0 == p * TAU;
    assert a.tRad + p * PI * 2.0 + a.phaseOffsetRad == phase;
    assert LegacyY(sin, a.baseY, a.waveHeight, a.tRad, a.phaseOffsetRad, POINTS, i)
      == a.baseY + sin(phase) * a.waveHeight;
    assert a.tRad + (p * PI * 2.0 + a.phaseOffsetRad) == phase;
  }

  /** The package's rounded and choppy outlines have the fixed builders' shape. */
  lemma PackageQuadOutline(sin: Sine, v: Variant, a: PathArgs)
    requires v == Rounded || v == Choppy
    ensures Outline(sin, v, a)
      == QuadOutline(JointOf(v, a, POINTS), a.width, a.height, Xs(a.width, POINTS), Ys(sin, v, a, POINTS))
  {
    var xs, ys := Xs(a.width, POINTS), Ys(sin, v, a, POINTS);
    assert Crest(v, a, xs, ys) == Joined(JointOf(v, a, |xs|), xs, ys, |xs|);
    assert xs[0] == 0.0;
  }

  /** buildWavePathRounded draws the rounded variant's outline. */
  lemma RoundedMatchesPackage(sin: Sine, a: PathArgs, waveIndex: real)
    requires a.phaseOffsetRad == PhaseOffset(waveIndex)
    ensures RoundedOutline(sin, a.width, a.height, a.baseY, a.waveHeight, a.tRad, waveIndex, a.roundness)
      == Outline(sin, Rounded, a)
  {
    var xs, ys := Xs(a.width, POINTS), LegacyYs(sin, a.baseY, a.waveHeight, a.tRad, PhaseOffset(waveIndex), POINTS);
    var j := HandleJoint(Handle(a.width, POINTS, a.roundness));
    assert RoundedOutline(sin, a.width, a.height, a.baseY, a.waveHeight, a.tRad, waveIndex, a.roundness)
      == QuadOutline(j, a.width, a.height, xs, ys);
    assert Outline(sin, Rounded, a) == QuadOutline(j, a.width, a.height, xs, ys) by {
      PackageQuadOutline(sin, Rounded, a);
      SamplesAgree(sin, Rounded, a, waveIndex);
      assert JointOf(Rounded, a, POINTS) == j;
    }
  }

  /** buildWavePath draws the choppy variant's outline. */
  lemma ChoppyMatchesPackage(sin: Sine, a: PathArgs, waveIndex: real)
    requires a.phaseOffsetRad == PhaseOffset(waveIndex)
    ensures ChoppyOutline(sin, a.width, a.height, a.baseY, a.waveHeight, a.tRad, waveIndex) == Outline(sin, Choppy, a)
  {
    PackageQuadOutline(sin, Choppy, a);
    SamplesAgree(sin, Choppy, a, waveIndex);
  }

  /** With its default tension 2, buildWavePathSmooth draws the smooth variant's outline. */
  lemma SmoothMatchesPackage(sin: Sine, a: PathArgs, waveIndex: real)
    requires a.phaseOffsetRad == PhaseOffset(waveIndex)
    ensures SmoothOutline(sin, a.width, a.height, a.baseY, a.waveHeight, a.tRad, waveIndex, 2.0)
      == Outline(sin, Smooth, a)
  {
    SamplesAgree(sin, Smooth, a, waveIndex);
    TensionTwoIsSmooth(Xs(a.width, POINTS), Ys(sin, Smooth, a, POINTS));
  }

  /** Tension 2 gives the package's Catmull-Rom control points, segment by segment. */
  lemma TensionTwoIsSmooth(xs: seq<real>, ys: seq<real>)
    requires |xs| == |ys| >= 1
    ensures TensionCrest(xs, ys, 2.0) == SmoothCrest(xs, ys)
  {
    forall k | 0 <= k < |xs| - 1
      ensures TensionCrest(xs, ys, 2.0)[k] == SmoothCrest(xs, ys)[k]
    {
      assert TensionSegment(xs, ys, k, 2.0) == SmoothSegment(xs, ys, k);
    }
  }

  /** The tension only scales the tangents: tension 0 puts both control points on the span's ends. */
  lemma ZeroTensionIsStraight(xs: seq<real>, ys: seq<real>, k: nat)
    requires |xs| == |ys| && k + 1 < |xs|
    ensures TensionSegment(xs, ys, k, 0.0) == Cubic(xs[k], ys[k], xs[k + 1], ys[k + 1], xs[k + 1], ys[k + 1])
  {
  }

  /**
   * The fixed loader's frame is the configurable loader's default frame: the
   * same three rounded waves at the same heights, phase offsets, clock angle
   * and roundness (its 2400 ms roundness cycle is 0.6 of 4000 ms).
   */
  lemma LegacyFrameIsDefaultFrame(sin: Sine, clock: real, width: real, height: real, w: nat)
    requires w < 3
    ensures FiniteCanvas(SizedDefaults(width, height)) && WaveCountOf(SizedDefaults(width, height)) == 3
    ensures LegacyWavePath(sin, clock, width, height, w) == WavePath(sin, clock, SizedDefaults(width, height), w)
  {
    var a := FrameArgs(sin, clock, width, height, LayoutAt(3, w),
                       WaveResolvedConfig(DEFAULT_COLOR, DEFAULT_DURATION_MS, Rounded));
    DefaultWavePath(sin, clock, width, height, w);
    DefaultFrameFields(sin, clock, width, height, w);
    RoundedMatchesPackage(sin, a, w as real);
  }

  /** Through the equivalence, the fixed loader inherits the bound: no wave leaves [0, width]. */
  lemma LegacyFrameWithinWidth(sin: Sine, clock: real, width: real, height: real, w: nat)
    requires SineBounded(sin) && width >= 0.0 && w < 3
    ensures forall c :: c in LegacyWavePath(sin, clock, width, height, w) ==> c.XWithin(0.0, width)
  {
    LegacyFrameIsDefaultFrame(sin, clock, width, height, w);
    WavePathsWithinWidth(sin, clock, SizedDefaults(width, height), w);
  }

  /** Both loaders default to a 240 by 80 canvas, so without props they draw the same frame. */
  lemma LegacyDefaultSizeIsDefault(sin: Sine, clock: real, w: nat)
    requires w < 3
    ensures FiniteCanvas(NO_PROPS) && WaveCountOf(NO_PROPS) == 3
    ensures LegacyWavePath(sin, clock, LEGACY_WIDTH, LEGACY_HEIGHT, w) == WavePath(sin, clock, NO_PROPS, w)
  {
    LegacyFrameIsDefaultFrame(sin, clock, LEGACY_WIDTH, LEGACY_HEIGHT, w);
    assert SizedDefaults(LEGACY_WIDTH, LEGACY_HEIGHT) == NO_PROPS.(width := Some(Fin(DEFAULT_WIDTH)), height := Some(Fin(DEFAULT_HEIGHT)));
    assert WavePath(sin, clock, SizedDefaults(LEGACY_WIDTH, LEGACY_HEIGHT), w) == WavePath(sin, clock, NO_PROPS, w);
  }

  /** The configurable loader's props with only the canvas size set. */
  function SizedDefaults(width: real, height: real): WaveLoaderProps {
    NO_PROPS.(width := Some(Fin(width)), height := Some(Fin(height)))
  }

  /** Wave w of the configurable loader's default scene, as an outline of the rounded variant. */
  lemma DefaultWavePath(sin: Sine, clock: real, width: real, height: real, w: nat)
    requires w < 3
    ensures FiniteCanvas(SizedDefaults(width, height)) && WaveCountOf(SizedDefaults(width, height)) == 3
    ensures WavePath(sin, clock, SizedDefaults(width, height), w)
      == Outline(sin, Rounded, FrameArgs(sin, clock, width, height, LayoutAt(3, w),
                                         WaveResolvedConfig(DEFAULT_COLOR, DEFAULT_DURATION_MS, Rounded)))
  {
    DefaultRender(w);
    assert Configs(SizedDefaults(width, height)) == Configs(NO_PROPS);
    assert ClampedAt(Layouts(3), w) == LayoutAt(3, w);
  }

  /** The default frame's builder arguments, field by field, are the fixed loader's. */
  lemma DefaultFrameFields(sin: Sine, clock: real, width: real, height: real, w: nat)
    requires w < 3
    ensures var a := FrameArgs(sin, clock, width, height, LayoutAt(3, w),
                               WaveResolvedConfig(DEFAULT_COLOR, DEFAULT_DURATION_MS, Rounded));
      && a.width == width && a.height == height
      && a.baseY == height * BASE_RATIOS[w] && a.waveHeight == height * HEIGHT_RATIOS[w]
      && a.tRad == LegacyT(clock) && a.phaseOffsetRad == PhaseOffset(w as real)
      && a.roundness == LegacyRoundness(sin, clock)
  {
    ThreeWaveLayouts();
    assert RoundCycleMs(DEFAULT_DURATION_MS) == ROUND_MS;
    assert PhaseOffset(1.0) == PI * 0.7;
    assert PhaseOffset(2.0) == PI * 1.4;
  }

  /** The fixed loader's opacities, gradient stops and fade mask are the configurable loader's defaults. */
  lemma LegacyStyleIsDefaultStyle(w: nat)
    requires w < 3
    ensures WaveCountOf(NO_PROPS) == 3
    ensures Render(NO_PROPS).waves[w].opacity == OPACITIES[w]
    ensures Render(NO_PROPS).waves[w].gradientStop == GRADIENT_STOPS[w]
    ensures Render(NO_PROPS).waves[w].color == DEFAULT_COLOR
    ensures Render(NO_PROPS).fadePositions == seq(4, k requires 0 <= k < 4 => Fin(FADE_POSITIONS[k]))
  {
    ThreeWaveLayouts();
    DefaultRender(w);
    DefaultOpacityKeepsLayout(NO_PROPS, w);
    RenderedWave(NO_PROPS, w);
    DefaultFadeMask();
  }
}
