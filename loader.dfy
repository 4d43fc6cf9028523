/**
 * The WaveLoader component: what one render draws. The props are resolved,
 * one layout and one configuration are built per wave, and each wave gets an
 * opacity, a vertical colour gradient and, for the current clock value, its
 * path; a horizontal mask fades both ends of the canvas.
 */
module WaveLoaderView {
  import opened Js
  import opened SkiaPath
  import opened WaveTypes
  import opened WaveBuilder
  import opened WaveShape
  import opened WaveConfig
  import opened WaveLayouts
  import opened WaveClock
  import opened GradientColor

  const DEFAULT_WIDTH: real := 240.0
  const DEFAULT_HEIGHT: real := 80.0
  const DEFAULT_FADE_OUT: real := 60.0

  /**
   * How one wave is painted: its opacity, and a vertical gradient from its
   * colour at the top to the gradient end colour at gradientStop.
   */
  datatype WaveStyle = WaveStyle(opacity: real, color: string, gradientStop: real) {
    function Colors(): seq<string> {
      [color, ToGradientEndColor(color)]
    }

    function Positions(): seq<real> {
      [0.0, gradientStop]
    }
  }

  /**
   * One render: the canvas size, a style per wave and the positions of the
   * edge-fade mask's four stops. The waves' paths come from WavePath.
   */
  datatype Scene = Scene(width: Num, height: Num, waves: seq<WaveStyle>, fadePositions: seq<Num>)

  // ---------------------------------------------------------------------------
  // Resolved props

  /** A destructuring default: used only when the prop is missing. */
  function OrDefault(prop: Option<Num>, default: real): Num {
    if prop.None? then Fin(default) else prop.value
  }

  /** The canvas size: the width and height props, 240 by 80 when missing. */
  function CanvasWidth(props: WaveLoaderProps): Num {
    OrDefault(props.width, DEFAULT_WIDTH)
  }

  function CanvasHeight(props: WaveLoaderProps): Num {
    OrDefault(props.height, DEFAULT_HEIGHT)
  }

  /** A size the path builders can draw with: both dimensions finite. */
  predicate FiniteCanvas(props: WaveLoaderProps) {
    CanvasWidth(props).Fin? && CanvasHeight(props).Fin?
  }

  function WaveCountOf(props: WaveLoaderProps): (r: int)
    ensures MIN_WAVES <= r <= MAX_WAVES
  {
    ClampWaveCount(OrDefault(props.waves, DEFAULT_WAVES as real))
  }

  function Layouts(n: int): (r: seq<WaveLayout>)
    ensures |r| == if n > 0 then n else 0
  {
    seq(if n > 0 then n else 0, i requires 0 <= i < n => LayoutAt(n, i))
  }

  function OverridesOf(props: WaveLoaderProps): seq<WaveOverride> {
    if props.waveOverrides.None? then [] else props.waveOverrides.value
  }

  function Configs(props: WaveLoaderProps): (r: seq<WaveResolvedConfig>)
    ensures |r| == WaveCountOf(props)
  {
    var base := BaseConfig(props.color, props.durationMs, props.pathVariant);
    seq(WaveCountOf(props), i requires 0 <= i => ConfigFor(base, OverrideAt(OverridesOf(props), i)))
  }

  /** The factor every layout opacity is multiplied by: 1 at the default opacity. */
  function OpacityScale(props: WaveLoaderProps): (r: real)
    ensures 0.0 <= r <= 2.0
  {
    var resolved := ResolveOpacity(props.opacity, DEFAULT_OPACITY);
    if DEFAULT_OPACITY > 0.0 then resolved / DEFAULT_OPACITY else 1.0
  }

  /** x / 200 and 1 - x / 200 on a number that may be NaN. */
  function Over200(x: Num): Num {
    if x.Fin? then Fin(x.val / 200.0) else x
  }

  function OneMinus(x: Num): Num {
    match x
    case Fin(v) => Fin(1.0 - v)
    case NaN => NaN
    case PosInf => NegInf
    case NegInf => PosInf
  }

  /** The mask's stops: transparent at 0 and 1, opaque between fadeOut/200 and 1 - fadeOut/200. */
  function FadePositions(fadeOut: Num): (r: seq<Num>)
    ensures |r| == 4 && r[0] == Fin(0.0) && r[3] == Fin(1.0)
  {
    var clamped := ClampNum(0.0, 100.0, fadeOut);
    [Fin(0.0), Over200(clamped), OneMinus(Over200(clamped)), Fin(1.0)]
  }

  function StyleOf(layout: WaveLayout, config: WaveResolvedConfig, scale: real): WaveStyle {
    WaveStyle(ClampUnit(Fin(layout.opacity * scale)), config.color, layout.gradientStop)
  }

  /** The render: one style per wave, back to front, and the mask. */
  function Render(props: WaveLoaderProps): (r: Scene)
    ensures |r.waves| == WaveCountOf(props)
  {
    var n := WaveCountOf(props);
    var layouts := Layouts(n);
    var configs := Configs(props);
    var scale := OpacityScale(props);
    Scene(
      CanvasWidth(props), CanvasHeight(props),
      seq(n, i requires 0 <= i < n => StyleOf(layouts[i], configs[i], scale)),
      FadePositions(OrDefault(props.fadeOut, DEFAULT_FADE_OUT)))
  }

  /** The path of wave `index` for the clock value, from the canvas size and that wave's layout and configuration. */
  function WavePath(sin: Sine, clock: real, props: WaveLoaderProps, index: int): seq<Cmd>
    requires FiniteCanvas(props) && 0 <= index < WaveCountOf(props)
  {
    var n := WaveCountOf(props);
    Outline(sin, Configs(props)[index].pathVariant,
      FrameArgs(sin, clock, CanvasWidth(props).val, CanvasHeight(props).val,
        ClampedAt(Layouts(n), index), ClampedAt(Configs(props), index)))
  }

  /** The component body: builds the layouts and configurations with their loops and styles each wave. */
  method RenderWaveLoader(props: WaveLoaderProps) returns (scene: Scene)
    ensures scene == Render(props)
  {
    var waveCount := WaveCountOf(props);
    var resolvedOpacity := ResolveOpacity(props.opacity, DEFAULT_OPACITY);
    var opacityScale := if DEFAULT_OPACITY > 0.0 then resolvedOpacity / DEFAULT_OPACITY else 1.0;
    var fadePositions := FadePositions(OrDefault(props.fadeOut, DEFAULT_FADE_OUT));
    var layouts := BuildWaveLayouts(waveCount);
    var configs := BuildWaveConfigs(waveCount, props.color, props.durationMs, props.pathVariant, OverridesOf(props));
    assert layouts == Layouts(waveCount);
    assert configs == Configs(props);
    assert opacityScale == OpacityScale(props);
    ghost var expected := Render(props).waves;
    var waves: seq<WaveStyle> := [];
    var index := 0;
    while index < waveCount
      invariant 0 <= index <= waveCount
      invariant waves == expected[..index]
    {
      var style := StyleOf(layouts[index], configs[index], opacityScale);
      assert style == expected[index];
      assert expected[..index + 1] == expected[..index] + [expected[index]];
      waves := waves + [style];
      index := index + 1;
    }
    assert waves == expected;
    scene := Scene(OrDefault(props.width, DEFAULT_WIDTH), OrDefault(props.height, DEFAULT_HEIGHT), waves, fadePositions);
  }

  // ---------------------------------------------------------------------------
  // Properties

  /** Wave i of a render is styled from layout i, configuration i and the common opacity scale. */
  lemma RenderedWave(props: WaveLoaderProps, i: int)
    requires 0 <= i < WaveCountOf(props)
    ensures Render(props).waves[i] == StyleOf(LayoutAt(WaveCountOf(props), i), Configs(props)[i], OpacityScale(props))
  {
  }

  /** ClampUnit never reverses an order. */
  lemma ClampUnitMonotone(x: real, y: real)
    requires x <= y
    ensures ClampUnit(Fin(x)) <= ClampUnit(Fin(y))
  {
  }

  /** Every wave shows a gradient from its colour to a transparent "#rrggbb00" end, and an opacity in [0, 1]. */
  lemma WaveStylesWellFormed(props: WaveLoaderProps, i: int)
    requires 0 <= i < WaveCountOf(props)
    ensures var w := Render(props).waves[i];
      && 0.0 <= w.opacity <= 1.0
      && |w.Colors()| == 2 && w.Colors()[0] != []
      && |w.Colors()[1]| == 9 && w.Colors()[1][0] == '#' && w.Colors()[1][7..] == "00"
      && |w.Positions()| == 2 && w.Positions()[0] == 0.0 && 0.7 <= w.Positions()[1] <= 0.9
  {
    var n := WaveCountOf(props);
    var c := Configs(props)[i];
    var l := LayoutAt(n, i);
    RenderedWave(props, i);
    var w := StyleOf(l, c, OpacityScale(props));
    assert Render(props).waves[i] == w;
    ConfigsWellFormed(props.color, props.durationMs, props.pathVariant, OverrideAt(OverridesOf(props), i));
    assert c.color != [];
    GradientEndShape(c.color);
    LayoutRanges(n, i);
    assert w.Colors() == [c.color, ToGradientEndColor(c.color)];
    assert w.Positions() == [0.0, l.gradientStop];
  }

  /** At the default opacity each wave keeps its layout opacity. */
  lemma DefaultOpacityKeepsLayout(props: WaveLoaderProps, i: int)
    requires props.opacity == None || props.opacity == Some(Fin(DEFAULT_OPACITY))
    requires 0 <= i < WaveCountOf(props)
    ensures Render(props).waves[i].opacity == LayoutAt(WaveCountOf(props), i).opacity
  {
    var l := LayoutAt(WaveCountOf(props), i);
    RenderedWave(props, i);
    LayoutRanges(WaveCountOf(props), i);
    assert OpacityScale(props) == 1.0;
    UnscaledOpacity(l, Configs(props)[i]);
  }

  lemma UnscaledOpacity(l: WaveLayout, c: WaveResolvedConfig)
    requires 0.0 <= l.opacity <= 1.0
    ensures StyleOf(l, c, 1.0).opacity == l.opacity
  {
  }

  /** A front wave is never fainter than a wave behind it. */
  lemma FrontWavesNotFainter(props: WaveLoaderProps, i: int, j: int)
    requires 0 <= i < j < WaveCountOf(props)
    ensures Render(props).waves[i].opacity <= Render(props).waves[j].opacity
  {
    var n := WaveCountOf(props);
    RenderedWave(props, i);
    RenderedWave(props, j);
    LayoutsIncrease(n, i, j);
    ScaledOpacityOrder(LayoutAt(n, i), LayoutAt(n, j), Configs(props)[i], Configs(props)[j], OpacityScale(props));
  }

  lemma ScaledOpacityOrder(l1: WaveLayout, l2: WaveLayout, c1: WaveResolvedConfig, c2: WaveResolvedConfig, s: real)
    requires s >= 0.0 && l1.opacity <= l2.opacity
    ensures StyleOf(l1, c1, s).opacity <= StyleOf(l2, c2, s).opacity
  {
    var x, y := l1.opacity * s, l2.opacity * s;
    MulLeRight(s, l1.opacity, l2.opacity, x, y);
    ClampUnitMonotone(x, y);
  }

  /**
   * The fadeOut percentage is clamped into [0, 100] and then halved into the
   * two inner stops, which mirror each other; NaN reaches both inner stops.
   */
  lemma FadeMaskShape(fadeOut: Num)
    ensures var p := FadePositions(fadeOut);
      fadeOut != NaN ==>
        && p[1].Fin? && p[2].Fin?
        && 0.0 <= p[1].val <= 0.5 <= p[2].val <= 1.0
        && p[1].val + p[2].val == 1.0
    ensures fadeOut.Fin? && 0.0 <= fadeOut.val <= 100.0 ==>
      FadePositions(fadeOut) == [Fin(0.0), Fin(fadeOut.val / 200.0), Fin(1.0 - fadeOut.val / 200.0), Fin(1.0)]
    ensures (fadeOut.Fin? && fadeOut.val > 100.0) || fadeOut == PosInf ==>
      FadePositions(fadeOut) == [Fin(0.0), Fin(0.5), Fin(0.5), Fin(1.0)]
    ensures (fadeOut.Fin? && fadeOut.val < 0.0) || fadeOut == NegInf ==>
      FadePositions(fadeOut) == [Fin(0.0), Fin(0.0), Fin(1.0), Fin(1.0)]
    ensures fadeOut == NaN ==> FadePositions(fadeOut) == [Fin(0.0), NaN, NaN, Fin(1.0)]
  {
    var c := ClampNum(0.0, 100.0, fadeOut);
    assert FadePositions(fadeOut) == [Fin(0.0), Over200(c), OneMinus(Over200(c)), Fin(1.0)];
    if c.Fin? {
      assert 0.0 <= c.val / 200.0 <= 0.5;
    }
  }

  /** Out-of-range fadeOut values act as the nearest bound. */
  lemma FadeMaskExamples()
    ensures FadePositions(Fin(150.0)) == [Fin(0.0), Fin(0.5), Fin(0.5), Fin(1.0)]
    ensures FadePositions(Fin(-20.0)) == [Fin(0.0), Fin(0.0), Fin(1.0), Fin(1.0)]
  {
    FadeMaskShape(Fin(150.0));
    FadeMaskShape(Fin(-20.0));
  }

  /** The opacity prop is clamped before it scales the layouts: -1 hides every wave, 7 doubles them as 1 does. */
  lemma OpacityScaleExamples(props: WaveLoaderProps)
    ensures OpacityScale(props.(opacity := Some(Fin(-1.0)))) == 0.0
    ensures OpacityScale(props.(opacity := Some(Fin(7.0)))) == OpacityScale(props.(opacity := Some(Fin(1.0)))) == 2.0
    ensures OpacityScale(props.(opacity := Some(NaN))) == OpacityScale(props.(opacity := None)) == 1.0
  {
  }

  /** Without a fadeOut prop, 30% of the canvas fades out at each end. */
  lemma DefaultFadeMask()
    ensures FadePositions(Fin(DEFAULT_FADE_OUT)) == [Fin(0.0), Fin(0.3), Fin(0.7), Fin(1.0)]
  {
  }

  /** Overrides past the wave count are never read. */
  lemma ExtraOverridesIgnored(props: WaveLoaderProps, overrides: seq<WaveOverride>, k: nat)
    requires WaveCountOf(props) <= k <= |overrides|
    ensures Render(props.(waveOverrides := Some(overrides))) == Render(props.(waveOverrides := Some(overrides[..k])))
  {
    var p, q := props.(waveOverrides := Some(overrides)), props.(waveOverrides := Some(overrides[..k]));
    assert WaveCountOf(p) == WaveCountOf(q);
    forall i | 0 <= i < WaveCountOf(p)
      ensures OverrideAt(OverridesOf(p), i) == OverrideAt(OverridesOf(q), i)
    {
    }
    assert Configs(p) == Configs(q);
  }

  /** With no props at all, three waves are drawn in the default colour with the rounded variant. */
  lemma DefaultRender(i: int)
    requires 0 <= i < 3
    ensures WaveCountOf(NO_PROPS) == 3
    ensures Configs(NO_PROPS)[i] == WaveResolvedConfig(DEFAULT_COLOR, DEFAULT_DURATION_MS, Rounded)
    ensures Render(NO_PROPS).width == Fin(DEFAULT_WIDTH) && Render(NO_PROPS).height == Fin(DEFAULT_HEIGHT)
  {
    DefaultColorTrimmed();
  }

  /** Every wave's path, at any clock value, stays within the canvas width. */
  lemma WavePathsWithinWidth(sin: Sine, clock: real, props: WaveLoaderProps, index: int)
    requires SineBounded(sin) && FiniteCanvas(props) && CanvasWidth(props).val >= 0.0
    requires 0 <= index < WaveCountOf(props)
    ensures forall c :: c in WavePath(sin, clock, props, index) ==> c.XWithin(0.0, CanvasWidth(props).val)
  {
    var n := WaveCountOf(props);
    FrameWithinWidth(sin, clock, CanvasWidth(props).val, CanvasHeight(props).val,
      ClampedAt(Layouts(n), index), ClampedAt(Configs(props), index));
  }
}
