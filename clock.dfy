/**
 * useAnimatedWavePath: turns the frame clock into the phase angles and the
 * roundness one wave is drawn with, then rebuilds that wave's path.
 */
module WaveClock {
  import opened Js
  import opened SkiaPath
  import opened WaveTypes
  import opened WaveBuilder
  import opened WaveShape
  import opened WaveConfig
  import opened WaveLayouts

  const ROUNDNESS_MIN: real := 0.1
  const ROUNDNESS_MAX: real := 0.5
  const ROUNDNESS_CYCLE_RATIO: real := 0.6
  const MIN_ROUNDNESS_CYCLE_MS: real := 600.0

  /** A non-positive duration falls back to the default duration. */
  function ResolvedDuration(durationMs: real): (r: real)
    ensures r > 0.0
    ensures durationMs > 0.0 ==> r == durationMs
    ensures durationMs <= 0.0 ==> r == DEFAULT_DURATION_MS
  {
    if durationMs > 0.0 then durationMs else DEFAULT_DURATION_MS
  }

  /** ((clock % period) / period) * PI * 2: the angle reached in the current period. */
  function WrappedPhase(clock: real, period: real): (r: real)
    requires period > 0.0
    ensures clock >= 0.0 ==> 0.0 <= r < TAU
  {
    var f := Rem(clock, period) / period;
    FractionUnit(Rem(clock, period), period);
    UnitAngle(f);
    f * PI * 2.0
  }

  /** (clock / period) * PI * 2: the angle that keeps growing with the clock. */
  function ContinuousPhase(clock: real, period: real): real
    requires period > 0.0
  {
    (clock / period) * PI * 2.0
  }

  /** Math.max(600, duration * 0.6): the roundness cycle is never shorter than 600 ms. */
  function RoundCycleMs(duration: real): (r: real)
    ensures r >= MIN_ROUNDNESS_CYCLE_MS
    ensures r == MIN_ROUNDNESS_CYCLE_MS || r == duration * ROUNDNESS_CYCLE_RATIO
    ensures r >= duration * ROUNDNESS_CYCLE_RATIO
  {
    var scaled := duration * ROUNDNESS_CYCLE_RATIO;
    if MIN_ROUNDNESS_CYCLE_MS > scaled then MIN_ROUNDNESS_CYCLE_MS else scaled
  }

  /** The roundness for a given sine of the roundness phase. */
  function RoundnessOf(s: real): (r: real)
    ensures -1.0 <= s <= 1.0 ==> ROUNDNESS_MIN <= r <= ROUNDNESS_MAX
    ensures s == 1.0 ==> r == ROUNDNESS_MAX
    ensures s == -1.0 ==> r == ROUNDNESS_MIN
  {
    ROUNDNESS_MIN + (ROUNDNESS_MAX - ROUNDNESS_MIN) * (0.5 + 0.5 * s)
  }

  /** The builder arguments for one frame of one wave. */
  function FrameArgs(sin: Sine, clock: real, width: real, height: real,
                     layout: WaveLayout, config: WaveResolvedConfig): PathArgs
  {
    var duration := ResolvedDuration(config.durationMs);
    var roundPhase := WrappedPhase(clock, RoundCycleMs(duration));
    PathArgs(
      width,
      height,
      height * layout.baseYRatio,
      height * layout.amplitudeRatio,
      WrappedPhase(clock, duration),
      ContinuousPhase(clock, duration),
      layout.phaseOffsetRad,
      RoundnessOf(sin(roundPhase)))
  }

  /** The path worklet: rebuilds the wave's path for the current clock value. */
  method AnimateWavePath(path: Path, sin: Sine, clock: real, width: real, height: real,
                         layout: WaveLayout, config: WaveResolvedConfig)
    modifies path
    ensures path.cmds == Outline(sin, config.pathVariant, FrameArgs(sin, clock, width, height, layout, config))
  {
    var args := FrameArgs(sin, clock, width, height, layout, config);
    BuildWavePathByVariant(config.pathVariant, path, args, sin);
  }

  // ---------------------------------------------------------------------------
  // Arithmetic helpers

  lemma FractionUnit(r: real, period: real)
    requires period > 0.0
    requires 0.0 <= r < period || -period < r <= 0.0
    ensures 0.0 <= r / period < 1.0 || -1.0 < r / period <= 0.0
    ensures 0.0 <= r ==> 0.0 <= r / period < 1.0
  {
    var f := r / period;
    assert f * period == r;
    if f >= 1.0 {
      MulLe(period, 1.0, f);
    }
    if f <= -1.0 {
      MulLe(period, f, -1.0);
    }
  }

  lemma UnitAngle(f: real)
    ensures 0.0 <= f < 1.0 ==> 0.0 <= f * PI * 2.0 < TAU
  {
    if 0.0 <= f < 1.0 {
      assert f * PI < PI;
    }
  }

  // ---------------------------------------------------------------------------
  // Properties

  /** For a non-negative clock, the remainder repeats after one period. */
  lemma RemPeriodic(clock: real, period: real)
    requires period > 0.0 && clock >= 0.0
    ensures Rem(clock + period, period) == Rem(clock, period)
  {
    var x := clock / period;
    var y := (clock + period) / period;
    assert x * period == clock;
    assert y * period == clock + period;
    assert (x + 1.0) * period == clock + period;
    QuotientUnique(clock + period, period, y, x + 1.0);
    assert Trunc(x + 1.0) == Trunc(x) + 1;
  }

  lemma QuotientUnique(a: real, p: real, y: real, z: real)
    requires p > 0.0 && y * p == a && z * p == a
    ensures y == z
  {
    if y < z {
      MulStrict(p, y, z);
    } else if z < y {
      MulStrict(p, z, y);
    }
  }

  /** The wrapped phase restarts every period. */
  lemma WrappedPhasePeriodic(clock: real, period: real)
    requires period > 0.0 && clock >= 0.0
    ensures WrappedPhase(clock + period, period) == WrappedPhase(clock, period)
  {
    RemPeriodic(clock, period);
  }

  /** The continuous phase runs ahead of the wrapped one by a whole number of turns. */
  lemma ContinuousRunsAhead(clock: real, period: real)
    requires period > 0.0
    ensures ContinuousPhase(clock, period) - WrappedPhase(clock, period)
      == Trunc(clock / period) as real * TAU
  {
    var q := Trunc(clock / period) as real;
    var rem := Rem(clock, period);
    assert clock - rem == period * q;
    assert clock / period - rem / period == q by {
      var x, y := clock / period, rem / period;
      assert x * period == clock && y * period == rem;
      assert (x - y) * period == x * period - y * period;
      QuotientUnique(clock - rem, period, x - y, q);
    }
    calc {
      ContinuousPhase(clock, period) - WrappedPhase(clock, period);
      == (clock / period) * PI * 2.0 - (rem / period) * PI * 2.0;
      == (clock / period - rem / period) * PI * 2.0;
      == q * TAU;
    }
  }

  /** Long enough durations scale the roundness cycle; short ones hit the 600 ms floor. */
  lemma RoundCycleCases(duration: real)
    ensures duration >= 1000.0 ==> RoundCycleMs(duration) == duration * 0.6
    ensures duration <= 1000.0 ==> RoundCycleMs(duration) == 600.0
  {
  }

  /** Every frame's roundness stays inside [ROUNDNESS_MIN, ROUNDNESS_MAX], and both phases start a period at 0. */
  lemma FrameRanges(sin: Sine, clock: real, width: real, height: real,
                    layout: WaveLayout, config: WaveResolvedConfig)
    requires SineBounded(sin) && clock >= 0.0
    ensures var a := FrameArgs(sin, clock, width, height, layout, config);
      && ROUNDNESS_MIN <= a.roundness <= ROUNDNESS_MAX
      && 0.0 <= a.tRad < TAU
      && a.tContinuousRad - a.tRad == Trunc(clock / ResolvedDuration(config.durationMs)) as real * TAU
  {
    var duration := ResolvedDuration(config.durationMs);
    var roundPhase := WrappedPhase(clock, RoundCycleMs(duration));
    assert -1.0 <= sin(roundPhase) <= 1.0;
    ContinuousRunsAhead(clock, duration);
  }

  /** Whatever the clock, the variant and the layout, a frame never leaves [0, width] horizontally. */
  lemma FrameWithinWidth(sin: Sine, clock: real, width: real, height: real,
                         layout: WaveLayout, config: WaveResolvedConfig)
    requires SineBounded(sin) && width >= 0.0
    ensures var a := FrameArgs(sin, clock, width, height, layout, config);
      forall c :: c in Outline(sin, config.pathVariant, a) ==> c.XWithin(0.0, width)
  {
    var a := FrameArgs(sin, clock, width, height, layout, config);
    var duration := ResolvedDuration(config.durationMs);
    var roundPhase := WrappedPhase(clock, RoundCycleMs(duration));
    assert -1.0 <= sin(roundPhase) <= 1.0;
    OutlineWithinWidth(sin, config.pathVariant, a);
  }

  /**
   * Apart from rounded and travel, a variant's frame depends on the clock only
   * through the wrapped phase, so the animation repeats every duration.
   */
  lemma FramePeriodic(sin: Sine, clock: real, width: real, height: real,
                      layout: WaveLayout, config: WaveResolvedConfig)
    requires clock >= 0.0 && config.pathVariant != Rounded && config.pathVariant != Travel
    ensures var d := ResolvedDuration(config.durationMs);
      Outline(sin, config.pathVariant, FrameArgs(sin, clock + d, width, height, layout, config))
        == Outline(sin, config.pathVariant, FrameArgs(sin, clock, width, height, layout, config))
  {
    var d := ResolvedDuration(config.durationMs);
    var a := FrameArgs(sin, clock, width, height, layout, config);
    var b := FrameArgs(sin, clock + d, width, height, layout, config);
    NextPeriodFrame(sin, clock, width, height, layout, config, a, b);
    SameOutlineButClock(sin, config.pathVariant, a, b);
  }

  /** One duration later, a frame differs at most in its continuous phase and its roundness. */
  lemma NextPeriodFrame(sin: Sine, clock: real, width: real, height: real,
                        layout: WaveLayout, config: WaveResolvedConfig, a: PathArgs, b: PathArgs)
    requires clock >= 0.0
    requires a == FrameArgs(sin, clock, width, height, layout, config)
    requires b == FrameArgs(sin, clock + ResolvedDuration(config.durationMs), width, height, layout, config)
    ensures a.width == b.width && a.height == b.height && a.baseY == b.baseY
    ensures a.waveHeight == b.waveHeight && a.tRad == b.tRad && a.phaseOffsetRad == b.phaseOffsetRad
  {
    WrappedPhasePeriodic(clock, ResolvedDuration(config.durationMs));
  }

  /** Two argument sets that differ at most in the continuous phase and the roundness give one outline. */
  lemma SameOutlineButClock(sin: Sine, v: Variant, a: PathArgs, b: PathArgs)
    requires v != Rounded && v != Travel
    requires a.width == b.width && a.height == b.height && a.baseY == b.baseY
    requires a.waveHeight == b.waveHeight && a.tRad == b.tRad && a.phaseOffsetRad == b.phaseOffsetRad
    ensures Outline(sin, v, b) == Outline(sin, v, a)
  {
    var c := a.(tContinuousRad := b.tContinuousRad);
    OutlineIgnoresContinuousClock(sin, v, a, b.tContinuousRad);
    OutlineIgnoresRoundness(sin, v, c, b.roundness);
    assert b == c.(roundness := b.roundness);
  }
}
