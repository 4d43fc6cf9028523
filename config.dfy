/**
 * Configuration resolution: the loosely typed props of the wave loader are
 * turned into checked values, each with a stated fallback, and the per-wave
 * overrides are layered over the resolved global values.
 */
module WaveConfig {
  import opened Js
  import opened WaveTypes

  const MIN_WAVES: int := 1
  const MAX_WAVES: int := 5
  const DEFAULT_WAVES: int := 3
  const DEFAULT_DURATION_MS: real := 4000.0
  const DEFAULT_COLOR: string := "#012D53"

  /** What each wave is drawn with once props and overrides are resolved. */
  datatype WaveResolvedConfig = WaveResolvedConfig(color: string, durationMs: real, pathVariant: Variant)

  // ---------------------------------------------------------------------------
  // Resolvers

  /** clampWaveCount: a non-finite count becomes 3, any other is rounded and clamped into [1, 5]. */
  function ClampWaveCount(waves: Num): (r: int)
    ensures MIN_WAVES <= r <= MAX_WAVES
    ensures !waves.Fin? ==> r == DEFAULT_WAVES
    ensures waves.Fin? && MIN_WAVES <= Round(waves.val) <= MAX_WAVES ==> r == Round(waves.val)
    ensures waves.Fin? && Round(waves.val) < MIN_WAVES ==> r == MIN_WAVES
    ensures waves.Fin? && Round(waves.val) > MAX_WAVES ==> r == MAX_WAVES
  {
    if !waves.Fin? then DEFAULT_WAVES
    else
      var rounded := Round(waves.val);
      var atLeast := if MIN_WAVES > rounded then MIN_WAVES else rounded;
      if MAX_WAVES < atLeast then MAX_WAVES else atLeast
  }

  /**
   * resolveColor: a string that is not blank once trimmed is used trimmed;
   * anything else (no string, or only whitespace) gives the fallback.
   */
  function ResolveColor(color: Option<string>, fallback: string): (r: string)
    ensures r == fallback || (color.Some? && r == Trim(color.value) && r != [])
    ensures color.Some? && Trim(color.value) != [] ==> r == Trim(color.value)
  {
    if color.None? then fallback
    else
      var trimmed := Trim(color.value);
      if |trimmed| > 0 then trimmed else fallback
  }

  /** resolveDuration: only a finite, positive number is kept. */
  function ResolveDuration(durationMs: Option<Num>, fallback: real): (r: real)
    ensures r == fallback || (durationMs == Some(Fin(r)) && r > 0.0)
    ensures durationMs.Some? && durationMs.value.Fin? && durationMs.value.val > 0.0
      ==> r == durationMs.value.val
  {
    if durationMs.None? then fallback
    else if !durationMs.value.Fin? || durationMs.value.val <= 0.0 then fallback
    else durationMs.value.val
  }

  /** The variant a string tag names, if it names one. */
  function ParseVariant(s: string): Option<Variant> {
    if s == "rounded" then Some(Rounded)
    else if s == "choppy" then Some(Choppy)
    else if s == "smooth" then Some(Smooth)
    else if s == "pulse" then Some(Pulse)
    else if s == "square" then Some(Square)
    else if s == "ripple" then Some(Ripple)
    else if s == "travel" then Some(Travel)
    else None
  }

  /** resolvePathVariant: one of the seven tags is honoured, anything else gives the fallback. */
  function ResolvePathVariant(pathVariant: Option<string>, fallback: Variant): (r: Variant)
    ensures r == fallback || pathVariant == Some(VariantName(r))
    ensures forall v :: pathVariant == Some(VariantName(v)) ==> r == v
  {
    ParseOfName();
    if pathVariant.Some? && ParseVariant(pathVariant.value).Some? then
      NameOfParse(pathVariant.value);
      ParseVariant(pathVariant.value).value
    else fallback
  }

  /** clampUnit: a non-finite value becomes 0, a finite one is clamped into [0, 1]. */
  function ClampUnit(value: Num): (r: real)
    ensures 0.0 <= r <= 1.0
    ensures !value.Fin? ==> r == 0.0
    ensures value.Fin? && 0.0 <= value.val <= 1.0 ==> r == value.val
    ensures value.Fin? && value.val < 0.0 ==> r == 0.0
    ensures value.Fin? && value.val > 1.0 ==> r == 1.0
  {
    if !value.Fin? then 0.0 else ClampNum(0.0, 1.0, value).val
  }

  /** resolveOpacity: no number or a non-finite one gives the fallback, any other is clamped into [0, 1]. */
  function ResolveOpacity(opacity: Option<Num>, fallback: real): (r: real)
    ensures !(opacity.Some? && opacity.value.Fin?) ==> r == fallback
    ensures opacity.Some? && opacity.value.Fin? ==> 0.0 <= r <= 1.0
    ensures opacity.Some? && opacity.value.Fin? && 0.0 <= opacity.value.val <= 1.0 ==> r == opacity.value.val
    ensures opacity.Some? && opacity.value.Fin? && opacity.value.val < 0.0 ==> r == 0.0
    ensures opacity.Some? && opacity.value.Fin? && opacity.value.val > 1.0 ==> r == 1.0
  {
    if opacity.None? || !opacity.value.Fin? then fallback else ClampUnit(opacity.value)
  }

  // ---------------------------------------------------------------------------
  // Layering overrides over the global values

  /** The global values every wave inherits unless its override replaces them. */
  function BaseConfig(color: Option<string>, durationMs: Option<Num>, pathVariant: Option<string>): WaveResolvedConfig {
    WaveResolvedConfig(
      ResolveColor(color, DEFAULT_COLOR),
      ResolveDuration(durationMs, DEFAULT_DURATION_MS),
      ResolvePathVariant(pathVariant, Rounded))
  }

  /** waveOverrides[index]: past the end of the list there is no override at all. */
  function OverrideAt(overrides: seq<WaveOverride>, index: nat): WaveOverride {
    if index < |overrides| then overrides[index] else EMPTY_OVERRIDE
  }

  /** One wave's configuration: each override field resolved against the global value. */
  function ConfigFor(base: WaveResolvedConfig, o: WaveOverride): WaveResolvedConfig {
    WaveResolvedConfig(
      ResolveColor(o.color, base.color),
      ResolveDuration(o.durationMs, base.durationMs),
      ResolvePathVariant(o.pathVariant, base.pathVariant))
  }

  /** buildWaveConfigs: one resolved configuration per wave, in order. */
  method BuildWaveConfigs(waveCount: int, color: Option<string>, durationMs: Option<Num>,
                          pathVariant: Option<string>, waveOverrides: seq<WaveOverride>)
    returns (configs: seq<WaveResolvedConfig>)
    ensures |configs| == if waveCount > 0 then waveCount else 0
    ensures forall i :: 0 <= i < |configs| ==>
      configs[i] == ConfigFor(BaseConfig(color, durationMs, pathVariant), OverrideAt(waveOverrides, i))
  {
    var baseColor := ResolveColor(color, DEFAULT_COLOR);
    var baseDuration := ResolveDuration(durationMs, DEFAULT_DURATION_MS);
    var basePathVariant := ResolvePathVariant(pathVariant, Rounded);
    var base := WaveResolvedConfig(baseColor, baseDuration, basePathVariant);
    assert base == BaseConfig(color, durationMs, pathVariant);
    configs := [];
    ghost var n := if waveCount > 0 then waveCount else 0;
    ghost var expected := seq(n, i requires 0 <= i => ConfigFor(base, OverrideAt(waveOverrides, i)));

    var index := 0;
    while index < waveCount
      invariant 0 <= index <= n
      invariant configs == expected[..index]
    {
      var config := ConfigFor(base, OverrideAt(waveOverrides, index));
      assert config == expected[index];
      configs := configs + [config];
      index := index + 1;
    }
    assert configs == expected;
  }

  /**
   * getWaveLayout / getWaveConfig: the entry at the index, or the last entry
   * when the index runs past the end.
   */
  function ClampedAt<T>(entries: seq<T>, index: int): (r: T)
    requires |entries| > 0 && index >= 0
    ensures index < |entries| ==> r == entries[index]
    ensures index >= |entries| ==> r == entries[|entries| - 1]
  {
    entries[if index < |entries| - 1 then index else |entries| - 1]
  }

  // ---------------------------------------------------------------------------
  // Properties

  /** Every variant's tag parses back to that variant. */
  lemma ParseOfName()
    ensures forall v :: ParseVariant(VariantName(v)) == Some(v)
  {
    forall v
      ensures ParseVariant(VariantName(v)) == Some(v)
    {
      match v
      case Rounded =>
      case Choppy =>
      case Smooth =>
      case Pulse =>
      case Square =>
      case Ripple =>
      case Travel =>
    }
  }

  /** A string that parses is exactly the tag of the variant it parses to. */
  lemma NameOfParse(s: string)
    ensures ParseVariant(s).Some? ==> VariantName(ParseVariant(s).value) == s
  {
  }

  /** Tags that are not among the seven, such as "classic" (used by a preset) and "tall" (offered by the demo), fall back. */
  lemma UnknownTagsFallBack(fallback: Variant)
    ensures ResolvePathVariant(Some("classic"), fallback) == fallback
    ensures ResolvePathVariant(Some("tall"), fallback) == fallback
    ensures ResolvePathVariant(Some("Rounded"), fallback) == fallback
    ensures ResolvePathVariant(Some("classic"), Rounded) == Rounded
  {
  }

  lemma ClampWaveCountExamples()
    ensures ClampWaveCount(Fin(0.0)) == 1
    ensures ClampWaveCount(Fin(7.0)) == 5
    ensures ClampWaveCount(NaN) == 3 && ClampWaveCount(PosInf) == 3 && ClampWaveCount(NegInf) == 3
    ensures ClampWaveCount(Fin(2.5)) == 3 && ClampWaveCount(Fin(2.4)) == 2
    ensures ClampWaveCount(Fin(0.5)) == 1 && ClampWaveCount(Fin(-3.0)) == 1
  {
  }

  /** A colour that is missing or blank gives the fallback. */
  lemma BlankColorFallsBack(color: string, fallback: string)
    requires forall k :: 0 <= k < |color| ==> IsWhitespace(color[k])
    ensures ResolveColor(Some(color), fallback) == fallback
  {
    TrimEmptyIff(color);
  }

  /**
   * A resolved colour is either the fallback or a non-empty slice of the
   * input with no whitespace at either end.
   */
  lemma ResolvedColorIsTrimmed(color: Option<string>, fallback: string)
    ensures var r := ResolveColor(color, fallback);
      r == fallback || (r != [] && !IsWhitespace(r[0]) && !IsWhitespace(r[|r| - 1]))
  {
    if color.Some? {
      TrimEnds(color.value);
    }
  }

  /** Resolving a resolved colour again changes nothing, when the fallback is itself a resolved colour. */
  lemma ResolveColorIdempotent(color: Option<string>, fallback: string)
    requires fallback != [] && Trim(fallback) == fallback
    ensures ResolveColor(Some(ResolveColor(color, fallback)), fallback) == ResolveColor(color, fallback)
  {
    var r := ResolveColor(color, fallback);
    if color.Some? && Trim(color.value) != [] {
      TrimIdempotent(color.value);
    }
    assert Trim(r) == r;
  }

  /** The hard default colour is already trimmed. */
  lemma DefaultColorTrimmed()
    ensures DEFAULT_COLOR != [] && Trim(DEFAULT_COLOR) == DEFAULT_COLOR
  {
    assert LeadingSpace(DEFAULT_COLOR) == 0;
    assert DEFAULT_COLOR[0..] == DEFAULT_COLOR;
    assert TrailingSpace(DEFAULT_COLOR) == 0;
  }

  /** Every resolved configuration has a positive duration and a non-empty colour. */
  lemma ConfigsWellFormed(color: Option<string>, durationMs: Option<Num>, pathVariant: Option<string>, o: WaveOverride)
    ensures var base := BaseConfig(color, durationMs, pathVariant);
      && base.durationMs > 0.0 && base.color != []
      && ConfigFor(base, o).durationMs > 0.0 && ConfigFor(base, o).color != []
  {
  }

  /**
   * A missing or invalid override field falls back to the resolved global
   * value, not to the hard default.
   */
  lemma OverrideInheritsGlobal(base: WaveResolvedConfig, o: WaveOverride)
    ensures (o.color.None? || Trim(o.color.value) == []) ==> ConfigFor(base, o).color == base.color
    ensures (o.durationMs.None? || !o.durationMs.value.Fin? || o.durationMs.value.val <= 0.0)
      ==> ConfigFor(base, o).durationMs == base.durationMs
    ensures (o.pathVariant.None? || ParseVariant(o.pathVariant.value).None?)
      ==> ConfigFor(base, o).pathVariant == base.pathVariant
    ensures ConfigFor(base, EMPTY_OVERRIDE) == base
  {
  }

  /** An example: a global duration of 1200 ms survives an override of -5 and an override tag "tall". */
  lemma InheritanceExample()
    ensures var base := BaseConfig(None, Some(Fin(1200.0)), Some("choppy"));
      var c := ConfigFor(base, WaveOverride(None, Some(Fin(-5.0)), Some("tall")));
      c == WaveResolvedConfig(DEFAULT_COLOR, 1200.0, Choppy)
  {
    assert ParseVariant("choppy") == Some(Choppy);
  }
}
