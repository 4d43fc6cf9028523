/**
 * The demo screen's state rules (components/wave-loader-demo.tsx): the preset
 * copy, the partial-props merge every control goes through, the numeric text
 * fields and steppers with their clamps, the wave-count chips and the per-wave
 * override editor. React's state is a value here: each handler maps the
 * current state to the next one.
 */
module LoaderDemo {
  import opened Js
  import opened WaveTypes
  import opened WaveConfig
  import opened WaveLoaderView

  const MAHALO_PRESET: WaveLoaderProps := WaveLoaderProps(
    Some(Fin(240.0)), Some(Fin(80.0)), Some(Fin(3.0)), Some("#012D53"),
    Some(Fin(4000.0)), Some("rounded"), None, None, None)

  const MAHALO_ID: string := "mahalo"
  const CUSTOM_ID: string := "custom"

  /** The fallbacks the screen reads the current props with (`?? 3`, `?? 4000`, ...). */
  const SHOWN_WAVES: real := 3.0
  const SHOWN_DURATION_MS: real := 4000.0
  const SHOWN_OPACITY: real := 0.5
  const SHOWN_FADE_OUT: real := 60.0

  const MIN_DURATION_MS: real := 400.0
  const DURATION_STEP_MS: real := 400.0
  const OPACITY_STEP: real := 0.1
  const FADE_OUT_STEP: real := 10.0
  const MAX_FADE_OUT: real := 100.0

  /** 10^21: from here on toFixed writes the plain number text. */
  const TO_FIXED_LIMIT: real := 1_000_000_000_000_000_000_000.0

  /** The variant chips the screen offers; "tall" is not one of the loader's tags. */
  const PATH_VARIANTS: seq<string> := ["rounded", "choppy", "smooth", "tall", "pulse"]

  /** 2^53 - 1, the largest length ToLength produces. */
  const MAX_LENGTH: nat := 0x1F_FFFF_FFFF_FFFF

  // ---------------------------------------------------------------------------
  // Spreads

  /** One key of a spread `{ ...current, ...partial }`: absent from the partial, or present (possibly as undefined). */
  datatype Patch<T> = Keep | Put(value: T)

  function Apply<T>(p: Patch<T>, current: T): T {
    if p.Put? then p.value else current
  }

  /** Partial<WaveLoaderProps>. */
  datatype PropsPatch = PropsPatch(
    width: Patch<Option<Num>>,
    height: Patch<Option<Num>>,
    waves: Patch<Option<Num>>,
    color: Patch<Option<string>>,
    durationMs: Patch<Option<Num>>,
    pathVariant: Patch<Option<string>>,
    opacity: Patch<Option<Num>>,
    fadeOut: Patch<Option<Num>>,
    waveOverrides: Patch<Option<seq<WaveOverride>>>)

  const NO_PATCH := PropsPatch(Keep, Keep, Keep, Keep, Keep, Keep, Keep, Keep, Keep)

  /** Partial<WaveLoaderWaveOverride>. */
  datatype OverridePatch = OverridePatch(
    color: Patch<Option<string>>,
    durationMs: Patch<Option<Num>>,
    pathVariant: Patch<Option<string>>)

  const NO_OVERRIDE_PATCH := OverridePatch(Keep, Keep, Keep)

  /** `{ ...current, ...partial }` on the props: every key the partial holds replaces the current one. */
  function Merge(current: WaveLoaderProps, p: PropsPatch): WaveLoaderProps {
    WaveLoaderProps(
      Apply(p.width, current.width),
      Apply(p.height, current.height),
      Apply(p.waves, current.waves),
      Apply(p.color, current.color),
      Apply(p.durationMs, current.durationMs),
      Apply(p.pathVariant, current.pathVariant),
      Apply(p.opacity, current.opacity),
      Apply(p.fadeOut, current.fadeOut),
      Apply(p.waveOverrides, current.waveOverrides))
  }

  /** `{ ...current, ...partial }` on one override. */
  function MergeOverride(current: WaveOverride, p: OverridePatch): WaveOverride {
    WaveOverride(
      Apply(p.color, current.color),
      Apply(p.durationMs, current.durationMs),
      Apply(p.pathVariant, current.pathVariant))
  }

  // ---------------------------------------------------------------------------
  // Screen state

  /** The state the screen's handlers update: the selected preset's id and the loader props. */
  datatype DemoState = DemoState(presetId: string, props: WaveLoaderProps)

  /** copyPreset: a missing preset falls back to the Mahalo preset; the overrides are copied one by one. */
  function CopyPreset(preset: Option<WaveLoaderProps>): (r: WaveLoaderProps)
    ensures preset.None? ==> r == MAHALO_PRESET
    ensures preset.Some? ==> r == preset.value
  {
    var safe := if preset.Some? then preset.value else MAHALO_PRESET;
    if safe.waveOverrides.None? then safe
    else
      var list := safe.waveOverrides.value;
      var copied := seq(|list|, i requires 0 <= i < |list| => WaveOverride(list[i].color, list[i].durationMs, list[i].pathVariant));
      assert copied == list;
      safe.(waveOverrides := Some(copied))
  }

  const INITIAL_STATE: DemoState := DemoState(MAHALO_ID, CopyPreset(Some(MAHALO_PRESET)))

  /** setFromPreset: selects the preset's id and a copy of its props. */
  function SetFromPreset(s: DemoState, id: string, preset: WaveLoaderProps): DemoState {
    DemoState(id, CopyPreset(Some(preset)))
  }

  /** setPartial: any edit marks the state as custom and spreads the partial over the props. */
  function SetPartial(s: DemoState, p: PropsPatch): DemoState {
    DemoState(CUSTOM_ID, Merge(s.props, p))
  }

  // ---------------------------------------------------------------------------
  // Numeric text fields

  /** The five numeric text inputs of the screen. */
  datatype NumberField = WidthInput | HeightInput | DurationInput | OpacityInput | FadeOutInput

  /** The updater each input passes to setNumberField; opacity and fadeOut clamp the parsed number. */
  function FieldPatch(f: NumberField, n: Option<Num>): PropsPatch {
    match f
    case WidthInput => NO_PATCH.(width := Put(n))
    case HeightInput => NO_PATCH.(height := Put(n))
    case DurationInput => NO_PATCH.(durationMs := Put(n))
    case OpacityInput => NO_PATCH.(opacity := Put(if n.Some? then Some(ClampNum(0.0, 1.0, n.value)) else None))
    case FadeOutInput => NO_PATCH.(fadeOut := Put(if n.Some? then Some(ClampNum(0.0, MAX_FADE_OUT, n.value)) else None))
  }

  /** The prop a numeric input edits. */
  function FieldValue(props: WaveLoaderProps, f: NumberField): Option<Num> {
    match f
    case WidthInput => props.width
    case HeightInput => props.height
    case DurationInput => props.durationMs
    case OpacityInput => props.opacity
    case FadeOutInput => props.fadeOut
  }

  /**
   * setNumberField: blank text clears the prop, text that parses to NaN is
   * ignored, anything else is stored through the field's updater. `parse` is
   * the platform's Number(text).
   */
  function SetNumberField(s: DemoState, text: string, parse: string -> Num, f: NumberField): DemoState {
    if Trim(text) == [] then SetPartial(s, FieldPatch(f, None))
    else
      var parsed := parse(text);
      if parsed == NaN then s else SetPartial(s, FieldPatch(f, Some(parsed)))
  }

  /** adjustDuration: Math.max(400, (durationMs ?? 4000) + delta). */
  function AdjustDuration(s: DemoState, delta: real): DemoState {
    var next := MaxNum(MIN_DURATION_MS, AddNum(OrDefault(s.props.durationMs, SHOWN_DURATION_MS), delta));
    SetPartial(s, NO_PATCH.(durationMs := Put(Some(next))))
  }

  /**
   * Number(x.toFixed(2)): the nearest multiple of 0.01, halves away from zero;
   * toFixed gives the plain number text from TO_FIXED_LIMIT up, and the text of NaN and
   * the infinities parses back to the same value.
   */
  function ToFixed2(x: Num): (r: Num)
    ensures !x.Fin? ==> r == x
    ensures x.Fin? ==> r.Fin?
    ensures x.Fin? && Abs(x.val) < TO_FIXED_LIMIT ==> Abs(r.val - x.val) <= 0.005
    ensures x.Fin? && 0.0 <= x.val ==> 0.0 <= r.val
    ensures x.Fin? && x.val <= 1.0 ==> r.val <= 1.0
  {
    match x
    case Fin(v) =>
      if Abs(v) >= TO_FIXED_LIMIT then x
      else if v < 0.0 then Fin(-(Round(-v * 100.0) as real) / 100.0)
      else Fin((Round(v * 100.0) as real) / 100.0)
    case _ => x
  }

  /** The opacity steppers: one step of 0.1 down (floored at 0) or up (capped at 1), rounded to hundredths. */
  function StepOpacity(s: DemoState, up: bool): DemoState {
    var current := OrDefault(s.props.opacity, SHOWN_OPACITY);
    var next := if up then MinNum(1.0, AddNum(current, OPACITY_STEP))
      else MaxNum(0.0, AddNum(current, -OPACITY_STEP));
    SetPartial(s, NO_PATCH.(opacity := Put(Some(ToFixed2(next)))))
  }

  /** The fadeOut steppers: one step of 10 down (floored at 0) or up (capped at 100). */
  function StepFadeOut(s: DemoState, up: bool): DemoState {
    var current := OrDefault(s.props.fadeOut, SHOWN_FADE_OUT);
    var next := if up then MinNum(MAX_FADE_OUT, AddNum(current, FADE_OUT_STEP))
      else MaxNum(0.0, AddNum(current, -FADE_OUT_STEP));
    SetPartial(s, NO_PATCH.(fadeOut := Put(Some(next))))
  }

  // ---------------------------------------------------------------------------
  // Wave count and overrides

  /** `list.slice(0, n)`. */
  function Prefix<T>(list: seq<T>, n: nat): (r: seq<T>)
    ensures |r| == if n < |list| then n else |list|
    ensures forall i :: 0 <= i < |r| ==> r[i] == list[i]
  {
    if n < |list| then list[..n] else list
  }

  /** A wave chip: sets the wave count and keeps only the first n overrides. */
  function SelectWaves(s: DemoState, n: nat): DemoState {
    var kept := if s.props.waveOverrides.None? then None else Some(Prefix(s.props.waveOverrides.value, n));
    SetPartial(s, NO_PATCH.(waves := Put(Some(Fin(n as real))), waveOverrides := Put(kept)))
  }

  /** ToLength: the array length `Array.from({ length: n })` makes. */
  function ToLength(n: Num): (r: nat)
    ensures r <= MAX_LENGTH
    ensures n.Fin? && 0.0 <= n.val <= MAX_LENGTH as real ==> r == n.val.Floor
    ensures n.NaN? || n.NegInf? || (n.Fin? && n.val < 1.0) ==> r == 0
  {
    match n
    case Fin(x) => if x <= 0.0 then 0 else if x.Floor > MAX_LENGTH then MAX_LENGTH else x.Floor
    case NaN => 0
    case PosInf => MAX_LENGTH
    case NegInf => 0
  }

  /** `Array.from({ length }, () => ({}))`. */
  function EmptyOverrides(length: nat): (r: seq<WaveOverride>)
    ensures |r| == length
    ensures forall i :: 0 <= i < length ==> r[i] == EMPTY_OVERRIDE
  {
    seq(length, _ => EMPTY_OVERRIDE)
  }

  /** ensureOverrides: an existing list (even an empty one) is kept, otherwise one empty override per wave. */
  function EnsureOverrides(s: DemoState): DemoState {
    if s.props.waveOverrides.Some? then DemoState(CUSTOM_ID, s.props)
    else
      var total := OrDefault(s.props.waves, SHOWN_WAVES);
      DemoState(CUSTOM_ID, s.props.(waveOverrides := Some(EmptyOverrides(ToLength(total)))))
  }

  /** clearOverrides. */
  function ClearOverrides(s: DemoState): DemoState {
    SetPartial(s, NO_PATCH.(waveOverrides := Put(None)))
  }

  /** `overrides[index] = o` on a copy; positions skipped past the end are filled with empty overrides. */
  function Store(overrides: seq<WaveOverride>, index: nat, o: WaveOverride): (r: seq<WaveOverride>)
    ensures |r| == if index < |overrides| then |overrides| else index + 1
    ensures r[index] == o
    ensures forall j :: 0 <= j < |overrides| && j != index ==> r[j] == overrides[j]
    ensures forall j :: |overrides| <= j < index ==> r[j] == EMPTY_OVERRIDE
  {
    if index < |overrides| then overrides[index := o]
    else overrides + EmptyOverrides(index - |overrides|) + [o]
  }

  /** The list updateWaveOverride starts from: a copy of the current one, or one empty override per wave. */
  function OverridesToEdit(props: WaveLoaderProps): seq<WaveOverride> {
    if props.waveOverrides.Some? then props.waveOverrides.value
    else EmptyOverrides(ToLength(OrDefault(props.waves, SHOWN_WAVES)))
  }

  /** updateWaveOverride: merges the partial into entry `index` of (a copy of) the overrides. */
  function UpdateWaveOverride(s: DemoState, index: nat, p: OverridePatch): DemoState {
    var overrides := OverridesToEdit(s.props);
    var merged := MergeOverride(OverrideAt(overrides, index), p);
    DemoState(CUSTOM_ID, s.props.(waveOverrides := Some(Store(overrides, index, merged))))
  }

  /** The override colour input: blank text clears the override's colour, other text is kept untrimmed. */
  function EditOverrideColor(s: DemoState, index: nat, text: string): DemoState {
    UpdateWaveOverride(s, index, NO_OVERRIDE_PATCH.(color := Put(if Trim(text) != [] then Some(text) else None)))
  }

  /** The override duration input: blank text clears it, NaN is ignored. */
  function EditOverrideDuration(s: DemoState, index: nat, text: string, parse: string -> Num): DemoState {
    if Trim(text) == [] then UpdateWaveOverride(s, index, NO_OVERRIDE_PATCH.(durationMs := Put(None)))
    else
      var parsed := parse(text);
      if parsed == NaN then s
      else UpdateWaveOverride(s, index, NO_OVERRIDE_PATCH.(durationMs := Put(Some(parsed))))
  }

  // ---------------------------------------------------------------------------
  // The screen's controls

  /** Every control of the screen that changes the loader props. */
  datatype Action =
    | ChoosePreset(id: string, preset: WaveLoaderProps)
    | TypeNumber(field: NumberField, text: string)
    | StepDuration(up: bool)
    | StepOpacityAction(up: bool)
    | StepFadeOutAction(up: bool)
    | TypeColor(text: string)
    | PickVariant(name: string)
    | PickWaves(n: nat)
    | AddOverrides
    | ClearOverridesAction
    | TypeOverrideColor(index: nat, text: string)
    | PickOverrideColor(index: nat, swatch: string)
    | TypeOverrideDuration(index: nat, text: string)
    | PickOverrideVariant(index: nat, variant: Option<string>)

  /** The state after one control is used; `parse` is Number(text). */
  function Step(s: DemoState, a: Action, parse: string -> Num): DemoState {
    match a
    case ChoosePreset(id, preset) => SetFromPreset(s, id, preset)
    case TypeNumber(f, text) => SetNumberField(s, text, parse, f)
    case StepDuration(up) => AdjustDuration(s, if up then DURATION_STEP_MS else -DURATION_STEP_MS)
    case StepOpacityAction(up) => StepOpacity(s, up)
    case StepFadeOutAction(up) => StepFadeOut(s, up)
    case TypeColor(text) => SetPartial(s, NO_PATCH.(color := Put(Some(text))))
    case PickVariant(name) => SetPartial(s, NO_PATCH.(pathVariant := Put(Some(name))))
    case PickWaves(n) => SelectWaves(s, n)
    case AddOverrides => EnsureOverrides(s)
    case ClearOverridesAction => ClearOverrides(s)
    case TypeOverrideColor(i, text) => EditOverrideColor(s, i, text)
    case PickOverrideColor(i, swatch) => UpdateWaveOverride(s, i, NO_OVERRIDE_PATCH.(color := Put(Some(swatch))))
    case TypeOverrideDuration(i, text) => EditOverrideDuration(s, i, text, parse)
    case PickOverrideVariant(i, v) => UpdateWaveOverride(s, i, NO_OVERRIDE_PATCH.(pathVariant := Put(v)))
  }

  /** The state after a sequence of controls, first to last. */
  function Run(s: DemoState, actions: seq<Action>, parse: string -> Num): DemoState
    decreases |actions|
  {
    if |actions| == 0 then s else Run(Step(s, actions[0], parse), actions[1..], parse)
  }

  // ---------------------------------------------------------------------------
  // Properties of the edits

  /** A partial with no keys changes nothing, and spreading the same partial twice is spreading it once. */
  lemma MergeLaws(current: WaveLoaderProps, p: PropsPatch)
    ensures Merge(current, NO_PATCH) == current
    ensures Merge(Merge(current, p), p) == Merge(current, p)
  {
  }

  /** The props agree everywhere except possibly in the prop of input f. */
  predicate SameExcept(a: WaveLoaderProps, b: WaveLoaderProps, f: NumberField) {
    && a.waves == b.waves && a.color == b.color && a.pathVariant == b.pathVariant
    && a.waveOverrides == b.waveOverrides
    && forall g :: g != f ==> FieldValue(a, g) == FieldValue(b, g)
  }

  /**
   * setNumberField: blank text clears the prop; text Number() reads as NaN leaves
   * the whole state as it was; any other number is stored (clamped for opacity
   * and fadeOut). No other prop changes.
   */
  lemma NumberFieldEdit(s: DemoState, text: string, parse: string -> Num, f: NumberField)
    ensures var r := SetNumberField(s, text, parse, f);
      && SameExcept(r.props, s.props, f)
      && (Trim(text) == [] ==> r.presetId == CUSTOM_ID && FieldValue(r.props, f) == None)
      && (Trim(text) != [] && parse(text) == NaN ==> r == s)
      && (Trim(text) != [] && parse(text) != NaN ==>
            r.presetId == CUSTOM_ID && FieldValue(r.props, f).Some? && FieldValue(r.props, f).value != NaN)
      && (Trim(text) != [] && (f.WidthInput? || f.HeightInput? || f.DurationInput?) && parse(text) != NaN ==>
            FieldValue(r.props, f) == Some(parse(text)))
  {
  }

  /**
   * An opacity typed in is stored inside [0, 1]: one already inside is stored as typed,
   * one below 0 (or -Infinity) as 0 and one above 1 (or Infinity) as 1.
   */
  lemma OpacityInputClamped(s: DemoState, text: string, parse: string -> Num)
    requires Trim(text) != [] && parse(text) != NaN
    ensures var o := SetNumberField(s, text, parse, OpacityInput).props.opacity;
      && o.Some? && o.value.Fin? && 0.0 <= o.value.val <= 1.0
      && (parse(text).Fin? && 0.0 <= parse(text).val <= 1.0 ==> o == Some(parse(text)))
      && (parse(text) == NegInf || (parse(text).Fin? && parse(text).val < 0.0) ==> o == Some(Fin(0.0)))
      && (parse(text) == PosInf || (parse(text).Fin? && parse(text).val > 1.0) ==> o == Some(Fin(1.0)))
  {
  }

  /**
   * A fadeOut typed in is stored inside [0, 100]: one already inside is stored as typed,
   * one below 0 (or -Infinity) as 0 and one above 100 (or Infinity) as 100.
   */
  lemma FadeOutInputClamped(s: DemoState, text: string, parse: string -> Num)
    requires Trim(text) != [] && parse(text) != NaN
    ensures var o := SetNumberField(s, text, parse, FadeOutInput).props.fadeOut;
      && o.Some? && o.value.Fin? && 0.0 <= o.value.val <= MAX_FADE_OUT
      && (parse(text).Fin? && 0.0 <= parse(text).val <= MAX_FADE_OUT ==> o == Some(parse(text)))
      && (parse(text) == NegInf || (parse(text).Fin? && parse(text).val < 0.0) ==> o == Some(Fin(0.0)))
      && (parse(text) == PosInf || (parse(text).Fin? && parse(text).val > MAX_FADE_OUT) ==> o == Some(Fin(MAX_FADE_OUT)))
  {
  }

  /** Typing -5 into the opacity field stores 0; typing 150 into the fadeOut field stores 100. */
  lemma TypedOutOfRangeExamples(s: DemoState, parse: string -> Num)
    requires parse("-5") == Fin(-5.0) && parse("150") == Fin(150.0)
    ensures SetNumberField(s, "-5", parse, OpacityInput).props.opacity == Some(Fin(0.0))
    ensures SetNumberField(s, "150", parse, FadeOutInput).props.fadeOut == Some(Fin(100.0))
  {
    assert Trim("-5") != [] by { TrimEmptyIff("-5"); assert !IsWhitespace("-5"[0]); }
    assert Trim("150") != [] by { TrimEmptyIff("150"); assert !IsWhitespace("150"[0]); }
    OpacityInputClamped(s, "-5", parse);
    FadeOutInputClamped(s, "150", parse);
  }

  /** The duration steppers never go below 400 ms; from a number (or nothing) they move by delta or stop at 400. */
  lemma DurationStepFloor(s: DemoState, delta: real)
    ensures var d := AdjustDuration(s, delta).props.durationMs;
      && d.Some? && d.value != NegInf
      && (d.value.Fin? ==> d.value.val >= MIN_DURATION_MS)
      && (s.props.durationMs.None? || s.props.durationMs.value.Fin? ==>
            var current := OrDefault(s.props.durationMs, SHOWN_DURATION_MS).val;
            d.value.Fin? && d.value.val == (if current + delta > MIN_DURATION_MS then current + delta else MIN_DURATION_MS))
  {
  }

  /** Away from the 400 ms floor, one step down and one step up restore the duration. */
  lemma DurationStepsUndo(s: DemoState)
    requires s.props.durationMs.None? || (s.props.durationMs.value.Fin? && s.props.durationMs.value.val >= 800.0)
    ensures var back := AdjustDuration(AdjustDuration(s, -DURATION_STEP_MS), DURATION_STEP_MS);
      back.props.durationMs == Some(OrDefault(s.props.durationMs, SHOWN_DURATION_MS))
  {
  }

  /**
   * The opacity steppers: stepping down never goes below 0, stepping up never
   * above 1, a value in [0, 1] stays in [0, 1], and each step lands within
   * 0.005 of the clamped step.
   */
  lemma OpacityStepRange(s: DemoState, up: bool)
    ensures var o := StepOpacity(s, up).props.opacity;
      var current := OrDefault(s.props.opacity, SHOWN_OPACITY);
      && o.Some?
      && (!up && o.value.Fin? ==> o.value.val >= 0.0)
      && (up && o.value.Fin? ==> o.value.val <= 1.0)
      && (current.Fin? && 0.0 <= current.val <= 1.0 ==>
            && o.value.Fin? && 0.0 <= o.value.val <= 1.0
            && var exact := if up then (if current.val + OPACITY_STEP < 1.0 then current.val + OPACITY_STEP else 1.0)
                            else (if current.val - OPACITY_STEP > 0.0 then current.val - OPACITY_STEP else 0.0);
               Abs(o.value.val - exact) <= 0.005)
  {
    var current := OrDefault(s.props.opacity, SHOWN_OPACITY);
    if current.Fin? && 0.0 <= current.val <= 1.0 {
      var next := if up then MinNum(1.0, AddNum(current, OPACITY_STEP)) else MaxNum(0.0, AddNum(current, -OPACITY_STEP));
      assert next.Fin? && 0.0 <= next.val <= 1.0;
      assert Abs(ToFixed2(next).val - next.val) <= 0.005;
    }
  }

  /** The fadeOut steppers: down stays at or above 0, up at or below 100, and from a value in [0, 100] each step moves by exactly 10, clamped at the ends. */
  lemma FadeOutStepRange(s: DemoState, up: bool)
    ensures var o := StepFadeOut(s, up).props.fadeOut;
      var current := OrDefault(s.props.fadeOut, SHOWN_FADE_OUT);
      && o.Some?
      && (!up && o.value.Fin? ==> o.value.val >= 0.0)
      && (up && o.value.Fin? ==> o.value.val <= MAX_FADE_OUT)
      && (current.Fin? && 0.0 <= current.val <= MAX_FADE_OUT ==>
            && o.value.Fin? && 0.0 <= o.value.val <= MAX_FADE_OUT
            && o.value.val == if up then (if current.val + FADE_OUT_STEP < MAX_FADE_OUT then current.val + FADE_OUT_STEP else MAX_FADE_OUT)
                              else (if current.val - FADE_OUT_STEP > 0.0 then current.val - FADE_OUT_STEP else 0.0))
  {
  }

  /** A wave chip sets the count and keeps exactly the first n overrides, or still none. */
  lemma SelectWavesSlices(s: DemoState, n: nat)
    ensures var r := SelectWaves(s, n);
      && r.presetId == CUSTOM_ID
      && r.props == s.props.(waves := r.props.waves, waveOverrides := r.props.waveOverrides)
      && r.props.waves == Some(Fin(n as real))
      && (r.props.waveOverrides.None? <==> s.props.waveOverrides.None?)
      && (s.props.waveOverrides.Some? ==>
            var before, after := s.props.waveOverrides.value, r.props.waveOverrides.value;
            && |after| == (if n < |before| then n else |before|)
            && forall i :: 0 <= i < |after| ==> after[i] == before[i])
  {
  }

  /** Choosing the same chip twice is choosing it once. */
  lemma SelectWavesIdempotent(s: DemoState, n: nat)
    ensures SelectWaves(SelectWaves(s, n), n) == SelectWaves(s, n)
  {
  }

  /** For the chips 1 to 5, dropping the overrides past n changes nothing the loader draws. */
  lemma SelectWavesKeepsRender(s: DemoState, n: nat)
    requires 1 <= n <= 5
    ensures Render(SelectWaves(s, n).props) == Render(s.props.(waves := Some(Fin(n as real))))
  {
    var p := s.props.(waves := Some(Fin(n as real)));
    assert WaveCountOf(p) == n;
    if s.props.waveOverrides.Some? {
      var list := s.props.waveOverrides.value;
      if n < |list| {
        ExtraOverridesIgnored(p, list, n);
        assert SelectWaves(s, n).props == p.(waveOverrides := Some(list[..n]));
      } else {
        assert SelectWaves(s, n).props == p;
      }
    } else {
      assert SelectWaves(s, n).props == p;
    }
  }

  /** ensureOverrides keeps an existing list and otherwise makes one empty override per wave. */
  lemma EnsureOverridesResult(s: DemoState)
    ensures var r := EnsureOverrides(s);
      && r.presetId == CUSTOM_ID
      && r.props.waveOverrides.Some?
      && r.props == s.props.(waveOverrides := r.props.waveOverrides)
      && (s.props.waveOverrides.Some? ==> r.props == s.props)
      && (s.props.waveOverrides.None? ==>
            var list := r.props.waveOverrides.value;
            && |list| == ToLength(OrDefault(s.props.waves, SHOWN_WAVES))
            && forall i :: 0 <= i < |list| ==> list[i] == EMPTY_OVERRIDE)
  {
  }

  /** Adding the (empty) override list changes nothing the loader draws. */
  lemma EnsureOverridesKeepsRender(s: DemoState)
    ensures Render(EnsureOverrides(s).props) == Render(s.props)
  {
    var p, q := s.props, EnsureOverrides(s).props;
    forall i | 0 <= i < WaveCountOf(p)
      ensures OverrideAt(OverridesOf(q), i) == OverrideAt(OverridesOf(p), i)
    {
    }
    assert Configs(q) == Configs(p);
  }

  /** Pressing add twice is pressing it once; clear always leaves no overrides. */
  lemma OverrideButtons(s: DemoState)
    ensures EnsureOverrides(EnsureOverrides(s)) == EnsureOverrides(s)
    ensures ClearOverrides(s).props.waveOverrides.None?
    ensures ClearOverrides(EnsureOverrides(s)) == ClearOverrides(s)
  {
  }

  /**
   * updateWaveOverride: entry `index` becomes the merge of its old value (or an
   * empty override) with the partial; every other entry and every other prop
   * stays; a missing list starts as one empty override per wave.
   */
  lemma UpdateTargetsOneEntry(s: DemoState, index: nat, p: OverridePatch)
    ensures var r := UpdateWaveOverride(s, index, p);
      var before := OverridesToEdit(s.props);
      && r.presetId == CUSTOM_ID
      && r.props == s.props.(waveOverrides := r.props.waveOverrides)
      && r.props.waveOverrides.Some?
      && var after := r.props.waveOverrides.value;
         && |after| == (if index < |before| then |before| else index + 1)
         && after[index] == MergeOverride(if index < |before| then before[index] else EMPTY_OVERRIDE, p)
         && (forall j :: 0 <= j < |before| && j != index ==> after[j] == before[j])
         && (s.props.waveOverrides.None? ==> |before| == ToLength(OrDefault(s.props.waves, SHOWN_WAVES)))
  {
  }

  /** Applying the same override edit twice is applying it once. */
  lemma UpdateIdempotent(s: DemoState, index: nat, p: OverridePatch)
    ensures UpdateWaveOverride(UpdateWaveOverride(s, index, p), index, p) == UpdateWaveOverride(s, index, p)
  {
    var once := UpdateWaveOverride(s, index, p);
    var list := once.props.waveOverrides.value;
    assert MergeOverride(list[index], p) == list[index];
    assert Store(list, index, list[index]) == list;
  }

  /** Edits of two different existing entries can be made in either order. */
  lemma UpdatesCommute(s: DemoState, i: nat, j: nat, p: OverridePatch, q: OverridePatch)
    requires i != j && i < |OverridesToEdit(s.props)| && j < |OverridesToEdit(s.props)|
    ensures UpdateWaveOverride(UpdateWaveOverride(s, i, p), j, q) == UpdateWaveOverride(UpdateWaveOverride(s, j, q), i, p)
  {
    var list := OverridesToEdit(s.props);
    var a, b := MergeOverride(list[i], p), MergeOverride(list[j], q);
    var ij := list[i := a];
    var ji := list[j := b];
    assert ij[j := b] == ji[i := a];
  }

  // ---------------------------------------------------------------------------
  // A session never stores NaN

  /** No numeric prop, and no override duration, holds NaN. */
  predicate NoNaN(props: WaveLoaderProps) {
    && props.width != Some(NaN) && props.height != Some(NaN) && props.waves != Some(NaN)
    && props.durationMs != Some(NaN) && props.opacity != Some(NaN) && props.fadeOut != Some(NaN)
    && (props.waveOverrides.Some? ==>
          forall i :: 0 <= i < |props.waveOverrides.value| ==> props.waveOverrides.value[i].durationMs != Some(NaN))
  }

  /** A control only brings in NaN through a preset that holds it. */
  predicate ActionNoNaN(a: Action) {
    a.ChoosePreset? ==> NoNaN(a.preset)
  }

  lemma InitialNoNaN()
    ensures NoNaN(INITIAL_STATE.props)
  {
  }

  /** Every control keeps the props free of NaN: the text inputs drop it and the steppers cannot make it. */
  lemma StepKeepsNoNaN(s: DemoState, a: Action, parse: string -> Num)
    requires NoNaN(s.props) && ActionNoNaN(a)
    ensures NoNaN(Step(s, a, parse).props)
  {
    match a
    case TypeOverrideColor(i, text) =>
      UpdateKeepsNoNaN(s, i, NO_OVERRIDE_PATCH.(color := Put(if Trim(text) != [] then Some(text) else None)));
    case PickOverrideColor(i, swatch) =>
      UpdateKeepsNoNaN(s, i, NO_OVERRIDE_PATCH.(color := Put(Some(swatch))));
    case TypeOverrideDuration(i, text) =>
      if Trim(text) == [] {
        UpdateKeepsNoNaN(s, i, NO_OVERRIDE_PATCH.(durationMs := Put(None)));
      } else if parse(text) != NaN {
        UpdateKeepsNoNaN(s, i, NO_OVERRIDE_PATCH.(durationMs := Put(Some(parse(text)))));
      }
    case PickOverrideVariant(i, v) =>
      UpdateKeepsNoNaN(s, i, NO_OVERRIDE_PATCH.(pathVariant := Put(v)));
    case TypeNumber(f, text) => NumberFieldKeepsNoNaN(s, text, parse, f);
    case StepDuration(up) => StepperKeepsNoNaN(s, a, parse);
    case StepOpacityAction(up) => StepperKeepsNoNaN(s, a, parse);
    case StepFadeOutAction(up) => StepperKeepsNoNaN(s, a, parse);
    case TypeColor(text) => StepperKeepsNoNaN(s, a, parse);
    case PickVariant(name) => StepperKeepsNoNaN(s, a, parse);
    case ChoosePreset(id, preset) => ListEditKeepsNoNaN(s, a, parse);
    case PickWaves(n) => ListEditKeepsNoNaN(s, a, parse);
    case AddOverrides => ListEditKeepsNoNaN(s, a, parse);
    case ClearOverridesAction => ListEditKeepsNoNaN(s, a, parse);
  }

  /** The steppers and the colour and variant controls leave the overrides as they were. */
  lemma StepperKeepsNoNaN(s: DemoState, a: Action, parse: string -> Num)
    requires NoNaN(s.props)
    requires a.StepDuration? || a.StepOpacityAction? || a.StepFadeOutAction? || a.TypeColor? || a.PickVariant?
    ensures NoNaN(Step(s, a, parse).props)
  {
  }

  /** A preset without NaN, a shortened list, a list of empty overrides or no list. */
  lemma ListEditKeepsNoNaN(s: DemoState, a: Action, parse: string -> Num)
    requires NoNaN(s.props) && ActionNoNaN(a)
    requires a.ChoosePreset? || a.PickWaves? || a.AddOverrides? || a.ClearOverridesAction?
    ensures NoNaN(Step(s, a, parse).props)
  {
  }

  /** A numeric text input stores nothing, a clamped number, or a parsed number that is not NaN. */
  lemma NumberFieldKeepsNoNaN(s: DemoState, text: string, parse: string -> Num, f: NumberField)
    requires NoNaN(s.props)
    ensures NoNaN(SetNumberField(s, text, parse, f).props)
  {
  }

  lemma UpdateKeepsNoNaN(s: DemoState, index: nat, p: OverridePatch)
    requires NoNaN(s.props) && p.durationMs != Put(Some(NaN))
    ensures NoNaN(UpdateWaveOverride(s, index, p).props)
  {
    var before := OverridesToEdit(s.props);
    assert forall j :: 0 <= j < |before| ==> before[j].durationMs != Some(NaN);
  }

  /** However the screen is used, starting from a NaN-free state, no NaN is ever stored. */
  lemma {:induction false} RunKeepsNoNaN(s: DemoState, actions: seq<Action>, parse: string -> Num)
    requires NoNaN(s.props)
    requires forall k :: 0 <= k < |actions| ==> ActionNoNaN(actions[k])
    ensures NoNaN(Run(s, actions, parse).props)
    decreases |actions|
  {
    if |actions| > 0 {
      StepKeepsNoNaN(s, actions[0], parse);
      RunKeepsNoNaN(Step(s, actions[0], parse), actions[1..], parse);
    }
  }

  // ---------------------------------------------------------------------------
  // What the loader makes of the screen's values

  /** The screen starts on the Mahalo preset, which draws exactly what the loader draws with no props. */
  lemma InitialDrawsDefaults()
    ensures INITIAL_STATE.presetId == MAHALO_ID
    ensures Render(INITIAL_STATE.props) == Render(NO_PROPS)
  {
    var p := INITIAL_STATE.props;
    DefaultColorTrimmed();
    ParseOfName();
    assert p == MAHALO_PRESET;
    assert WaveCountOf(p) == WaveCountOf(NO_PROPS) == 3;
    assert BaseConfig(p.color, p.durationMs, p.pathVariant) == BaseConfig(None, None, None);
    assert Configs(p) == Configs(NO_PROPS);
    assert OpacityScale(p) == OpacityScale(NO_PROPS);
  }

  /** The "tall" chip is not a loader tag: waves drawn with it look as if no variant were chosen. */
  lemma TallChipFallsBack(s: DemoState, parse: string -> Num)
    ensures Configs(Step(s, PickVariant("tall"), parse).props) == Configs(s.props.(pathVariant := None))
  {
    UnknownTagsFallBack(Rounded);
    var p, q := Step(s, PickVariant("tall"), parse).props, s.props.(pathVariant := None);
    assert BaseConfig(p.color, p.durationMs, p.pathVariant) == BaseConfig(q.color, q.durationMs, q.pathVariant);
  }

  /** The colour field stores the text untrimmed; a blank colour is drawn in the default colour. */
  lemma BlankColorFallsBack(s: DemoState, text: string, parse: string -> Num)
    requires Trim(text) == []
    ensures Step(s, TypeColor(text), parse).props.color == Some(text)
    ensures Configs(Step(s, TypeColor(text), parse).props) == Configs(s.props.(color := None))
  {
    var p, q := Step(s, TypeColor(text), parse).props, s.props.(color := None);
    assert BaseConfig(p.color, p.durationMs, p.pathVariant) == BaseConfig(q.color, q.durationMs, q.pathVariant);
  }
}
