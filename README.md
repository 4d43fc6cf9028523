# wave-loader in Dafny

A model of the wave loader, a React Native component that draws animated
layered waves on a Skia canvas. The model covers three parts:

- **The package component** (`package/src/waveLoader.tsx`). It turns the
  props (`waves`, `color`, `durationMs`, `opacity`, `pathVariant`, `fadeOut`,
  `waveOverrides`) into:
  - per-wave layouts, sampled from five anchor tables;
  - per-wave resolved configurations (colour, duration, variant);
  - a scene: the canvas size, one gradient style per wave, and the stops of
    a horizontal fade mask. Each wave's path is a separate function of the
    props, the wave's index and the clock.

  On each animation frame, one of seven path builders (`rounded`, `choppy`,
  `smooth`, `ripple`, `travel`, `square`, `pulse`) writes the wave outline
  into a mutable Skia path.
- **The legacy component** (`src/waveLoader.tsx`). It has three fixed waves
  drawn by the older `buildWavePathRounded`, `buildWavePath` (choppy) and
  `buildWavePathSmooth` builders. The model proves that each of them draws the
  same outline as the package builder, under the arguments stated in each
  lemma.
- **The demo page** (`components/wave-loader-demo.tsx`). Its state is the
  preset id plus the loader props. The model covers:
  - the input and button handlers that edit that state (number fields,
    steppers, chips, override rows);
  - `buildUsageSnippet`, which prints the current props as a JSX usage
    example.

## How the model is organised

| module (file) | models |
|---|---|
| `Js` (js.dfy) | the JavaScript semantics the code relies on: numbers with NaN and ±Infinity, `Math.round`, `Math.max`/`Math.min` with NaN propagation, the truncating `%`, `String.prototype.trim` |
| `SkiaPath` (path.dfy) | the Skia path: a class holding the command list, with one method per drawing call |
| `WaveTypes` (types.dfy) | props, overrides, layouts, resolved configurations, the variant tags |
| `WaveBuilder` (builder.dfy) | `buildWavePathByVariant` and `drawSmoothPath`, as methods proved against the `Outline` specification function |
| `WaveShape` (shape.dfy) | lemmas about `Outline`: the command count, the frame, x-range, amplitude bounds, which clock inputs each variant ignores |
| `WaveConfig` (config.dfy) | `clampWaveCount`, `resolveColor`, `resolveDuration`, `resolvePathVariant`, `resolveOpacity`, `clampUnit`, `buildWaveConfigs`, `getWaveLayout` and `getWaveConfig` |
| `WaveLayouts` (layouts.dfy) | `sampleAnchor` and `buildWaveLayouts`, and the monotonicity of the layout tables |
| `WaveClock` (clock.dfy) | the per-frame worklet of `useAnimatedWavePath`: the wrapped and continuous phases, and the roundness cycle |
| `GradientColor` (color.dfy) | `HexToHSL`, `HSLToHex`, `toGradientEndColor` |
| `WaveLoaderView` (loader.dfy) | the `WaveLoader` component body: wave count, opacity scale, fade mask, the rendered wave styles |
| `LegacyWave` (legacy.dfy) | the three legacy builders and the legacy component |
| `LoaderDemo` (demo.dfy) | the demo state, `copyPreset`, `setPartial`, `setNumberField`, `adjustDuration`, the steppers and chips, `ensureOverrides`, `clearOverrides`, `updateWaveOverride` |
| `UsageSnippet` (snippet.dfy) | `buildUsageSnippet` |

Some inputs cannot be seen or computed in the model, so they are parameters of the functions and lemmas that use them:
- `Math.sin` is a function `sin`. The lemmas that bound heights require `SineBounded(sin)`, meaning every value lies in [-1, 1].
- `Number(text)` is `parse`.
- The template literal's number-to-string conversion is `fmt`.
- The animation clock's value is `clock`.

## Model

| member | source | states |
|---|---|---|
| `Js.Round` | package/src/waveLoader.tsx:509-515 | `Math.round` returns the integer within half a unit of x (ties go up) |
| `Js.Rem` | package/src/waveLoader.tsx:424-437 | JavaScript `%` on numbers: the result has the dividend's sign, is smaller in size than the divisor, and differs from the dividend by a whole number of divisors |
| `Js.IntRem` | package/src/waveLoader.tsx:658-667 | integer `%` keeps the dividend's sign, stays strictly within the divisor, and differs from the dividend by a whole multiple of the divisor |
| `Js.MaxNum` | components/wave-loader-demo.tsx:405-408 | `Math.max(lo, a)` is NaN exactly when a is NaN and +Infinity exactly when a is; otherwise it is at least lo and equals lo or a |
| `Js.MinNum` | components/wave-loader-demo.tsx:711 | `Math.min(hi, a)` is NaN exactly when a is NaN and -Infinity exactly when a is; otherwise it is at most hi and equals hi or a |
| `Js.ClampNum` | package/src/waveLoader.tsx:315 | `Math.min(hi, Math.max(lo, a))` is NaN only for NaN; otherwise it is finite and in [lo, hi]. A value already in range is unchanged; a value below lo, or -Infinity, gives lo; a value above hi, or +Infinity, gives hi |
| `Js.AddNum` | components/wave-loader-demo.tsx:405-408 | adding a finite delta keeps NaN and ±Infinity, and moves a finite value by exactly the delta |
| `Js.TrimEnds` | package/src/waveLoader.tsx:525 | a non-empty trimmed string starts and ends with a character that is not whitespace |
| `Js.TrimIdempotent` | package/src/waveLoader.tsx:525 | trimming twice is trimming once |
| `Js.TrimEmptyIff` | components/wave-loader-demo.tsx:395 | a string trims to empty if and only if all its characters are whitespace |
| `Js.TrimDropsWhitespace` | package/src/waveLoader.tsx:525 | trim removes only whitespace, from both ends |
| `SkiaPath.Path.constructor` | package/src/waveLoader.tsx:420 | `Skia.Path.Make()` gives an empty path |
| `SkiaPath.Path.Reset` | src/waveLoader.tsx:257 | `reset` empties the command list |
| `SkiaPath.Path.MoveTo` | package/src/waveLoader.tsx:233 | appends exactly one move command |
| `SkiaPath.Path.LineTo` | package/src/waveLoader.tsx:234 | appends exactly one line command |
| `SkiaPath.Path.QuadTo` | package/src/waveLoader.tsx:275-276 | appends exactly one quadratic command |
| `SkiaPath.Path.CubicTo` | package/src/waveLoader.tsx:105 | appends exactly one cubic command |
| `SkiaPath.Path.Close` | package/src/waveLoader.tsx:208 | appends the close command |
| `WaveBuilder.ClampIndex` | package/src/waveLoader.tsx:89-92 | the clamped `get` index is always valid; it is the index itself when in range, and otherwise the nearer end |
| `WaveBuilder.DrawSmoothPath` | package/src/waveLoader.tsx:81-107 | the loop appends one Catmull-Rom cubic (tension 2) per neighbouring pair of samples, exactly `SmoothCrest` |
| `WaveBuilder.BuildWavePathByVariant` | package/src/waveLoader.tsx:174-293 | after the call, the path holds exactly `Outline(variant, args)`, for every variant |
| `WaveBuilder.SampleCrest` | package/src/waveLoader.tsx:211-231 | the sampling loop fills xs with i * segmentWidth and ys with baseY + sample * waveHeight * multiplier, for the variant's point count |
| `WaveBuilder.DrawPulse` | package/src/waveLoader.tsx:196-210 | the pulse branch draws the fixed six-command outline with the three sampled heights |
| `WaveBuilder.DrawSteps` | package/src/waveLoader.tsx:250-264 | the square branch draws three lines per span: across at the previous height, up or down at the midpoint, across to the sample |
| `WaveBuilder.DrawQuadSpans` | package/src/waveLoader.tsx:266-290 | the rounded and choppy loop appends two quadratics per span, with the rounded handle or the choppy midpoint control |
| `WaveBuilder.DrawCrest` | package/src/waveLoader.tsx:236-290 | the variant dispatch appends the crest of the variant's branch |
| `WaveBuilder.DrawCrestOutline` | package/src/waveLoader.tsx:233-293 | up the left edge, the crest, then down the right edge and close |
| `WaveShape.OutlineFrame` | package/src/waveLoader.tsx:196-293 | every outline starts at the bottom-left corner and rises at x = 0. It reaches x = width at the last crest point, then goes to the bottom-right corner and closes. Its length is 6 (pulse), n+3 (smooth, ripple, travel), 3n+1 (square) or 2n+2 (rounded, choppy) |
| `WaveShape.CrestOutlineFrame` | package/src/waveLoader.tsx:233-293 | the same frame, for any sample arrays whose first x is 0 and last x is the width |
| `WaveShape.OutlineWithinWidth` | package/src/waveLoader.tsx:174-293 | no command of any outline leaves [0, width] horizontally, control points included, for any roundness in [0, 1] |
| `WaveShape.CrestVisitsSamples` | package/src/waveLoader.tsx:236-290 | every crest passes through each sample point: the command ending the m-th span ends at (xs[m], ys[m]) |
| `WaveShape.JoinedSpanEnds` | package/src/waveLoader.tsx:250-290 | in a span-by-span crest, the last command of span m ends at sample m |
| `WaveShape.JoinedLength` | package/src/waveLoader.tsx:250-290 | a span-by-span crest over i samples has (i - 1) times the span's command count |
| `WaveShape.XsShape` | package/src/waveLoader.tsx:212-229 | the sample xs start at 0, end exactly at the width, and are evenly spaced by segmentWidth |
| `WaveShape.XsIncreasing` | package/src/waveLoader.tsx:212-229 | for a positive width, the sample xs strictly increase |
| `WaveShape.HandleBound` | package/src/waveLoader.tsx:280 | for roundness in [0, 1], the rounded handle lies in [0, segmentWidth / 2], so the control points stay inside the span |
| `WaveShape.YsWithinAmplitude` | package/src/waveLoader.tsx:125-156 | every sampled height lies within waveHeight * multiplier of baseY, and a square sample sits exactly on one of the two extremes |
| `WaveShape.PulseHeights` | package/src/waveLoader.tsx:196-203 | the pulse's side heights stay within 0.3 waveHeight of baseY, and its peak within 1.8 waveHeight |
| `WaveShape.OutlineIgnoresContinuousClock` | package/src/waveLoader.tsx:130-156 | only `travel` reads the continuous phase; every other outline is unchanged when it varies |
| `WaveShape.TravelIgnoresWrappedClock` | package/src/waveLoader.tsx:130-156 | `travel` does not read the wrapped phase |
| `WaveShape.OutlineIgnoresRoundness` | package/src/waveLoader.tsx:266-290 | only `rounded` reads the roundness |
| `WaveShape.PhaseProgressEnds` | package/src/waveLoader.tsx:157-172 | the phase progress starts at 0 and reaches 1 at the last point exactly when the variant is not rounded, choppy or smooth (those use i / pointCount) |
| `WaveBuilder.PointCount` | package/src/waveLoader.tsx:109-116 | travel and square waves use 7 points, every other variant POINTS; `WaveShape.OutlineFrame` states the command counts these give |
| `WaveBuilder.AmplitudeMultiplier` | package/src/waveLoader.tsx:118-123 | 0.8 for square, 1.05 for travel, 1 otherwise; `WaveShape.YsWithinAmplitude` states that every y stays within baseY ± waveHeight × this multiplier |
| `WaveBuilder.SquareWave` | package/src/waveLoader.tsx:125-128 | `WaveShape.SquareSampleUnit` states that the sample is +1 exactly when the sine of the phase is non-negative, and −1 otherwise |
| `WaveBuilder.SampleWave` | package/src/waveLoader.tsx:130-155 | `WaveShape.SampleWaveBounded` states that every variant's sample lies in [−1, 1] for x in [0, 1]; `WaveShape.TravelIgnoresWrappedClock` states that travel reads only the continuous clock |
| `WaveBuilder.PhaseProgress` | package/src/waveLoader.tsx:157-172 | `WaveShape.PhaseProgressEnds` states where the progress starts and whether it reaches 1 at the last point |
| `WaveConfig.ClampWaveCount` | package/src/waveLoader.tsx:509-515 | the wave count is always in [1, 5]: 3 for a non-finite value, otherwise the rounded value pinned to the range |
| `WaveConfig.ClampWaveCountExamples` | package/src/waveLoader.tsx:509-515 | concrete cases: 0 → 1, 7 → 5, NaN/±Infinity → 3, 2.5 → 3, 2.4 → 2, 0.5 → 1, -3 → 1 |
| `WaveConfig.ResolveColor` | package/src/waveLoader.tsx:517-527 | the colour is either the fallback or the non-empty trimmed input, and it is the trimmed input whenever that is non-empty |
| `WaveConfig.BlankColorFallsBack` | package/src/waveLoader.tsx:517-527 | a colour made only of whitespace resolves to the fallback |
| `WaveConfig.ResolvedColorIsTrimmed` | package/src/waveLoader.tsx:517-527 | a resolved colour other than the fallback has no whitespace at either end |
| `WaveConfig.ResolveColorIdempotent` | package/src/waveLoader.tsx:517-527 | resolving an already resolved colour again changes nothing |
| `WaveConfig.ResolveDuration` | package/src/waveLoader.tsx:529-542 | the duration is the fallback or a positive finite input, and it is the input whenever that is positive and finite |
| `WaveConfig.ResolvePathVariant` | package/src/waveLoader.tsx:544-561 | the variant is the fallback or the one whose tag is the input; a known tag always gives its variant |
| `WaveConfig.ParseOfName` | package/src/waveLoader.tsx:544-561 | each variant's tag parses back to that variant |
| `WaveConfig.NameOfParse` | package/src/waveLoader.tsx:544-561 | a string that parses is exactly the tag of its variant |
| `WaveConfig.UnknownTagsFallBack` | package/src/waveLoader.tsx:544-561 | unknown tags ("classic", "tall", and case variants such as "Rounded") fall back |
| `WaveConfig.ClampUnit` | package/src/waveLoader.tsx:574-580 | the result is in [0, 1]; a non-finite value gives 0, and a value already in range is unchanged |
| `WaveConfig.ResolveOpacity` | package/src/waveLoader.tsx:563-572 | a missing or non-finite opacity gives the fallback; a finite one is clamped into [0, 1]: unchanged when already in range, 0 when below 0, 1 when above 1 |
| `WaveConfig.ClampedAt` | package/src/waveLoader.tsx:498-507 | `getWaveLayout`/`getWaveConfig` read the entry at the index, or the last entry past the end |
| `WaveConfig.ConfigsWellFormed` | package/src/waveLoader.tsx:474-496 | every base and per-wave configuration has a positive duration and a non-empty colour |
| `WaveConfig.OverrideInheritsGlobal` | package/src/waveLoader.tsx:474-496 | every field an override leaves missing, blank, non-positive or unknown is inherited from the global configuration, and an empty override inherits everything |
| `WaveConfig.InheritanceExample` | package/src/waveLoader.tsx:474-496 | a negative override duration and the tag "tall" inherit 1200 ms and "choppy" from the global props |
| `WaveConfig.BuildWaveConfigs` | package/src/waveLoader.tsx:474-496 | the loop yields one configuration per wave and none for a non-positive count; configuration i is the base configuration overridden by override i (an empty override past the list's end) |
| `WaveLayouts.AnchorAt` | package/src/waveLoader.tsx:591-600 | the interpolated value lies between the two anchors on either side of the position |
| `WaveLayouts.SampleAnchor` | package/src/waveLoader.tsx:582-601 | one wave takes the middle anchor; otherwise the value lies between the anchors around index / (waveCount - 1) * (length - 1) |
| `WaveLayouts.SampleAnchorEnds` | package/src/waveLoader.tsx:582-601 | with several waves, the first wave takes the first anchor and the last wave takes the last |
| `WaveLayouts.SampleAnchorIncreasing` | package/src/waveLoader.tsx:582-601 | on a strictly increasing table, the sampled values strictly increase with the wave index |
| `WaveLayouts.AnchorAtIncreasing` | package/src/waveLoader.tsx:591-600 | linear interpolation over a strictly increasing table is strictly increasing in the position |
| `WaveLayouts.BuildWaveLayouts` | package/src/waveLoader.tsx:454-472 | the loop builds one layout per wave, the i-th sampled from the five tables (the opacity of a single wave being DEFAULT_OPACITY), and none for a non-positive count |
| `WaveLayouts.TablesIncrease` | package/src/waveLoader.tsx:25-35 | the base-line, opacity, gradient-stop and phase tables strictly increase; the amplitude table does not |
| `WaveLayouts.LayoutsIncrease` | package/src/waveLoader.tsx:454-472 | from back to front, waves sit strictly lower, are strictly more opaque, have later gradient stops and larger phase offsets |
| `WaveLayouts.LayoutRanges` | package/src/waveLoader.tsx:454-472 | every layout field stays within the range of its table |
| `WaveLayouts.SingleWaveLayout` | package/src/waveLoader.tsx:454-472 | a single wave takes the middle anchors, except for its opacity, which is DEFAULT_OPACITY (0.5) rather than the middle 0.35 |
| `WaveLayouts.ThreeWaveLayouts` | package/src/waveLoader.tsx:454-472 | the three default waves get exactly the first, middle and last anchors |
| `WaveLayouts.LayoutAt` | package/src/waveLoader.tsx:460-469 | `WaveLayouts.LayoutRanges` states the layout's ranges, `WaveLayouts.LayoutsIncrease` the order of the waves, `WaveLayouts.SingleWaveLayout` and `WaveLayouts.ThreeWaveLayouts` the exact anchors picked |
| `WaveClock.ResolvedDuration` | package/src/waveLoader.tsx:424-425 | the worklet's duration is always positive: the config's when positive, otherwise 4000 |
| `WaveClock.WrappedPhase` | package/src/waveLoader.tsx:426-427 | for a non-negative clock, the wrapped phase lies in [0, 2π) |
| `WaveClock.WrappedPhasePeriodic` | package/src/waveLoader.tsx:426-427 | the wrapped phase repeats every duration |
| `WaveClock.ContinuousRunsAhead` | package/src/waveLoader.tsx:426-428 | the continuous phase exceeds the wrapped one by exactly 2π per completed cycle |
| `WaveClock.RoundCycleMs` | package/src/waveLoader.tsx:429-432 | the roundness cycle is at least 600 ms and at least 0.6 of the duration, and equals one of them |
| `WaveClock.RoundCycleCases` | package/src/waveLoader.tsx:429-432 | it is 0.6 × duration from 1000 ms up, and 600 ms below |
| `WaveClock.RoundnessOf` | package/src/waveLoader.tsx:435-437 | for a sine value in [-1, 1], the roundness is in [0.1, 0.5], reaching both ends |
| `WaveClock.AnimateWavePath` | package/src/waveLoader.tsx:413-452 | each frame leaves in the path exactly the outline of the wave's variant for that frame's arguments |
| `WaveClock.FrameRanges` | package/src/waveLoader.tsx:424-437 | each frame's roundness is in [0.1, 0.5] and its wrapped phase in [0, 2π); the continuous phase runs whole turns ahead |
| `WaveClock.FrameWithinWidth` | package/src/waveLoader.tsx:413-452 | any frame of any wave stays inside [0, width] horizontally |
| `WaveClock.FramePeriodic` | package/src/waveLoader.tsx:413-452 | apart from rounded and travel, each wave's frame repeats exactly every duration |
| `WaveClock.FrameArgs` | package/src/waveLoader.tsx:424-450 | `WaveClock.FrameRanges` states that roundness is in [0.1, 0.5], the wrapped phase in [0, 2π) and the continuous phase ahead of it by the completed cycles times 2π; `WaveClock.FrameWithinWidth` that the frame's outline stays inside the width; `WaveClock.FramePeriodic` that the frame repeats every duration |
| `WaveClock.ContinuousPhase` | package/src/waveLoader.tsx:428 | `WaveClock.ContinuousRunsAhead` states that it differs from the wrapped phase by a whole number of turns, the number of completed cycles times 2π |
| `GradientColor.HexByte` | package/src/waveLoader.tsx:607-609 | a two-digit hex pair parses to a byte in [0, 255] |
| `GradientColor.ParseHex` | package/src/waveLoader.tsx:604-606 | the pattern accepts only six hex digits, optionally after a leading `#`: on a match the string is 6 characters, or 7 starting with `#`, and its last six characters are all hex digits; each channel is a byte |
| `GradientColor.HashOptional` | package/src/waveLoader.tsx:604 | the leading `#` makes no difference |
| `GradientColor.ParseIgnoresCase` | package/src/waveLoader.tsx:604 | the pattern is case-insensitive: "#012D53" and "#012d53" both give (1, 45, 83) |
| `GradientColor.HexToHslRange` | package/src/waveLoader.tsx:603-642 | hue is in [0, 360], saturation and lightness in [0, 100], for any input string |
| `GradientColor.RgbToHslRange` | package/src/waveLoader.tsx:607-641 | for byte channels, hue is in [0, 360], saturation and lightness in [0, 100] |
| `GradientColor.UnparsableIsBlack` | package/src/waveLoader.tsx:605-606 | a string that does not match gives (0, 0, 0) |
| `GradientColor.GreyHasNoHue` | package/src/waveLoader.tsx:613-620 | an equal-channel colour has hue 0 and saturation 0 |
| `GradientColor.HexToHslExamples` | package/src/waveLoader.tsx:603-642 | white → (0, 0, 100), black → (0, 0, 0), pure red → (0, 100, 50) |
| `GradientColor.PadStart2` | package/src/waveLoader.tsx:653 | padding to width 2 keeps the string as its suffix and fills only with '0' |
| `GradientColor.ByteHexRoundTrip` | package/src/waveLoader.tsx:650-653 | every byte prints as two lower-case hex digits that parse back to it |
| `GradientColor.HslToHexShape` | package/src/waveLoader.tsx:644-656 | for saturation and lightness in [0, 100], the result is `#` plus six hex digits, which parse back to the three computed channel bytes |
| `GradientColor.UnsaturatedIsGrey` | package/src/waveLoader.tsx:644-656 | saturation 0 gives three equal channels, round(255 × l / 100) |
| `GradientColor.ShiftHue` | package/src/waveLoader.tsx:660-663 | the shifted hue lies in [0, 360) and is congruent to h - 20 modulo 360 |
| `GradientColor.ShiftHueExamples` | package/src/waveLoader.tsx:660-663 | 0 → 340, 10 → 350, 20 → 0, 360 → 340, 200 → 180 |
| `GradientColor.GradientEndShape` | package/src/waveLoader.tsx:658-667 | the gradient end is always nine characters: a parseable `#rrggbb` followed by alpha "00" |
| `GradientColor.UnparsableGradientEnd` | package/src/waveLoader.tsx:658-667 | an unparseable colour's end is "#33333300" |
| `GradientColor.GradientEndIgnoresPadding` | package/src/waveLoader.tsx:659 | surrounding whitespace does not change the gradient end |
| `GradientColor.HexToHsl` | package/src/waveLoader.tsx:603-642 | `GradientColor.HexToHslRange` states the ranges, `GradientColor.UnparsableIsBlack` that an unparsable colour is black, `GradientColor.GreyHasNoHue` that greys have no hue or saturation, `GradientColor.HexToHslExamples` concrete conversions |
| `GradientColor.HslToHex` | package/src/waveLoader.tsx:644-656 | `GradientColor.HslToHexShape` states that the result is `#` and three hex bytes that parse back to the three channel values |
| `GradientColor.ToGradientEndColor` | package/src/waveLoader.tsx:658-667 | `GradientColor.GradientEndShape` states the nine-character `#rrggbb00` shape, `GradientColor.UnparsableGradientEnd` the result for unparsable text, `GradientColor.GradientEndIgnoresPadding` that padding does not matter |
| `WaveLoaderView.WaveCountOf` | package/src/waveLoader.tsx:311 | the rendered wave count is in [1, 5] |
| `WaveLoaderView.Configs` | package/src/waveLoader.tsx:320-333 | there is one resolved configuration per wave |
| `WaveLoaderView.OpacityScale` | package/src/waveLoader.tsx:312-314 | the opacity scale, resolvedOpacity / 0.5, is in [0, 2] |
| `WaveLoaderView.FadePositions` | package/src/waveLoader.tsx:315-319 | the mask has four stops, the first 0 and the last 1 |
| `WaveLoaderView.FadeMaskShape` | package/src/waveLoader.tsx:315-319 | the two inner stops are symmetric about 0.5 (their sum is 1), with the first in [0, 0.5] and the second in [0.5, 1]. A fade-out v in [0, 100] gives stops 0, v/200, 1 - v/200, 1; above 100 (or +Infinity) gives 0, 0.5, 0.5, 1; below 0 (or -Infinity) gives 0, 0, 1, 1; NaN gives NaN inner stops |
| `WaveLoaderView.FadeMaskExamples` | package/src/waveLoader.tsx:315-319 | fade-out 150 gives the stops 0, 0.5, 0.5, 1, and fade-out -20 gives 0, 0, 1, 1 |
| `WaveLoaderView.OpacityScaleExamples` | package/src/waveLoader.tsx:312-314 | opacity -1 gives scale 0; opacity 7 gives the same scale as opacity 1, which is 2; NaN and a missing opacity both give scale 1 |
| `WaveLoaderView.DefaultFadeMask` | package/src/waveLoader.tsx:296-319 | the default fade-out of 60 gives stops 0, 0.3, 0.7, 1 |
| `WaveLoaderView.Render` | package/src/waveLoader.tsx:373-410 | the scene holds one gradient style per wave (opacity, colour, gradient stop), the canvas size and the mask stops; the paths come from `WavePath` |
| `WaveLoaderView.RenderWaveLoader` | package/src/waveLoader.tsx:299-411 | the component body builds exactly the scene `Render` specifies |
| `WaveLoaderView.RenderedWave` | package/src/waveLoader.tsx:376-396 | wave i is styled from layout i, configuration i and the opacity scale |
| `WaveLoaderView.WaveStylesWellFormed` | package/src/waveLoader.tsx:376-396 | every wave's opacity is in [0, 1], and its gradient runs from a non-empty colour to a nine-character transparent end, with stops 0 and a value in [0.7, 0.9] |
| `WaveLoaderView.DefaultOpacityKeepsLayout` | package/src/waveLoader.tsx:312-383 | with no opacity or opacity 0.5, every wave keeps its layout opacity |
| `WaveLoaderView.FrontWavesNotFainter` | package/src/waveLoader.tsx:383 | a wave in front is never more transparent than one behind it, at every opacity setting |
| `WaveLoaderView.ExtraOverridesIgnored` | package/src/waveLoader.tsx:474-496 | overrides beyond the wave count do not change the scene |
| `WaveLoaderView.DefaultRender` | package/src/waveLoader.tsx:299-310 | with no props: a 240 by 80 canvas and three waves, each with colour #012D53, 4000 ms and the rounded variant |
| `WaveLoaderView.WavePathsWithinWidth` | package/src/waveLoader.tsx:335-371 | every wave's animated path, with the canvas size taken from the props (240 by 80 by default), stays inside the canvas width at any clock value |
| `WaveLoaderView.WavePath` | package/src/waveLoader.tsx:335-371 | `WaveLoaderView.WavePathsWithinWidth` states that the path of every wave stays inside the canvas; `LegacyWave.LegacyDefaultSizeIsDefault` that with no props it is the 240 by 80 legacy wave |
| `LegacyWave.BuildWavePathRounded` | src/waveLoader.tsx:135-196 | the legacy rounded builder leaves exactly the reset, the left edge, two quadratics per span with handle segmentWidth × 0.5 × roundness, and the right edge |
| `LegacyWave.BuildWavePath` | src/waveLoader.tsx:198-243 | the legacy choppy builder leaves the same frame with midpoint-controlled quadratics |
| `LegacyWave.DrawQuadOutline` | src/waveLoader.tsx:145-196 | the shared quadratic body: reset, up the left edge, the spans, down the right edge |
| `LegacyWave.DrawQuadSamples` | src/waveLoader.tsx:160-192 | the span loop samples each next point and appends its two quadratics |
| `LegacyWave.DrawSpan` | src/waveLoader.tsx:170-188 | one span: the pair of quadratics through the midpoint join |
| `LegacyWave.BuildWavePathSmooth` | src/waveLoader.tsx:245-306 | the legacy smooth builder leaves the frame around the Catmull-Rom crest at the given tension |
| `LegacyWave.SampleSmooth` | src/waveLoader.tsx:264-273 | the sampling loop fills xs and ys with the evenly spaced samples |
| `LegacyWave.DrawTensionSpans` | src/waveLoader.tsx:279-301 | the cubic loop appends one cubic per neighbouring pair, with controls pulled by (p2 - p0) / 6 × tension |
| `LegacyWave.TensionCrest` | src/waveLoader.tsx:288-301 | the crest has one cubic per span |
| `LegacyWave.RoundedMatchesPackage` | src/waveLoader.tsx:135-196 | the legacy rounded outline is the package's rounded outline for a phase offset of waveIndex × 0.7π |
| `LegacyWave.ChoppyMatchesPackage` | src/waveLoader.tsx:198-243 | the legacy choppy outline is the package's choppy outline |
| `LegacyWave.SmoothMatchesPackage` | src/waveLoader.tsx:245-306 | the legacy smooth builder at tension 2 is the package's smooth outline |
| `LegacyWave.TensionTwoIsSmooth` | src/waveLoader.tsx:288-301 | the tension crest at tension 2 is the package's `drawSmoothPath` crest |
| `LegacyWave.ZeroTensionIsStraight` | src/waveLoader.tsx:294-300 | at tension 0, the control points coincide with the span ends |
| `LegacyWave.LegacyFrameIsDefaultFrame` | src/waveLoader.tsx:33-88 | each legacy wave's frame on a width by height canvas equals the package loader's frame for the same wave when only width and height are set |
| `LegacyWave.LegacyDefaultSizeIsDefault` | src/waveLoader.tsx:22 | both loaders default to a 240 by 80 canvas, so with no props they draw the same frame for each wave |
| `LegacyWave.LegacyT` | src/waveLoader.tsx:35 | the legacy clock angle lies in [0, 2π) for a non-negative clock; `DefaultFrameFields` proves it equals the package loader's wrapped phase for the default 4000 ms |
| `LegacyWave.LegacyRoundness` | src/waveLoader.tsx:36-38 | with a sine bounded by 1, the legacy roundness lies in [0.1, 0.5]; `DefaultFrameFields` proves it equals the package loader's roundness at the default duration |
| `LegacyWave.PhaseOffset` | src/waveLoader.tsx:150 | `waveIndex × π × 0.7`; `DefaultFrameFields` proves it equals the package layout's phase offset for each of the three waves |
| `LegacyWave.LegacyFrameWithinWidth` | src/waveLoader.tsx:33-88 | legacy frames stay inside [0, width] horizontally |
| `LegacyWave.DefaultWavePath` | package/src/waveLoader.tsx:335-371 | with only width and height set, each wave's path is the rounded outline for its layout and the default configuration |
| `LegacyWave.LegacyStyleIsDefaultStyle` | src/waveLoader.tsx:90-130 | the legacy opacities (0.2, 0.35, 0.5), gradient stops (0.7, 0.8, 0.9), colour and fade mask (0, 0.3, 0.7, 1) are the package's defaults |
| `LoaderDemo.CopyPreset` | components/wave-loader-demo.tsx:268-275 | a missing preset copies MAHALO_PRESET; a present one is copied field for field, overrides included |
| `LoaderDemo.MergeLaws` | components/wave-loader-demo.tsx:386-389 | `{ ...current, ...partial }`: the empty partial changes nothing, and applying a partial twice is applying it once |
| `LoaderDemo.NumberFieldEdit` | components/wave-loader-demo.tsx:391-403 | a number field touches only its own prop: blank text clears it, text that parses to NaN leaves the whole state unchanged, and any other text stores the field's update of the parsed value |
| `LoaderDemo.OpacityInputClamped` | components/wave-loader-demo.tsx:624-634 | a typed opacity that parses is stored clamped into [0, 1]: unchanged when already in range, 0 when below 0 or -Infinity, 1 when above 1 or +Infinity |
| `LoaderDemo.FadeOutInputClamped` | components/wave-loader-demo.tsx:684-694 | a typed fade-out that parses is stored clamped into [0, 100]: unchanged when already in range, 0 when below 0 or -Infinity, 100 when above 100 or +Infinity |
| `LoaderDemo.TypedOutOfRangeExamples` | components/wave-loader-demo.tsx:624-694 | typing -5 into the opacity field stores 0, and typing 150 into the fade-out field stores 100 |
| `LoaderDemo.DurationStepFloor` | components/wave-loader-demo.tsx:405-408 | the duration steppers never go below 400 ms, and move a finite or default duration by exactly the step when above that floor |
| `LoaderDemo.DurationStepsUndo` | components/wave-loader-demo.tsx:405-408 | −400 then +400 restores any duration of at least 800 (the default 4000 included) |
| `LoaderDemo.ToFixed2` | components/wave-loader-demo.tsx:637-652 | `Number(x.toFixed(2))` moves a finite value by at most 0.005, keeps it in [0, 1] when it was there, and leaves NaN and ±Infinity as they are |
| `LoaderDemo.OpacityStepRange` | components/wave-loader-demo.tsx:637-654 | the opacity steppers keep a value in [0, 1] inside it, within 0.005 of the exact step clamped at the ends |
| `LoaderDemo.FadeOutStepRange` | components/wave-loader-demo.tsx:695-714 | the fade-out steppers never leave [0, 100], and from a value in that range they move by exactly 10, clamped at the ends |
| `LoaderDemo.Prefix` | components/wave-loader-demo.tsx:526-529 | `slice(0, n)` keeps the first min(n, length) entries |
| `LoaderDemo.SelectWavesSlices` | components/wave-loader-demo.tsx:521-532 | a wave chip sets `waves` to n, cuts the overrides to their first n entries (keeping them missing when missing), and changes no other prop |
| `LoaderDemo.SelectWavesIdempotent` | components/wave-loader-demo.tsx:521-532 | pressing the same chip twice is pressing it once |
| `LoaderDemo.SelectWavesKeepsRender` | components/wave-loader-demo.tsx:521-532 | cutting the overrides does not change what the loader draws for that wave count |
| `LoaderDemo.ToLength` | components/wave-loader-demo.tsx:410-438 | the length `Array.from` uses is the floor of a finite value clamped to [0, 2^53 - 1], and 0 for NaN and -Infinity |
| `LoaderDemo.EmptyOverrides` | components/wave-loader-demo.tsx:416 | `Array.from({ length }, () => ({}))` yields length empty overrides |
| `LoaderDemo.EnsureOverridesResult` | components/wave-loader-demo.tsx:410-419 | "add overrides" keeps existing overrides, and otherwise creates `waves ?? 3` empty ones; no other prop changes |
| `LoaderDemo.EnsureOverridesKeepsRender` | components/wave-loader-demo.tsx:410-419 | adding empty overrides does not change what the loader draws |
| `LoaderDemo.OverrideButtons` | components/wave-loader-demo.tsx:410-423 | "add" is idempotent, "clear" removes the overrides, and clearing after adding is just clearing |
| `LoaderDemo.Store` | components/wave-loader-demo.tsx:435 | assigning at an index replaces that entry, keeps the others, and pads any gap with empty overrides |
| `LoaderDemo.UpdateTargetsOneEntry` | components/wave-loader-demo.tsx:425-438 | an override edit changes only the entry at the index (merging the partial into it) and no other prop, creating the overrides first when missing |
| `LoaderDemo.UpdateIdempotent` | components/wave-loader-demo.tsx:425-438 | applying the same override edit twice is applying it once |
| `LoaderDemo.UpdatesCommute` | components/wave-loader-demo.tsx:425-438 | edits to two different existing rows commute |
| `LoaderDemo.InitialNoNaN` | components/wave-loader-demo.tsx:357-361 | the initial state holds no NaN |
| `LoaderDemo.StepKeepsNoNaN` | components/wave-loader-demo.tsx:380-438 | no handler can put NaN into the props: the inputs reject NaN text, and the steppers and chips produce numbers |
| `LoaderDemo.StepperKeepsNoNaN` | components/wave-loader-demo.tsx:380-438 | the duration, opacity and fade-out steppers, the colour input and the variant chips put no NaN into the props |
| `LoaderDemo.ListEditKeepsNoNaN` | components/wave-loader-demo.tsx:380-438 | choosing a preset, picking a wave count, adding and clearing overrides put no NaN into the props |
| `LoaderDemo.RunKeepsNoNaN` | components/wave-loader-demo.tsx:380-438 | the same holds after any sequence of user actions |
| `LoaderDemo.InitialDrawsDefaults` | components/wave-loader-demo.tsx:357-361 | the initial Mahalo preset draws exactly what a loader with no props draws |
| `LoaderDemo.TallChipFallsBack` | components/wave-loader-demo.tsx:181-187 | choosing the "tall" chip configures the waves as if no variant were set |
| `LoaderDemo.BlankColorFallsBack` | components/wave-loader-demo.tsx:551-553 | a blank colour is stored as typed, but the loader draws the default colour |
| `LoaderDemo.NumberFieldKeepsNoNaN` | components/wave-loader-demo.tsx:391-403 | a number field edit never stores NaN |
| `LoaderDemo.UpdateKeepsNoNaN` | components/wave-loader-demo.tsx:425-438 | an override edit that carries no NaN stores none |
| `LoaderDemo.SetNumberField` | components/wave-loader-demo.tsx:391-403 | `LoaderDemo.NumberFieldEdit` states that blank text clears the field, NaN text leaves the state alone and other text stores the parsed number; `LoaderDemo.OpacityInputClamped` and `LoaderDemo.FadeOutInputClamped` state the clamping that follows |
| `LoaderDemo.AdjustDuration` | components/wave-loader-demo.tsx:405-408 | `LoaderDemo.DurationStepFloor` states that the duration never drops below the minimum; `LoaderDemo.DurationStepsUndo` that a step up undoes a step down above the floor |
| `LoaderDemo.StepOpacity` | components/wave-loader-demo.tsx:637-654 | `LoaderDemo.OpacityStepRange` states that the opacity stays in [0, 1] |
| `LoaderDemo.StepFadeOut` | components/wave-loader-demo.tsx:695-714 | `LoaderDemo.FadeOutStepRange` states that the fade-out stays in [0, 100] |
| `LoaderDemo.SelectWaves` | components/wave-loader-demo.tsx:521-532 | `LoaderDemo.SelectWavesSlices` states that the overrides are cut to the chosen count; `LoaderDemo.SelectWavesIdempotent` that picking the same count twice changes nothing more; `LoaderDemo.SelectWavesKeepsRender` that the loader drawn is the one drawn when only the wave count is set |
| `LoaderDemo.EnsureOverrides` | components/wave-loader-demo.tsx:410-419 | `LoaderDemo.EnsureOverridesResult` states the list it creates; `LoaderDemo.OverrideButtons` that adding is idempotent and that clearing after adding is the same as clearing; `LoaderDemo.EnsureOverridesKeepsRender` that empty overrides do not change the drawing |
| `LoaderDemo.ClearOverrides` | components/wave-loader-demo.tsx:421-423 | `LoaderDemo.OverrideButtons` states that clearing always leaves no overrides |
| `LoaderDemo.UpdateWaveOverride` | components/wave-loader-demo.tsx:425-438 | `LoaderDemo.UpdateTargetsOneEntry` states that only the edited entry changes; `LoaderDemo.UpdateIdempotent` that repeating an edit changes nothing more; `LoaderDemo.UpdatesCommute` that edits of different waves commute |
| `UsageSnippet.BuildUsageSnippet` | components/wave-loader-demo.tsx:289-340 | the imperative builder produces exactly the snippet text `Snippet` specifies |
| `UsageSnippet.PushScalarAttributes` | components/wave-loader-demo.tsx:290-307 | the eight conditional pushes give the attribute lines of the props that are written |
| `UsageSnippet.BuildOverrideLines` | components/wave-loader-demo.tsx:310-321 | the map over the overrides gives one line per override |
| `UsageSnippet.OverrideLines` | components/wave-loader-demo.tsx:310-321 | there is one override line per override |
| `UsageSnippet.OverrideFields` | components/wave-loader-demo.tsx:311-317 | an override line has one field for each of colour, duration and variant that is present |
| `UsageSnippet.AttrsUpToShape` | components/wave-loader-demo.tsx:290-326 | the attribute list has exactly one line per written prop, in declaration order |
| `UsageSnippet.AttributeOrder` | components/wave-loader-demo.tsx:290-326 | two written props appear in the order width, height, waves, color, durationMs, opacity, pathVariant, fadeOut, waveOverrides |
| `UsageSnippet.AttributeCount` | components/wave-loader-demo.tsx:290-326 | the list is empty exactly when no prop is written |
| `UsageSnippet.BareElementIff` | components/wave-loader-demo.tsx:328-331 | the JSX is the bare `<WaveLoader />` exactly when there are no attributes |
| `UsageSnippet.EmptyPropsSnippet` | components/wave-loader-demo.tsx:289-340 | with no props, the snippet is the header, the bare element and the footer |
| `UsageSnippet.DefaultsNotWritten` | components/wave-loader-demo.tsx:302-307 | opacity 0.5 and fadeOut 60 are left out, exactly as if unset |
| `UsageSnippet.EmptyOverrideLine` | components/wave-loader-demo.tsx:318-320 | an override prints as `{},` exactly when it has no fields |
| `UsageSnippet.SnippetFrame` | components/wave-loader-demo.tsx:333-340 | every snippet starts with the import-and-function header and ends with the closing footer |
| `UsageSnippet.MahaloAttributes` | components/wave-loader-demo.tsx:289-307 | the Mahalo preset writes width, height, waves, color, durationMs and pathVariant, in that order |
| `UsageSnippet.Snippet` | components/wave-loader-demo.tsx:289-340 | `UsageSnippet.SnippetFrame` states the header and footer around the element, `UsageSnippet.EmptyPropsSnippet` the snippet for no props, `UsageSnippet.BuildUsageSnippet` that the builder produces it |

## Left out

- React and Skia rendering are modelled as values: the `Canvas`, `Group`, `Path` and `LinearGradient` tree becomes the `Scene` datatype. The hooks (`useClock`, `useMemo`, `usePathValue`), the worklet runtime and re-rendering are not modelled.
- The five fixed `wavePath0..4` hooks are modelled as one path per wave index.
- Floating point is modelled as exact real arithmetic. `Math.PI` is its decimal expansion 3.141592653589793, and `Math.sin` is a parameter. Rounding error, and any result that depends on it, are not captured.
- I/O is not modelled: the demo's DOM style injection, clipboard copy, `Linking`, `setTimeout`, the "copied" flag, the colour-picker and preview-background state, and all layout and styling.
- `Number(text)` and JavaScript's number-to-string conversion are parameters, `parse` and `fmt`.
- `ToFixed2` models `Number(x.toFixed(2))` as exact rounding to two decimals, halves away from zero. It does not capture the binary-representation effects of `toFixed`.
- `LoaderDemo.Store` pads the gap left by assigning past the end of the overrides array with empty overrides, where JavaScript leaves holes. The loader reads a hole and `{}` alike (`override?.` gives undefined), so rendering is the same. The snippet's `map`/`join` would print holes differently; the UI only edits rows that exist.
- `LoaderDemo.ToLength`: `Array.from` throws a RangeError for a length above 2^32 - 1. The model clamps with ToLength and does not model the exception.
- Props of the wrong runtime type (a string passed as `waves`, say) are not modelled. Missing props are `None`, and numbers are `Num`.
- The demo copies props by value. JavaScript object aliasing between presets and state is not modelled, and so neither is in-place mutation of a shared object.
- `LegacyWave.DrawQuadSamples` takes the point count `n` as a parameter, which the legacy builders fix at 5. `BuildWavePathRounded` computes the handle segmentWidth × 0.5 × roundness once, before the loop, and passes it in. The source recomputes the same value on every pass of the loop.
- The legacy component's gradient end colour is the fixed string "#00BED100", not `toGradientEndColor`. `LegacyStyleIsDefaultStyle` therefore compares opacities, gradient stops, base colour and mask, not the gradient end.
- The demo offers a "tall" chip that is not a loader variant. `TallChipFallsBack` states what the loader does with it.
- Not part of this model: `app/index.tsx`, `metro.config.js`, `package/src/index.ts`, `package/src/presets.ts` (the extra presets; only MAHALO_PRESET is modelled), `package/test/smoke.test.cjs`, and the demo's API tables and documentation text.
- `WaveClock.WrappedPhase` states its range only for a non-negative clock. The animation clock never runs backwards, and for a negative clock JavaScript's `%` gives a negative phase.
- `WaveLoaderView.WavePath` requires a finite canvas width and height (`FiniteCanvas`). A NaN or infinite `width` or `height` prop makes every path coordinate non-finite in JavaScript, and the path model over real numbers does not represent such points. `Render` itself takes any props.
