/**
 * buildUsageSnippet: the demo screen's "copy code" text, a small TSX module
 * that renders a WaveLoader with the current props written out as JSX
 * attributes. Writing a number as text (`${n}`) is the parameter `fmt`.
 */
module UsageSnippet {
  import opened Js
  import opened WaveTypes
  import opened LoaderDemo

  const INDENT_L2: string := "    "
  const INDENT_L3: string := "      "
  const INDENT_L4: string := "        "

  /** width, height, waves, color, durationMs, opacity, pathVariant, fadeOut, waveOverrides: attributes 0 to 8. */
  const ATTR_COUNT: nat := 9

  /** opacity and fadeOut are not written when they hold the loader's defaults. */
  const SNIPPET_DEFAULT_OPACITY: real := 0.5
  const SNIPPET_DEFAULT_FADE_OUT: real := 60.0

  const HEADER: string := "import { WaveLoader } from \"wave-loader\";\n\nexport function MyLoader() {\n  return (\n"
  const FOOTER: string := "\n  );\n}"
  const BARE_LOADER: string := INDENT_L2 + "<WaveLoader />"

  /** Array.prototype.join. */
  function Join(parts: seq<string>, sep: string): string
    decreases |parts|
  {
    if |parts| == 0 then ""
    else if |parts| == 1 then parts[0]
    else parts[0] + sep + Join(parts[1..], sep)
  }

  function Quoted(s: string): string { "\"" + s + "\"" }
  function Braced(s: string): string { "{" + s + "}" }

  // ---------------------------------------------------------------------------
  // Specification

  /** Attribute k is written: its prop is defined, and opacity and fadeOut differ from their defaults. */
  predicate Present(props: WaveLoaderProps, k: nat)
    requires k < ATTR_COUNT
  {
    match k
    case 0 => props.width.Some?
    case 1 => props.height.Some?
    case 2 => props.waves.Some?
    case 3 => props.color.Some?
    case 4 => props.durationMs.Some?
    case 5 => props.opacity.Some? && props.opacity.value != Fin(SNIPPET_DEFAULT_OPACITY)
    case 6 => props.pathVariant.Some?
    case 7 => props.fadeOut.Some? && props.fadeOut.value != Fin(SNIPPET_DEFAULT_FADE_OUT)
    case _ => props.waveOverrides.Some? && |props.waveOverrides.value| > 0
  }

  /** One override's fields, in the order color, durationMs, pathVariant. */
  function OverrideFields(o: WaveOverride, fmt: Num -> string): (r: seq<string>)
    ensures |r| == (if o.color.Some? then 1 else 0) + (if o.durationMs.Some? then 1 else 0)
                 + (if o.pathVariant.Some? then 1 else 0)
  {
    (if o.color.Some? then ["color: " + Quoted(o.color.value)] else [])
    + (if o.durationMs.Some? then ["durationMs: " + fmt(o.durationMs.value)] else [])
    + (if o.pathVariant.Some? then ["pathVariant: " + Quoted(o.pathVariant.value)] else [])
  }

  /** One line of the overrides block. */
  function OverrideLine(o: WaveOverride, fmt: Num -> string): string {
    var fields := OverrideFields(o, fmt);
    if |fields| > 0 then INDENT_L4 + "{ " + Join(fields, ", ") + " }," else INDENT_L4 + "{},"
  }

  function OverrideLines(overrides: seq<WaveOverride>, fmt: Num -> string): (r: seq<string>)
    ensures |r| == |overrides|
  {
    seq(|overrides|, i requires 0 <= i < |overrides| => OverrideLine(overrides[i], fmt))
  }

  /** The line of attribute k: its name, `=`, and its value in braces or quotes. */
  function AttrLine(props: WaveLoaderProps, fmt: Num -> string, k: nat): string
    requires k < ATTR_COUNT && Present(props, k)
  {
    match k
    case 0 => INDENT_L3 + "width=" + Braced(fmt(props.width.value))
    case 1 => INDENT_L3 + "height=" + Braced(fmt(props.height.value))
    case 2 => INDENT_L3 + "waves=" + Braced(fmt(props.waves.value))
    case 3 => INDENT_L3 + "color=" + Quoted(props.color.value)
    case 4 => INDENT_L3 + "durationMs=" + Braced(fmt(props.durationMs.value))
    case 5 => INDENT_L3 + "opacity=" + Braced(fmt(props.opacity.value))
    case 6 => INDENT_L3 + "pathVariant=" + Quoted(props.pathVariant.value)
    case 7 => INDENT_L3 + "fadeOut=" + Braced(fmt(props.fadeOut.value))
    case _ => INDENT_L3 + "waveOverrides=" + OverridesBlock(props.waveOverrides.value, fmt)
  }

  /** The value of the waveOverrides attribute: an array literal with one line per override. */
  function OverridesBlock(overrides: seq<WaveOverride>, fmt: Num -> string): string {
    "{[\n" + Join(OverrideLines(overrides, fmt), "\n") + "\n" + INDENT_L3 + "]}"
  }

  /** The lines of the written attributes among the first k. */
  function AttrsUpTo(props: WaveLoaderProps, fmt: Num -> string, k: nat): seq<string>
    requires k <= ATTR_COUNT
  {
    if k == 0 then []
    else AttrsUpTo(props, fmt, k - 1) + (if Present(props, k - 1) then [AttrLine(props, fmt, k - 1)] else [])
  }

  /** How many of the first k attributes are written. */
  function CountPresent(props: WaveLoaderProps, k: nat): nat
    requires k <= ATTR_COUNT
  {
    if k == 0 then 0 else CountPresent(props, k - 1) + (if Present(props, k - 1) then 1 else 0)
  }

  function Attributes(props: WaveLoaderProps, fmt: Num -> string): seq<string> {
    AttrsUpTo(props, fmt, ATTR_COUNT)
  }

  /** The JSX element: self-closing on one line without attributes, one attribute per line otherwise. */
  function LoaderJsx(attrs: seq<string>): string {
    if |attrs| == 0 then BARE_LOADER
    else INDENT_L2 + "<WaveLoader\n" + Join(attrs, "\n") + "\n" + INDENT_L2 + "/>"
  }

  function Snippet(props: WaveLoaderProps, fmt: Num -> string): string {
    HEADER + LoaderJsx(Attributes(props, fmt)) + FOOTER
  }

  // ---------------------------------------------------------------------------
  // The serialiser

  /** buildUsageSnippet: pushes the written attributes in order, then wraps the element in the module text. */
  method BuildUsageSnippet(props: WaveLoaderProps, fmt: Num -> string) returns (text: string)
    ensures text == Snippet(props, fmt)
  {
    var attrs := PushScalarAttributes(props, fmt);
    if props.waveOverrides.Some? && |props.waveOverrides.value| > 0 {
      var lines := BuildOverrideLines(props.waveOverrides.value, fmt);
      var block := "{[\n" + Join(lines, "\n") + "\n" + INDENT_L3 + "]}";
      assert block == OverridesBlock(props.waveOverrides.value, fmt);
      attrs := attrs + [INDENT_L3 + "waveOverrides=" + block];
    }
    assert attrs == AttrsUpTo(props, fmt, 9);
    var jsx := if |attrs| == 0 then INDENT_L2 + "<WaveLoader />"
      else INDENT_L2 + "<WaveLoader\n" + Join(attrs, "\n") + "\n" + INDENT_L2 + "/>";
    text := HEADER + jsx + FOOTER;
  }

  /** The first eight pushes of buildUsageSnippet: one line per defined attribute, opacity and fadeOut only off their defaults. */
  method PushScalarAttributes(props: WaveLoaderProps, fmt: Num -> string) returns (attrs: seq<string>)
    ensures attrs == AttrsUpTo(props, fmt, 8)
  {
    attrs := [];
    if props.width.Some? {
      attrs := attrs + [INDENT_L3 + "width=" + Braced(fmt(props.width.value))];
    }
    assert attrs == AttrsUpTo(props, fmt, 1);
    if props.height.Some? {
      attrs := attrs + [INDENT_L3 + "height=" + Braced(fmt(props.height.value))];
    }
    assert attrs == AttrsUpTo(props, fmt, 2);
    if props.waves.Some? {
      attrs := attrs + [INDENT_L3 + "waves=" + Braced(fmt(props.waves.value))];
    }
    assert attrs == AttrsUpTo(props, fmt, 3);
    if props.color.Some? {
      attrs := attrs + [INDENT_L3 + "color=" + Quoted(props.color.value)];
    }
    assert attrs == AttrsUpTo(props, fmt, 4);
    if props.durationMs.Some? {
      attrs := attrs + [INDENT_L3 + "durationMs=" + Braced(fmt(props.durationMs.value))];
    }
    assert attrs == AttrsUpTo(props, fmt, 5);
    if props.opacity.Some? && props.opacity.value != Fin(SNIPPET_DEFAULT_OPACITY) {
      attrs := attrs + [INDENT_L3 + "opacity=" + Braced(fmt(props.opacity.value))];
    }
    assert attrs == AttrsUpTo(props, fmt, 6);
    if props.pathVariant.Some? {
      attrs := attrs + [INDENT_L3 + "pathVariant=" + Quoted(props.pathVariant.value)];
    }
    assert attrs == AttrsUpTo(props, fmt, 7);
    if props.fadeOut.Some? && props.fadeOut.value != Fin(SNIPPET_DEFAULT_FADE_OUT) {
      attrs := attrs + [INDENT_L3 + "fadeOut=" + Braced(fmt(props.fadeOut.value))];
    }
    assert attrs == AttrsUpTo(props, fmt, 8);
  }

  /** The `map` over the overrides: for each one, push its defined fields and write the line. */
  method BuildOverrideLines(overrides: seq<WaveOverride>, fmt: Num -> string) returns (lines: seq<string>)
    ensures lines == OverrideLines(overrides, fmt)
  {
    lines := [];
    for i := 0 to |overrides|
      invariant |lines| == i
      invariant forall k :: 0 <= k < i ==> lines[k] == OverrideLine(overrides[k], fmt)
    {
      var o := overrides[i];
      var fields: seq<string> := [];
      if o.color.Some? {
        fields := fields + ["color: " + Quoted(o.color.value)];
      }
      if o.durationMs.Some? {
        fields := fields + ["durationMs: " + fmt(o.durationMs.value)];
      }
      if o.pathVariant.Some? {
        fields := fields + ["pathVariant: " + Quoted(o.pathVariant.value)];
      }
      assert fields == OverrideFields(o, fmt);
      var line := if |fields| > 0 then INDENT_L4 + "{ " + Join(fields, ", ") + " }," else INDENT_L4 + "{},";
      lines := lines + [line];
    }
  }

  // ---------------------------------------------------------------------------
  // Properties

  /**
   * The attribute lines are exactly the written attributes' lines, in the fixed
   * order: written attribute j is line number CountPresent(j), and there are no
   * other lines.
   */
  lemma {:induction false} AttrsUpToShape(props: WaveLoaderProps, fmt: Num -> string, k: nat)
    requires k <= ATTR_COUNT
    ensures |AttrsUpTo(props, fmt, k)| == CountPresent(props, k)
    ensures forall j :: 0 <= j < k && Present(props, j) ==>
      CountPresent(props, j) < CountPresent(props, k) && AttrsUpTo(props, fmt, k)[CountPresent(props, j)] == AttrLine(props, fmt, j)
  {
    AttrsUpToLength(props, fmt, k);
    if k > 0 {
      AttrsUpToShape(props, fmt, k - 1);
      var before := AttrsUpTo(props, fmt, k - 1);
      assert AttrsUpTo(props, fmt, k) == before + (if Present(props, k - 1) then [AttrLine(props, fmt, k - 1)] else []);
      forall j | 0 <= j < k && Present(props, j)
        ensures CountPresent(props, j) < CountPresent(props, k)
        ensures AttrsUpTo(props, fmt, k)[CountPresent(props, j)] == AttrLine(props, fmt, j)
      {
        if j < k - 1 {
          assert AttrsUpTo(props, fmt, k)[CountPresent(props, j)] == before[CountPresent(props, j)];
        } else {
          assert CountPresent(props, j) == |before|;
        }
      }
    }
  }

  lemma {:induction false} AttrsUpToLength(props: WaveLoaderProps, fmt: Num -> string, k: nat)
    requires k <= ATTR_COUNT
    ensures |AttrsUpTo(props, fmt, k)| == CountPresent(props, k)
  {
    if k > 0 {
      AttrsUpToLength(props, fmt, k - 1);
    }
  }

  lemma {:induction false} CountMonotone(props: WaveLoaderProps, j: nat, k: nat)
    requires j <= k <= ATTR_COUNT
    ensures CountPresent(props, j) <= CountPresent(props, k)
    decreases k - j
  {
    if j < k {
      CountMonotone(props, j, k - 1);
    }
  }

  /** Attributes appear in the fixed order: an earlier written attribute is on an earlier line. */
  lemma AttributeOrder(props: WaveLoaderProps, fmt: Num -> string, j: nat, k: nat)
    requires j < k < ATTR_COUNT && Present(props, j) && Present(props, k)
    ensures var attrs := Attributes(props, fmt);
      exists p, q :: 0 <= p < q < |attrs| && attrs[p] == AttrLine(props, fmt, j) && attrs[q] == AttrLine(props, fmt, k)
  {
    AttrsUpToShape(props, fmt, ATTR_COUNT);
    CountMonotone(props, j + 1, k);
    var attrs := Attributes(props, fmt);
    var p, q := CountPresent(props, j), CountPresent(props, k);
    assert 0 <= p < q < |attrs| && attrs[p] == AttrLine(props, fmt, j) && attrs[q] == AttrLine(props, fmt, k);
  }

  /** Only written attributes have lines: one line per defined, non-default attribute. */
  lemma AttributeCount(props: WaveLoaderProps, fmt: Num -> string)
    ensures |Attributes(props, fmt)| == CountPresent(props, ATTR_COUNT)
    ensures Attributes(props, fmt) == [] <==> forall k :: 0 <= k < ATTR_COUNT ==> !Present(props, k)
  {
    AttrsUpToShape(props, fmt, ATTR_COUNT);
    if Attributes(props, fmt) == [] {
      forall k | 0 <= k < ATTR_COUNT
        ensures !Present(props, k)
      {
      }
    } else {
      var k :| 0 <= k < ATTR_COUNT && Present(props, k) by {
        NoneWrittenNoCount(props, ATTR_COUNT);
      }
    }
  }

  lemma {:induction false} NoneWrittenNoCount(props: WaveLoaderProps, k: nat)
    requires k <= ATTR_COUNT
    ensures CountPresent(props, k) > 0 ==> exists j :: 0 <= j < k && Present(props, j)
  {
    if k > 0 && !Present(props, k - 1) {
      NoneWrittenNoCount(props, k - 1);
    }
  }

  /** The element is the single line `    <WaveLoader />` exactly when no attribute is written. */
  lemma BareElementIff(attrs: seq<string>)
    ensures LoaderJsx(attrs) == BARE_LOADER <==> attrs == []
  {
    if attrs != [] {
      assert LoaderJsx(attrs)[15] == '\n' && BARE_LOADER[15] == ' ';
    }
  }

  /** With no props at all the snippet renders the bare element. */
  lemma EmptyPropsSnippet(fmt: Num -> string)
    ensures Snippet(NO_PROPS, fmt) == HEADER + BARE_LOADER + FOOTER
  {
    assert Attributes(NO_PROPS, fmt) == [];
  }

  /** opacity 0.5 and fadeOut 60 are written exactly as if they were left out. */
  lemma DefaultsNotWritten(props: WaveLoaderProps, fmt: Num -> string)
    ensures Attributes(props.(opacity := Some(Fin(SNIPPET_DEFAULT_OPACITY)), fadeOut := Some(Fin(SNIPPET_DEFAULT_FADE_OUT))), fmt)
         == Attributes(props.(opacity := None, fadeOut := None), fmt)
  {
    var p := props.(opacity := Some(Fin(SNIPPET_DEFAULT_OPACITY)), fadeOut := Some(Fin(SNIPPET_DEFAULT_FADE_OUT)));
    var q := props.(opacity := None, fadeOut := None);
    SameWrittenAttrs(p, q, fmt, ATTR_COUNT);
  }

  /** Two props with the same written attributes and lines give the same attribute list. */
  lemma {:induction false} SameWrittenAttrs(p: WaveLoaderProps, q: WaveLoaderProps, fmt: Num -> string, k: nat)
    requires k <= ATTR_COUNT
    requires forall j :: 0 <= j < ATTR_COUNT ==> Present(p, j) == Present(q, j)
    requires forall j :: 0 <= j < ATTR_COUNT && Present(p, j) ==> AttrLine(p, fmt, j) == AttrLine(q, fmt, j)
    ensures AttrsUpTo(p, fmt, k) == AttrsUpTo(q, fmt, k)
  {
    if k > 0 {
      SameWrittenAttrs(p, q, fmt, k - 1);
    }
  }

  /** An override with no fields is written `{},`; any field makes it `{ ... },`. */
  lemma EmptyOverrideLine(o: WaveOverride, fmt: Num -> string)
    ensures OverrideLine(o, fmt) == INDENT_L4 + "{}," <==> o == EMPTY_OVERRIDE
  {
    if o != EMPTY_OVERRIDE {
      assert OverrideLine(o, fmt)[9] == ' ';
    }
  }

  /** The snippet is always the import line and the MyLoader function around the element. */
  lemma SnippetFrame(props: WaveLoaderProps, fmt: Num -> string)
    ensures var text := Snippet(props, fmt);
      && |text| >= |HEADER| + |FOOTER|
      && text[..|HEADER|] == HEADER
      && text[|text| - |FOOTER|..] == FOOTER
  {
    var jsx := LoaderJsx(Attributes(props, fmt));
    var text := Snippet(props, fmt);
    assert text == HEADER + jsx + FOOTER;
    assert text[..|HEADER|] == HEADER;
    assert text[|text| - |FOOTER|..] == FOOTER;
  }

  /** The starting preset is written as its six defined attributes, in order. */
  lemma MahaloAttributes(fmt: Num -> string)
    ensures Attributes(MAHALO_PRESET, fmt) == [
      INDENT_L3 + "width=" + Braced(fmt(Fin(240.0))),
      INDENT_L3 + "height=" + Braced(fmt(Fin(80.0))),
      INDENT_L3 + "waves=" + Braced(fmt(Fin(3.0))),
      INDENT_L3 + "color=" + Quoted("#012D53"),
      INDENT_L3 + "durationMs=" + Braced(fmt(Fin(4000.0))),
      INDENT_L3 + "pathVariant=" + Quoted("rounded")]
  {
    var p := MAHALO_PRESET;
    assert AttrsUpTo(p, fmt, 5) == [AttrLine(p, fmt, 0), AttrLine(p, fmt, 1), AttrLine(p, fmt, 2), AttrLine(p, fmt, 3), AttrLine(p, fmt, 4)];
    assert !Present(p, 5) && Present(p, 6) && !Present(p, 7) && !Present(p, 8);
    assert AttrsUpTo(p, fmt, 7) == AttrsUpTo(p, fmt, 5) + [AttrLine(p, fmt, 6)];
  }
}
