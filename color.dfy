/**
 * The gradient end colour of a wave: the wave's colour parsed as #rrggbb,
 * converted to HSL, turned 20 degrees back in hue and 20 points lighter,
 * converted back to hex and given a fully transparent alpha byte.
 */
module GradientColor {
  import opened Js

  datatype Rgb = Rgb(r: int, g: int, b: int)
  datatype Hsl = Hsl(h: int, s: int, l: int)

  // ---------------------------------------------------------------------------
  // Hex digits

  /** The value of one hex digit, either case; decimal digits are ASCII only. */
  function HexDigit(c: char): Option<int> {
    if '0' <= c <= '9' then Some(c as int - '0' as int)
    else if 'a' <= c <= 'f' then Some(c as int - 'a' as int + 10)
    else if 'A' <= c <= 'F' then Some(c as int - 'A' as int + 10)
    else None
  }

  /** Two hex digits as one byte. */
  function HexByte(s: string): (r: Option<int>)
    requires |s| == 2
    ensures r.Some? ==> 0 <= r.value <= 255
    ensures r.Some? <==> HexDigit(s[0]).Some? && HexDigit(s[1]).Some?
  {
    match (HexDigit(s[0]), HexDigit(s[1]))
    case (Some(hi), Some(lo)) => Some(hi * 16 + lo)
    case _ => None
  }

  /** The match of /^#?([a-f\d]{2})([a-f\d]{2})([a-f\d]{2})$/i: an optional '#' and six hex digits. */
  function ParseHex(s: string): (r: Option<Rgb>)
    ensures r.Some? ==> |s| == 6 || (|s| == 7 && s[0] == '#')
    ensures r.Some? ==> forall i :: |s| - 6 <= i < |s| ==> HexDigit(s[i]).Some?
    ensures r.Some? ==> IsByteColor(r.value)
  {
    var digits := if |s| == 7 && s[0] == '#' then s[1..] else s;
    if |digits| != 6 then None
    else match (HexByte(digits[0..2]), HexByte(digits[2..4]), HexByte(digits[4..6]))
      case (Some(r), Some(g), Some(b)) => Some(Rgb(r, g, b))
      case _ => None
  }

  /** The lower-case digit Number.prototype.toString(16) writes for 0..15. */
  function DigitChar(d: int): (c: char)
    requires 0 <= d < 16
    ensures HexDigit(c) == Some(d)
    ensures '0' <= c <= '9' || 'a' <= c <= 'f'
  {
    if d < 10 then ('0' as int + d) as char else ('a' as int + d - 10) as char
  }

  /** Number.prototype.toString(16) on a non-negative integer. */
  function NatToHex(n: nat): (r: string)
    ensures |r| >= 1
    ensures n < 16 ==> |r| == 1
    ensures 16 <= n < 256 ==> |r| == 2
    decreases n
  {
    if n < 16 then [DigitChar(n)] else NatToHex(n / 16) + [DigitChar(n % 16)]
  }

  /** Number.prototype.toString(16) on an integer: a minus sign before the digits of a negative one. */
  function IntToHex(i: int): string {
    if i < 0 then "-" + NatToHex(-i) else NatToHex(i)
  }

  /** String.prototype.padStart(2, "0") */
  function PadStart2(s: string): (r: string)
    ensures |r| == if |s| >= 2 then |s| else 2
    ensures r[|r| - |s|..] == s
    ensures forall k :: 0 <= k < |r| - |s| ==> r[k] == '0'
  {
    if |s| >= 2 then s else seq(2 - |s|, _ => '0') + s
  }

  // ---------------------------------------------------------------------------
  // HexToHSL

  function Max3(x: real, y: real, z: real): real {
    if x >= y && x >= z then x else if y >= z then y else z
  }

  function Min3(x: real, y: real, z: real): real {
    if x <= y && x <= z then x else if y <= z then y else z
  }

  /** The hue in sixths of a turn, by which channel is the largest (red first, then green, then blue). */
  function HueSixths(r: real, g: real, b: real): real
    requires Max3(r, g, b) != Min3(r, g, b)
  {
    var max, min := Max3(r, g, b), Min3(r, g, b);
    var d := max - min;
    if max == r then (g - b) / d + (if g < b then 6.0 else 0.0)
    else if max == g then (b - r) / d + 2.0
    else (r - g) / d + 4.0
  }

  function Saturation(max: real, min: real): real
    requires 0.0 <= min < max <= 1.0
  {
    var d := max - min;
    if (max + min) / 2.0 > 0.5 then d / (2.0 - max - min) else d / (max + min)
  }

  /** HexToHSL: whole-number hue, saturation and lightness of a hex colour; {0, 0, 0} when it does not parse. */
  function HexToHsl(hex: string): Hsl {
    match ParseHex(hex)
    case None => Hsl(0, 0, 0)
    case Some(c) => RgbToHsl(c)
  }

  predicate IsByteColor(c: Rgb) {
    0 <= c.r <= 255 && 0 <= c.g <= 255 && 0 <= c.b <= 255
  }

  /** The HSL of a parsed colour, each channel taken as a share of 255. */
  function RgbToHsl(c: Rgb): Hsl
    requires IsByteColor(c)
  {
    var r, g, b := c.r as real / 255.0, c.g as real / 255.0, c.b as real / 255.0;
    var max, min := Max3(r, g, b), Min3(r, g, b);
    var l := (max + min) / 2.0;
    if max == min then Hsl(0, 0, Round(l * 100.0))
    else
      ByteUnit(c);
      Hsl(Round(360.0 * (HueSixths(r, g, b) / 6.0)), Round(Saturation(max, min) * 100.0), Round(l * 100.0))
  }

  // ---------------------------------------------------------------------------
  // HSLToHex

  /** The share 0..1 of channel n (0 red, 8 green, 4 blue) in the HSL-to-RGB formula. */
  function ChannelLevel(n: real, hsl: Hsl): real {
    var lightness := hsl.l as real / 100.0;
    var a := (hsl.s as real * MinReal(lightness, 1.0 - lightness)) / 100.0;
    var k := Rem(n + hsl.h as real / 30.0, 12.0);
    lightness - a * MaxReal(MinReal(MinReal(k - 3.0, 9.0 - k), 1.0), -1.0)
  }

  function MinReal(x: real, y: real): real { if x <= y then x else y }
  function MaxReal(x: real, y: real): real { if x >= y then x else y }

  function ChannelByte(n: real, hsl: Hsl): int {
    Round(255.0 * ChannelLevel(n, hsl))
  }

  function ChannelHex(n: real, hsl: Hsl): string {
    PadStart2(IntToHex(ChannelByte(n, hsl)))
  }

  /** HSLToHex */
  function HslToHex(hsl: Hsl): string {
    "#" + ChannelHex(0.0, hsl) + ChannelHex(8.0, hsl) + ChannelHex(4.0, hsl)
  }

  // ---------------------------------------------------------------------------
  // toGradientEndColor

  /** (((h - 20) % 360) + 360) % 360 */
  function ShiftHue(h: int): (r: int)
    ensures 0 <= r < 360
    ensures (r - (h - 20)) % 360 == 0
  {
    var once := IntRem(h - 20, 360);
    var r := IntRem(once + 360, 360);
    r
  }

  function Shifted(hsl: Hsl): Hsl {
    Hsl(ShiftHue(hsl.h), hsl.s, if 100 < hsl.l + 20 then 100 else hsl.l + 20)
  }

  /** toGradientEndColor: the shifted colour as #rrggbb followed by a transparent alpha byte. */
  function ToGradientEndColor(color: string): string {
    HslToHex(Shifted(HexToHsl(Trim(color)))) + "00"
  }

  // ---------------------------------------------------------------------------
  // Arithmetic helpers

  lemma ByteUnit(c: Rgb)
    ensures IsByteColor(c) ==>
      var r, g, b := c.r as real / 255.0, c.g as real / 255.0, c.b as real / 255.0;
      0.0 <= Min3(r, g, b) && Max3(r, g, b) <= 1.0
  {
  }

  lemma RatioUnit(x: real, d: real)
    requires d > 0.0 && -d <= x <= d
    ensures -1.0 <= x / d <= 1.0
    ensures x >= 0.0 ==> x / d >= 0.0
    ensures x < 0.0 ==> x / d < 0.0
  {
    var q := x / d;
    assert q * d == x;
    if q > 1.0 {
      MulStrict(d, 1.0, q);
    }
    if q < -1.0 {
      MulStrict(d, q, -1.0);
    }
    if x >= 0.0 && q < 0.0 {
      MulStrict(d, q, 0.0);
    }
    if x < 0.0 && q >= 0.0 {
      MulLe(d, 0.0, q);
    }
  }

  lemma RoundWithin(x: real, lo: int, hi: int)
    requires lo as real <= x <= hi as real
    ensures lo <= Round(x) <= hi
  {
  }

  // ---------------------------------------------------------------------------
  // Properties of HexToHSL

  /** The hue in sixths lies in [0, 6). */
  lemma HueSixthsRange(r: real, g: real, b: real)
    requires Max3(r, g, b) != Min3(r, g, b)
    ensures 0.0 <= HueSixths(r, g, b) < 6.0
  {
    var max, min := Max3(r, g, b), Min3(r, g, b);
    var d := max - min;
    if max == r {
      RatioUnit(g - b, d);
    } else if max == g {
      RatioUnit(b - r, d);
    } else {
      RatioUnit(r - g, d);
    }
  }

  lemma SaturationRange(max: real, min: real)
    requires 0.0 <= min < max <= 1.0
    ensures 0.0 <= Saturation(max, min) <= 1.0
  {
    var d := max - min;
    if (max + min) / 2.0 > 0.5 {
      RatioUnit(d, 2.0 - max - min);
    } else {
      RatioUnit(d, max + min);
    }
  }

  /** Hue lies in [0, 360], saturation and lightness in [0, 100], whatever the input. */
  lemma HexToHslRange(hex: string)
    ensures var c := HexToHsl(hex); 0 <= c.h <= 360 && 0 <= c.s <= 100 && 0 <= c.l <= 100
  {
    match ParseHex(hex)
    case None =>
    case Some(c) => RgbToHslRange(c);
  }

  lemma RgbToHslRange(c: Rgb)
    requires IsByteColor(c)
    ensures var h := RgbToHsl(c); 0 <= h.h <= 360 && 0 <= h.s <= 100 && 0 <= h.l <= 100
  {
    var r, g, b := c.r as real / 255.0, c.g as real / 255.0, c.b as real / 255.0;
    var max, min := Max3(r, g, b), Min3(r, g, b);
    ByteUnit(c);
    RoundWithin((max + min) / 2.0 * 100.0, 0, 100);
    if max != min {
      HueSixthsRange(r, g, b);
      RoundWithin(360.0 * (HueSixths(r, g, b) / 6.0), 0, 360);
      SaturationRange(max, min);
      RoundWithin(Saturation(max, min) * 100.0, 0, 100);
    }
  }

  /** A colour that is not an optional '#' and six hex digits converts to {0, 0, 0}. */
  lemma UnparsableIsBlack(hex: string)
    requires ParseHex(hex) == None
    ensures HexToHsl(hex) == Hsl(0, 0, 0)
  {
  }

  /** A grey (all three channels equal) has hue and saturation 0. */
  lemma GreyHasNoHue(hex: string, v: int)
    requires ParseHex(hex) == Some(Rgb(v, v, v))
    ensures HexToHsl(hex).h == 0 && HexToHsl(hex).s == 0
  {
  }

  /** The '#' before the digits is optional. */
  lemma HashOptional(digits: string)
    requires |digits| == 6
    ensures ParseHex("#" + digits) == ParseHex(digits)
  {
    assert ("#" + digits)[1..] == digits;
  }

  /** Parsing ignores the case of the letter digits. */
  lemma ParseIgnoresCase()
    ensures ParseHex("#012D53") == ParseHex("#012d53") == Some(Rgb(1, 45, 83))
  {
    assert HexByte("01") == Some(1);
    assert HexByte("2D") == Some(45) == HexByte("2d");
    assert HexByte("53") == Some(83);
    assert ParseHex("#012D53") == Some(Rgb(1, 45, 83)) by {
      var d := "#012D53"[1..];
      assert d == "012D53";
      assert d[0..2] == "01" && d[2..4] == "2D" && d[4..6] == "53";
    }
    assert ParseHex("#012d53") == Some(Rgb(1, 45, 83)) by {
      var d := "#012d53"[1..];
      assert d == "012d53";
      assert d[0..2] == "01" && d[2..4] == "2d" && d[4..6] == "53";
    }
  }

  /** Pure primaries and white. */
  lemma HexToHslExamples()
    ensures HexToHsl("#ffffff") == Hsl(0, 0, 100)
    ensures HexToHsl("000000") == Hsl(0, 0, 0)
    ensures HexToHsl("#ff0000") == Hsl(0, 100, 50)
  {
    assert HexByte("ff") == Some(255);
    assert HexByte("00") == Some(0);
    assert ParseHex("#ffffff") == Some(Rgb(255, 255, 255));
    assert ParseHex("000000") == Some(Rgb(0, 0, 0));
    assert ParseHex("#ff0000") == Some(Rgb(255, 0, 0));
  }

  // ---------------------------------------------------------------------------
  // Properties of HSLToHex

  /** A byte renders as exactly two lower-case hex digits that read back as that byte. */
  lemma ByteHexRoundTrip(n: int)
    requires 0 <= n <= 255
    ensures var s := PadStart2(IntToHex(n));
      |s| == 2 && HexByte(s) == Some(n)
      && forall k :: 0 <= k < 2 ==> '0' <= s[k] <= '9' || 'a' <= s[k] <= 'f'
  {
    var s := PadStart2(IntToHex(n));
    if n < 16 {
      assert s == ['0', DigitChar(n)];
    } else {
      assert NatToHex(n / 16) == [DigitChar(n / 16)];
      assert s == [DigitChar(n / 16), DigitChar(n % 16)];
    }
  }

  /** With saturation and lightness in [0, 100], each channel's level lies in [0, 1]. */
  lemma ChannelLevelUnit(n: real, hsl: Hsl)
    requires 0 <= hsl.s <= 100 && 0 <= hsl.l <= 100
    ensures 0.0 <= ChannelLevel(n, hsl) <= 1.0
  {
    var lightness := hsl.l as real / 100.0;
    var m := MinReal(lightness, 1.0 - lightness);
    var a := (hsl.s as real * m) / 100.0;
    var k := Rem(n + hsl.h as real / 30.0, 12.0);
    var w := MaxReal(MinReal(MinReal(k - 3.0, 9.0 - k), 1.0), -1.0);
    assert 0.0 <= m <= 0.5;
    SpreadBound(hsl.s as real, m, a);
    WeightedSpread(lightness, a, w);
  }

  lemma SpreadBound(s: real, m: real, a: real)
    requires 0.0 <= s <= 100.0 && 0.0 <= m && a == (s * m) / 100.0
    ensures 0.0 <= a <= m
  {
    MulLe(m, s, 100.0);
    assert s * m <= 100.0 * m;
  }

  lemma WeightedSpread(lightness: real, a: real, w: real)
    requires 0.0 <= a <= lightness && a <= 1.0 - lightness && -1.0 <= w <= 1.0
    ensures 0.0 <= lightness - a * w <= 1.0
  {
    MulLe(a, w, 1.0);
    assert a * w <= a * 1.0;
    MulLe(a, -1.0, w);
    assert a * -1.0 <= a * w;
    var p := a * w;
    assert -a <= p <= a;
    assert 0.0 <= lightness - p;
    assert lightness - p <= lightness + a;
  }

  /** In range, HSLToHex writes '#' and three two-digit channels that parse back to the channel bytes. */
  lemma HslToHexShape(hsl: Hsl)
    requires 0 <= hsl.s <= 100 && 0 <= hsl.l <= 100
    ensures var r := HslToHex(hsl);
      |r| == 7 && r[0] == '#'
      && ParseHex(r) == Some(Rgb(ChannelByte(0.0, hsl), ChannelByte(8.0, hsl), ChannelByte(4.0, hsl)))
  {
    ChannelByteRange(0.0, hsl);
    ChannelByteRange(8.0, hsl);
    ChannelByteRange(4.0, hsl);
    ParseThreeChannels(ChannelHex(0.0, hsl), ChannelHex(8.0, hsl), ChannelHex(4.0, hsl),
                       ChannelByte(0.0, hsl), ChannelByte(8.0, hsl), ChannelByte(4.0, hsl));
  }

  /** '#' and three two-digit channels parse back to the three channel values. */
  lemma ParseThreeChannels(x: string, y: string, z: string, a: int, b: int, c: int)
    requires |x| == 2 && |y| == 2 && |z| == 2
    requires HexByte(x) == Some(a) && HexByte(y) == Some(b) && HexByte(z) == Some(c)
    ensures var r := "#" + x + y + z;
      |r| == 7 && r[0] == '#' && ParseHex(r) == Some(Rgb(a, b, c))
  {
    var r := "#" + x + y + z;
    assert r[1..] == x + y + z;
    assert (x + y + z)[0..2] == x;
    assert (x + y + z)[2..4] == y;
    assert (x + y + z)[4..6] == z;
  }

  lemma ChannelByteRange(n: real, hsl: Hsl)
    requires 0 <= hsl.s <= 100 && 0 <= hsl.l <= 100
    ensures 0 <= ChannelByte(n, hsl) <= 255
    ensures |ChannelHex(n, hsl)| == 2 && HexByte(ChannelHex(n, hsl)) == Some(ChannelByte(n, hsl))
  {
    ChannelLevelUnit(n, hsl);
    RoundWithin(255.0 * ChannelLevel(n, hsl), 0, 255);
    ByteHexRoundTrip(ChannelByte(n, hsl));
  }

  /** Without saturation every channel is the lightness: a grey. */
  lemma UnsaturatedIsGrey(h: int, l: int)
    ensures ChannelByte(0.0, Hsl(h, 0, l)) == ChannelByte(8.0, Hsl(h, 0, l)) == ChannelByte(4.0, Hsl(h, 0, l))
      == Round(255.0 * (l as real / 100.0))
  {
  }

  // ---------------------------------------------------------------------------
  // Properties of toGradientEndColor

  /** The gradient end is '#', six hex digits that parse, and the alpha byte "00". */
  lemma GradientEndShape(color: string)
    ensures var r := ToGradientEndColor(color);
      |r| == 9 && r[0] == '#' && r[7..] == "00" && ParseHex(r[..7]).Some?
  {
    var c := HexToHsl(Trim(color));
    HexToHslRange(Trim(color));
    var s := Shifted(c);
    HslToHexShape(s);
    var r := ToGradientEndColor(color);
    assert r[..7] == HslToHex(s);
  }

  /** The shifted hue is 20 degrees back, as an angle in [0, 360). */
  lemma ShiftHueExamples()
    ensures ShiftHue(0) == 340 && ShiftHue(10) == 350 && ShiftHue(20) == 0
    ensures ShiftHue(360) == 340 && ShiftHue(200) == 180
  {
  }

  /** Any colour that is not #rrggbb (a CSS name, an rgb() string, three digits) ends in a transparent dark grey. */
  lemma UnparsableGradientEnd(color: string)
    requires ParseHex(Trim(color)) == None
    ensures ToGradientEndColor(color) == "#33333300"
  {
    UnparsableIsBlack(Trim(color));
    BlackGradientEnd(HexToHsl(Trim(color)));
  }

  /** Black, or any unsaturated colour as dark, ends at #333333 with the alpha byte. */
  lemma BlackGradientEnd(black: Hsl)
    requires black.s == 0 && black.l == 0
    ensures HslToHex(Shifted(black)) + "00" == "#33333300"
  {
    var hex := HslToHex(Shifted(black));
    DarkGreyHex(Shifted(black));
    AlphaSuffix(hex, hex + "00");
  }

  lemma AlphaSuffix(hex: string, end: string)
    requires hex == "#333333" && end == hex + "00"
    ensures end == "#33333300"
  {
  }

  /** Without saturation and at lightness 20, whatever the hue, every channel is byte 51: the grey #333333. */
  lemma DarkGreyHex(hsl: Hsl)
    requires hsl.s == 0 && hsl.l == 20
    ensures HslToHex(hsl) == "#333333"
  {
    UnsaturatedIsGrey(hsl.h, 20);
    assert Round(255.0 * (20 as real / 100.0)) == 51;
    assert ChannelByte(0.0, hsl) == ChannelByte(8.0, hsl) == ChannelByte(4.0, hsl) == 51;
    assert NatToHex(51) == [DigitChar(3), DigitChar(3)] == "33";
  }

  /** Surrounding whitespace does not change the gradient end. */
  lemma GradientEndIgnoresPadding(color: string)
    ensures ToGradientEndColor(Trim(color)) == ToGradientEndColor(color)
  {
    TrimIdempotent(color);
  }
}
