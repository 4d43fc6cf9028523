/**
 * Per-wave layout: five five-entry anchor tables, sampled by linear
 * interpolation at the wave's relative position, so that any count of waves
 * spreads evenly from the first anchor to the last.
 */
module WaveLayouts {
  import opened Js

  const BASE_Y_ANCHORS: seq<real> := [0.35, 0.425, 0.5, 0.575, 0.65]
  const AMPLITUDE_ANCHORS: seq<real> := [0.12, 0.135, 0.15, 0.125, 0.1]
  const OPACITY_ANCHORS: seq<real> := [0.2, 0.275, 0.35, 0.425, 0.5]
  const GRADIENT_STOP_ANCHORS: seq<real> := [0.7, 0.75, 0.8, 0.85, 0.9]
  const PHASE_OFFSET_ANCHORS: seq<real> := [PI * 0.0, PI * 0.35, PI * 0.7, PI * 1.05, PI * 1.4]

  /** The last opacity anchor, used for a lone wave and as the opacity that leaves waves unscaled. */
  const DEFAULT_OPACITY: real := OPACITY_ANCHORS[|OPACITY_ANCHORS| - 1]

  datatype WaveLayout = WaveLayout(
    baseYRatio: real,
    amplitudeRatio: real,
    opacity: real,
    gradientStop: real,
    phaseOffsetRad: real)

  // ---------------------------------------------------------------------------
  // sampleAnchor

  /** Where wave `index` of `waveCount` falls along a table of `len` anchors. */
  function Position(index: int, waveCount: int, len: nat): real
    requires waveCount > 1
  {
    (index as real / (waveCount - 1) as real) * (len - 1) as real
  }

  /** Math.ceil */
  function Ceil(x: real): int {
    -((-x).Floor)
  }

  predicate Between(r: real, a: real, b: real) {
    (a <= r <= b) || (b <= r <= a)
  }

  /** The anchor value at a position inside the table: exact on an anchor, interpolated between two. */
  function AnchorAt(anchors: seq<real>, position: real): (r: real)
    requires 0.0 <= position <= (|anchors| - 1) as real
    ensures 0 <= position.Floor <= Ceil(position) < |anchors|
    ensures Between(r, anchors[position.Floor], anchors[Ceil(position)])
  {
    FloorCeil(position, |anchors| - 1);
    var lower := position.Floor;
    var upper := Ceil(position);
    if lower == upper then anchors[lower]
    else
      var mix := position - lower as real;
      MixBetween(anchors[lower], anchors[upper], mix);
      anchors[lower] + (anchors[upper] - anchors[lower]) * mix
  }

  /** sampleAnchor: the middle anchor for at most one wave, otherwise the anchor at the wave's position. */
  function SampleAnchor(anchors: seq<real>, waveCount: int, index: int): (r: real)
    requires |anchors| >= 1
    requires waveCount <= 1 || 0 <= index < waveCount
    ensures waveCount <= 1 ==> r == anchors[(|anchors| - 1) / 2]
    ensures waveCount > 1 ==>
      var p := Position(index, waveCount, |anchors|);
      && 0.0 <= p <= (|anchors| - 1) as real
      && 0 <= p.Floor <= Ceil(p) < |anchors|
      && Between(r, anchors[p.Floor], anchors[Ceil(p)])
  {
    if waveCount <= 1 then anchors[(|anchors| - 1) / 2]
    else
      PositionRange(index, waveCount, |anchors|);
      AnchorAt(anchors, Position(index, waveCount, |anchors|))
  }

  // ---------------------------------------------------------------------------
  // Arithmetic of the position

  /** Floor and ceiling of a position inside [0, last]: both anchors exist, and they differ by at most one. */
  lemma FloorCeil(p: real, last: int)
    requires 0.0 <= p <= last as real
    ensures 0 <= p.Floor <= Ceil(p) <= last
    ensures Ceil(p) <= p.Floor + 1
    ensures p.Floor as real <= p < p.Floor as real + 1.0
    ensures p.Floor == Ceil(p) <==> p == p.Floor as real
  {
    assert (-p).Floor >= -last;
    assert (-p).Floor >= -(p.Floor + 1);
  }

  lemma PositionRange(index: int, waveCount: int, len: nat)
    requires len >= 1 && waveCount > 1 && 0 <= index < waveCount
    ensures 0.0 <= Position(index, waveCount, len) <= (len - 1) as real
  {
    var x := index as real / (waveCount - 1) as real;
    var k := (len - 1) as real;
    UnitRatio(index, waveCount - 1);
    ScaleUnit(x, k, x * k);
  }

  lemma UnitRatio(i: int, den: int)
    requires den > 0 && 0 <= i <= den
    ensures 0.0 <= i as real / den as real <= 1.0
  {
    var d := den as real;
    var x := i as real / d;
    assert d * x == i as real;
    if x < 0.0 {
      MulStrict(d, x, 0.0);
      assert false;
    }
    if x > 1.0 {
      MulStrict(d, 1.0, x);
      assert false;
    }
  }

  /** y = x * k lies between 0 and k for x in [0, 1], whatever the sign of k. */
  lemma ScaleUnit(x: real, k: real, y: real)
    requires 0.0 <= x <= 1.0 && y == x * k
    ensures Between(y, 0.0, k)
  {
    if k >= 0.0 {
      MulLeRight(k, 0.0, x, 0.0, y);
      MulLeRight(k, x, 1.0, y, k);
    } else {
      MulLeRight(x, k, 0.0, y, 0.0);
      MulLeRight(-k, x, 1.0, -y, -k);
    }
  }

  /** anchors[lower] + (anchors[upper] - anchors[lower]) * mix lies between the two anchors for mix in [0, 1]. */
  lemma MixBetween(a: real, b: real, mix: real)
    requires 0.0 <= mix <= 1.0
    ensures Between(a + (b - a) * mix, a, b)
  {
    var d := b - a;
    ScaleUnit(mix, d, (b - a) * mix);
  }

  // ---------------------------------------------------------------------------
  // Layouts

  /** The layout of wave `index` of `waveCount`; a lone wave takes the default opacity. */
  function LayoutAt(waveCount: int, index: int): WaveLayout
    requires waveCount <= 1 || 0 <= index < waveCount
  {
    WaveLayout(
      SampleAnchor(BASE_Y_ANCHORS, waveCount, index),
      SampleAnchor(AMPLITUDE_ANCHORS, waveCount, index),
      if waveCount == 1 then DEFAULT_OPACITY else SampleAnchor(OPACITY_ANCHORS, waveCount, index),
      SampleAnchor(GRADIENT_STOP_ANCHORS, waveCount, index),
      SampleAnchor(PHASE_OFFSET_ANCHORS, waveCount, index))
  }

  /** buildWaveLayouts: one layout per wave, in order. */
  method BuildWaveLayouts(waveCount: int) returns (layouts: seq<WaveLayout>)
    ensures |layouts| == if waveCount > 0 then waveCount else 0
    ensures forall i :: 0 <= i < |layouts| ==> layouts[i] == LayoutAt(waveCount, i)
  {
    var singleWaveOpacity := DEFAULT_OPACITY;
    layouts := [];
    var index := 0;
    while index < waveCount
      invariant 0 <= index <= if waveCount > 0 then waveCount else 0
      invariant |layouts| == index
      invariant forall i :: 0 <= i < index ==> layouts[i] == LayoutAt(waveCount, i)
    {
      layouts := layouts + [WaveLayout(
        SampleAnchor(BASE_Y_ANCHORS, waveCount, index),
        SampleAnchor(AMPLITUDE_ANCHORS, waveCount, index),
        if waveCount == 1 then singleWaveOpacity else SampleAnchor(OPACITY_ANCHORS, waveCount, index),
        SampleAnchor(GRADIENT_STOP_ANCHORS, waveCount, index),
        SampleAnchor(PHASE_OFFSET_ANCHORS, waveCount, index))];
      index := index + 1;
    }
  }

  // ---------------------------------------------------------------------------
  // Properties

  /** The first wave takes the first anchor and the last wave the last anchor. */
  lemma SampleAnchorEnds(anchors: seq<real>, waveCount: int)
    requires |anchors| >= 1 && waveCount > 1
    ensures SampleAnchor(anchors, waveCount, 0) == anchors[0]
    ensures SampleAnchor(anchors, waveCount, waveCount - 1) == anchors[|anchors| - 1]
  {
    var den := (waveCount - 1) as real;
    assert (waveCount - 1) as real / den == 1.0;
    assert Position(waveCount - 1, waveCount, |anchors|) == (|anchors| - 1) as real;
    assert Position(0, waveCount, |anchors|) == 0.0;
  }

  predicate Increasing(anchors: seq<real>) {
    forall k :: 0 <= k < |anchors| - 1 ==> anchors[k] < anchors[k + 1]
  }

  lemma {:induction false} IncreasingLe(anchors: seq<real>, p: int, q: int)
    requires Increasing(anchors) && 0 <= p <= q < |anchors|
    ensures anchors[p] <= anchors[q]
    decreases q - p
  {
    if p < q {
      IncreasingLe(anchors, p + 1, q);
    }
  }

  /** Inside a gap between two anchors, AnchorAt is the straight line through them. */
  lemma AnchorAtLine(anchors: seq<real>, p: real)
    requires 0.0 <= p <= (|anchors| - 1) as real && p.Floor + 1 < |anchors|
    ensures var f := p.Floor;
      AnchorAt(anchors, p) == anchors[f] + (anchors[f + 1] - anchors[f]) * (p - f as real)
  {
    FloorCeil(p, |anchors| - 1);
    var f := p.Floor;
    if f != Ceil(p) {
      assert Ceil(p) == f + 1;
    } else {
      assert p - f as real == 0.0;
    }
  }

  /** At a position before anchor k + 1, the value is below it. */
  lemma AnchorAtBelow(anchors: seq<real>, p: real)
    requires Increasing(anchors) && 0.0 <= p <= (|anchors| - 1) as real
    requires p.Floor + 1 < |anchors|
    ensures AnchorAt(anchors, p) < anchors[p.Floor + 1]
  {
    FloorCeil(p, |anchors| - 1);
    AnchorAtLine(anchors, p);
    var f := p.Floor;
    var d := anchors[f + 1] - anchors[f];
    assert anchors[f] < anchors[f + 1];
    var mix := p - f as real;
    var y := d * mix;
    assert y < d by { MulStrict(d, mix, 1.0); }
    assert AnchorAt(anchors, p) == anchors[f] + y;
  }

  /** At or after anchor k, the value is at least anchor k. */
  lemma AnchorAtAbove(anchors: seq<real>, p: real)
    requires Increasing(anchors) && 0.0 <= p <= (|anchors| - 1) as real
    ensures anchors[p.Floor] <= AnchorAt(anchors, p)
  {
    FloorCeil(p, |anchors| - 1);
    var f := p.Floor;
    if f + 1 < |anchors| {
      AnchorAtLine(anchors, p);
      var d := anchors[f + 1] - anchors[f];
      assert anchors[f] < anchors[f + 1];
      var y := d * (p - f as real);
      assert 0.0 <= y by { MulLe(d, 0.0, p - f as real); }
      assert AnchorAt(anchors, p) == anchors[f] + y;
    }
  }

  lemma AnchorAtIncreasingInGap(anchors: seq<real>, p: real, q: real)
    requires Increasing(anchors) && 0.0 <= p < q <= (|anchors| - 1) as real
    requires p.Floor == q.Floor && p.Floor + 1 < |anchors|
    ensures AnchorAt(anchors, p) < AnchorAt(anchors, q)
  {
    var f := p.Floor;
    AnchorAtLine(anchors, p);
    AnchorAtLine(anchors, q);
    assert q.Floor == f && anchors[f] < anchors[f + 1];
    var a, d := anchors[f], anchors[f + 1] - anchors[f];
    LineStrict(AnchorAt(anchors, p), AnchorAt(anchors, q), a, d, p - f as real, q - f as real);
  }

  /** u = a + d * x and v = a + d * z with d > 0 grow together: x < z gives u < v. */
  lemma LineStrict(u: real, v: real, a: real, d: real, x: real, z: real)
    requires u == a + d * x && v == a + d * z
    requires d > 0.0 && x < z
    ensures u < v
  {
    MulStrict(d, x, z);
  }

  /** For an increasing table, AnchorAt is strictly increasing in the position. */
  lemma AnchorAtIncreasing(anchors: seq<real>, p: real, q: real)
    requires Increasing(anchors) && 0.0 <= p < q <= (|anchors| - 1) as real
    ensures AnchorAt(anchors, p) < AnchorAt(anchors, q)
  {
    FloorCeil(p, |anchors| - 1);
    FloorCeil(q, |anchors| - 1);
    var fp, fq := p.Floor, q.Floor;
    assert fp + 1 < |anchors|;
    if fp == fq {
      AnchorAtIncreasingInGap(anchors, p, q);
    } else {
      AnchorAtBelow(anchors, p);
      IncreasingLe(anchors, fp + 1, fq);
      AnchorAtAbove(anchors, q);
    }
  }

  /** Later waves sit at strictly later positions. */
  lemma PositionIncreasing(waveCount: int, i: int, j: int, len: nat)
    requires len >= 2 && waveCount > 1 && 0 <= i < j < waveCount
    ensures Position(i, waveCount, len) < Position(j, waveCount, len)
  {
    var den := (waveCount - 1) as real;
    var x, y := i as real / den, j as real / den;
    assert x < y by {
      assert x * den == i as real;
      assert y * den == j as real;
    }
    MulStrict((len - 1) as real, x, y);
  }

  /** For an increasing table, later waves take strictly larger values. */
  lemma SampleAnchorIncreasing(anchors: seq<real>, waveCount: int, i: int, j: int)
    requires |anchors| >= 2 && Increasing(anchors) && waveCount > 1 && 0 <= i < j < waveCount
    ensures SampleAnchor(anchors, waveCount, i) < SampleAnchor(anchors, waveCount, j)
  {
    PositionRange(i, waveCount, |anchors|);
    PositionRange(j, waveCount, |anchors|);
    PositionIncreasing(waveCount, i, j, |anchors|);
    AnchorAtIncreasing(anchors, Position(i, waveCount, |anchors|), Position(j, waveCount, |anchors|));
  }

  /** All tables but the amplitude table increase strictly. */
  lemma TablesIncrease()
    ensures Increasing(BASE_Y_ANCHORS) && Increasing(OPACITY_ANCHORS)
    ensures Increasing(GRADIENT_STOP_ANCHORS) && Increasing(PHASE_OFFSET_ANCHORS)
    ensures !Increasing(AMPLITUDE_ANCHORS)
  {
    assert AMPLITUDE_ANCHORS[2] > AMPLITUDE_ANCHORS[3];
  }

  /** baseYRatio, opacity, gradientStop and phaseOffsetRad strictly increase from back to front. */
  lemma LayoutsIncrease(waveCount: int, i: int, j: int)
    requires waveCount > 1 && 0 <= i < j < waveCount
    ensures LayoutAt(waveCount, i).baseYRatio < LayoutAt(waveCount, j).baseYRatio
    ensures LayoutAt(waveCount, i).opacity < LayoutAt(waveCount, j).opacity
    ensures LayoutAt(waveCount, i).gradientStop < LayoutAt(waveCount, j).gradientStop
    ensures LayoutAt(waveCount, i).phaseOffsetRad < LayoutAt(waveCount, j).phaseOffsetRad
  {
    TablesIncrease();
    SampleAnchorIncreasing(BASE_Y_ANCHORS, waveCount, i, j);
    SampleAnchorIncreasing(OPACITY_ANCHORS, waveCount, i, j);
    SampleAnchorIncreasing(GRADIENT_STOP_ANCHORS, waveCount, i, j);
    SampleAnchorIncreasing(PHASE_OFFSET_ANCHORS, waveCount, i, j);
  }

  /** A lone wave sits on the middle anchors but is drawn at opacity 0.5, not at the middle opacity anchor. */
  lemma SingleWaveLayout()
    ensures LayoutAt(1, 0) == WaveLayout(0.5, 0.15, 0.5, 0.8, PI * 0.7)
    ensures OPACITY_ANCHORS[2] == 0.35
  {
  }

  /** With three waves the back, middle and front waves take anchors 0, 2 and 4. */
  lemma ThreeWaveLayouts()
    ensures LayoutAt(3, 0) == WaveLayout(0.35, 0.12, 0.2, 0.7, PI * 0.0)
    ensures LayoutAt(3, 1) == WaveLayout(0.5, 0.15, 0.35, 0.8, PI * 0.7)
    ensures LayoutAt(3, 2) == WaveLayout(0.65, 0.1, 0.5, 0.9, PI * 1.4)
  {
    SampleAnchorEnds(BASE_Y_ANCHORS, 3);
    SampleAnchorEnds(AMPLITUDE_ANCHORS, 3);
    SampleAnchorEnds(OPACITY_ANCHORS, 3);
    SampleAnchorEnds(GRADIENT_STOP_ANCHORS, 3);
    SampleAnchorEnds(PHASE_OFFSET_ANCHORS, 3);
    MiddleOfThree(BASE_Y_ANCHORS);
    MiddleOfThree(AMPLITUDE_ANCHORS);
    MiddleOfThree(OPACITY_ANCHORS);
    MiddleOfThree(GRADIENT_STOP_ANCHORS);
    MiddleOfThree(PHASE_OFFSET_ANCHORS);
  }

  lemma MiddleOfThree(anchors: seq<real>)
    requires |anchors| == 5
    ensures SampleAnchor(anchors, 3, 1) == anchors[2]
  {
    assert Position(1, 3, 5) == 2.0;
  }

  /** Every layout value lies between the smallest and largest anchor of its table. */
  lemma LayoutRanges(waveCount: int, index: int)
    requires waveCount <= 1 || 0 <= index < waveCount
    ensures var l := LayoutAt(waveCount, index);
      && 0.35 <= l.baseYRatio <= 0.65
      && 0.1 <= l.amplitudeRatio <= 0.15
      && 0.2 <= l.opacity <= 0.5
      && 0.7 <= l.gradientStop <= 0.9
      && 0.0 <= l.phaseOffsetRad <= PI * 1.4
  {
    if waveCount > 1 {
      var p := Position(index, waveCount, 5);
      PositionRange(index, waveCount, 5);
      FloorCeil(p, 4);
      TableRange(BASE_Y_ANCHORS, p.Floor, Ceil(p), 0.35, 0.65);
      TableRange(AMPLITUDE_ANCHORS, p.Floor, Ceil(p), 0.1, 0.15);
      TableRange(OPACITY_ANCHORS, p.Floor, Ceil(p), 0.2, 0.5);
      TableRange(GRADIENT_STOP_ANCHORS, p.Floor, Ceil(p), 0.7, 0.9);
      TableRange(PHASE_OFFSET_ANCHORS, p.Floor, Ceil(p), 0.0, PI * 1.4);
    }
  }

  lemma TableRange(anchors: seq<real>, lo: int, hi: int, min: real, max: real)
    requires 0 <= lo < |anchors| && 0 <= hi < |anchors|
    requires forall k :: 0 <= k < |anchors| ==> min <= anchors[k] <= max
    ensures forall r :: Between(r, anchors[lo], anchors[hi]) ==> min <= r <= max
  {
  }
}
