/** Mapping of one gated frame to bar heights and rectangles: per-frame
    peak normalisation into [0, MAX_HEIGHT], clipping, and the fixed
    horizontal layout of the bars. */
module BarMapper {
  import opened Settings
  import opened SpectrumTransform

  /** The on-canvas coordinates of one bar: (x0, y0) top left, (x1, y1)
      bottom right; y grows downward from the top of the canvas. */
  datatype Rect = Rect(x0: int, y0: real, x1: int, y1: real)

  /** The largest value of a non-empty frame. */
  function Peak(s: seq<real>): (m: real)
    requires |s| > 0
    ensures forall i :: 0 <= i < |s| ==> s[i] <= m
    ensures exists i :: 0 <= i < |s| && s[i] == m
  {
    if |s| == 1 then s[0]
    else
      var rest := Peak(s[1..]);
      assert forall i :: 1 <= i < |s| ==> s[i] == s[1..][i - 1];
      if s[0] >= rest then s[0] else rest
  }

  /** One-dimensional linear interpolation of x against the points
      (0, 0) and (peak, MAX_HEIGHT), constant beyond both ends. */
  function Interp(x: real, peak: real): (y: real)
    requires peak > 0.0
    ensures 0.0 <= y <= MAX_HEIGHT as real
    ensures 0.0 <= x <= peak ==> y == x * (MAX_HEIGHT as real) / peak
  {
    if x <= 0.0 then 0.0
    else if x >= peak then MAX_HEIGHT as real
    else
      ScaleBelowFull(x, peak);
      x * (MAX_HEIGHT as real) / peak
  }

  lemma ScaleBelowFull(x: real, peak: real)
    requires 0.0 <= x < peak
    ensures 0.0 <= x * (MAX_HEIGHT as real) / peak < MAX_HEIGHT as real
  {
    assert x * (MAX_HEIGHT as real) < peak * (MAX_HEIGHT as real);
  }

  /** Clamping into [0, MAX_HEIGHT]. */
  function Clip(y: real): (c: real)
    ensures 0.0 <= c <= MAX_HEIGHT as real
    ensures 0.0 <= y <= MAX_HEIGHT as real ==> c == y
  {
    if y < 0.0 then 0.0 else if y > MAX_HEIGHT as real then MAX_HEIGHT as real else y
  }

  /** The frames update_bars accepts: one non-negative value per bar. */
  ghost predicate Drawable(f: seq<real>)
  {
    |f| == NUM_BARS && NonNegative(f)
  }

  /** Scaled, clipped bar heights of a frame that is not all zero. */
  function Heights(f: seq<real>): (h: seq<real>)
    requires Drawable(f) && !AllZero(f)
    ensures |h| == |f|
    ensures forall i :: 0 <= i < |h| ==> 0.0 <= h[i] <= MAX_HEIGHT as real
  {
    PeakPositive(f);
    var peak := Peak(f);
    seq(|f|, i requires 0 <= i < |f| => Clip(Interp(f[i], peak)))
  }

  lemma PeakPositive(f: seq<real>)
    requires Drawable(f) && !AllZero(f)
    ensures Peak(f) > 0.0
  {
    var k :| 0 <= k < |f| && f[k] != 0.0;
    assert f[k] <= Peak(f);
  }

  /** Each height is the value rescaled against the frame's own peak. */
  lemma HeightsProportional(f: seq<real>, i: int)
    requires Drawable(f) && !AllZero(f) && 0 <= i < |f|
    ensures Peak(f) > 0.0
    ensures Heights(f)[i] == f[i] * (MAX_HEIGHT as real) / Peak(f)
  {
    PeakPositive(f);
    var peak := Peak(f);
    assert 0.0 <= f[i] <= peak;
    ScaleBelowFullOrAt(f[i], peak);
  }

  lemma ScaleBelowFullOrAt(x: real, peak: real)
    requires 0.0 <= x <= peak && peak > 0.0
    ensures 0.0 <= x * (MAX_HEIGHT as real) / peak <= MAX_HEIGHT as real
  {
    if x < peak {
      ScaleBelowFull(x, peak);
    } else {
      assert x * (MAX_HEIGHT as real) / peak == MAX_HEIGHT as real;
    }
  }

  /** A bar reaches full scale exactly when its bin is the frame's peak. */
  lemma FullScaleIffPeak(f: seq<real>, i: int)
    requires Drawable(f) && !AllZero(f) && 0 <= i < |f|
    ensures Heights(f)[i] == MAX_HEIGHT as real <==> f[i] == Peak(f)
  {
    PeakPositive(f);
    var peak := Peak(f);
    if f[i] < peak {
      ScaleBelowFull(f[i], peak);
    }
  }

  /** Some bar of a non-zero frame is always at full scale. */
  lemma SomeBarFull(f: seq<real>)
    requires Drawable(f) && !AllZero(f)
    ensures exists i :: 0 <= i < |f| && Heights(f)[i] == MAX_HEIGHT as real
  {
    var k :| 0 <= k < |f| && f[k] == Peak(f);
    FullScaleIffPeak(f, k);
  }

  /** Rescaling preserves the order of the values, strictly. */
  lemma HeightsMonotone(f: seq<real>, i: int, j: int)
    requires Drawable(f) && !AllZero(f) && 0 <= i < |f| && 0 <= j < |f|
    ensures f[i] < f[j] <==> Heights(f)[i] < Heights(f)[j]
    ensures f[i] == f[j] <==> Heights(f)[i] == Heights(f)[j]
  {
    PeakPositive(f);
    var peak := Peak(f);
    HeightsProportional(f, i);
    HeightsProportional(f, j);
    MulDivStrict(f[i], f[j], peak);
    MulDivStrict(f[j], f[i], peak);
  }

  lemma MulDivStrict(a: real, b: real, peak: real)
    requires peak > 0.0
    ensures a < b <==> a * (MAX_HEIGHT as real) / peak < b * (MAX_HEIGHT as real) / peak
  {
    var c := (MAX_HEIGHT as real) / peak;
    assert c > 0.0;
    assert a * (MAX_HEIGHT as real) / peak == a * c;
    assert b * (MAX_HEIGHT as real) / peak == b * c;
    if a < b {
      assert a * c < b * c;
    } else {
      assert b * c <= a * c;
    }
  }

  /** Left edge of bar i. */
  function BarX0(i: int): (x: int)
    ensures x == 13 * i
  {
    i * BAR_WIDTH
  }

  /** Right edge of bar i, as update_bars computes it. */
  function BarX1(i: int): (x: int)
    ensures x == BarX0(i) + 11
    ensures BarX0(i + 1) - x == BAR_GAP
  {
    (i + 1) * BAR_WIDTH - BAR_GAP
  }

  /** The rectangle of bar i when the window is created: collapsed on the
      bottom edge, its right edge computed from its left edge. */
  function InitialRect(i: int): (r: Rect)
    ensures r.y0 == r.y1 == MAX_HEIGHT as real
  {
    var x0 := i * BAR_WIDTH;
    Rect(x0, MAX_HEIGHT as real, x0 + BAR_WIDTH - BAR_GAP, MAX_HEIGHT as real)
  }

  /** The rectangle every bar takes for an all-zero frame. */
  const COLLAPSED := Rect(0, 0.0, 0, 0.0)

  /** Bar rectangles for a frame that is not all zero: each spans its own
      column and rises from the bottom edge by its height. */
  function BarsFor(f: seq<real>): (bars: seq<Rect>)
    requires Drawable(f) && !AllZero(f)
    ensures |bars| == NUM_BARS
    ensures forall i :: 0 <= i < NUM_BARS ==>
      bars[i].x0 == BarX0(i) && bars[i].x1 == BarX1(i) &&
      bars[i].y1 == MAX_HEIGHT as real &&
      0.0 <= bars[i].y0 <= MAX_HEIGHT as real &&
      bars[i].y1 - bars[i].y0 == Heights(f)[i]
  {
    var h := Heights(f);
    seq(NUM_BARS, i requires 0 <= i < NUM_BARS =>
      Rect(BarX0(i), MAX_HEIGHT as real - h[i], BarX1(i), MAX_HEIGHT as real))
  }

  /** What a frame shows: every bar collapsed for silence, the scaled
      rectangles otherwise. */
  function Shown(f: seq<real>): (bars: seq<Rect>)
    requires Drawable(f)
    ensures |bars| == NUM_BARS
    ensures AllZero(f) ==> forall i :: 0 <= i < NUM_BARS ==> bars[i] == COLLAPSED
    ensures !AllZero(f) ==> bars == BarsFor(f)
  {
    if AllZero(f) then seq(NUM_BARS, _ => COLLAPSED) else BarsFor(f)
  }

  /** The bar of the peak bin has its top on the top edge of the canvas. */
  lemma PeakBarTouchesTop(f: seq<real>, i: int)
    requires Drawable(f) && !AllZero(f) && 0 <= i < NUM_BARS
    requires f[i] == Peak(f)
    ensures BarsFor(f)[i].y0 == 0.0
  {
    FullScaleIffPeak(f, i);
  }

  /** The layout: 13 pixels per bar, 11 of them drawn, and a 2-pixel gap
      before the next bar, so neighbouring bars never overlap. */
  lemma Layout(i: int, f: seq<real>)
    requires 0 <= i < NUM_BARS && Drawable(f) && !AllZero(f)
    ensures BAR_WIDTH == 13
    ensures BarX0(i) == 13 * i && BarX1(i) == 13 * i + 11
    ensures InitialRect(i).x0 == BarX0(i) && InitialRect(i).x1 == BarX1(i)
    ensures BarsFor(f)[i].x0 == BarX0(i) && BarsFor(f)[i].x1 == BarX1(i)
    ensures BarX0(i) < BarX1(i)
    ensures i + 1 < NUM_BARS ==> BarX0(i + 1) - BarX1(i) == BAR_GAP
    ensures 0 <= BarX0(i) && BarX1(i) <= LAYOUT_WIDTH
  {
  }

  /** Bars are laid out over 800 pixels but the canvas is 750 wide: the
      last bars are drawn (partly) outside the visible area. */
  lemma LayoutExceedsCanvas()
    ensures BarX1(NUM_BARS - 1) == 778 > CANVAS_WIDTH
    ensures BarX0(NUM_BARS - 3) < CANVAS_WIDTH < BarX1(NUM_BARS - 3)
  {
  }

  /** A frame with a single non-zero bin (a pure tone) shows that bar at
      full height and every other bar at height zero. */
  lemma SingleToneFrame(f: seq<real>, k: int)
    requires Drawable(f) && 0 <= k < |f| && f[k] > 0.0
    requires forall i :: 0 <= i < |f| && i != k ==> f[i] == 0.0
    ensures !AllZero(f)
    ensures Heights(f)[k] == MAX_HEIGHT as real
    ensures forall i :: 0 <= i < |f| && i != k ==> Heights(f)[i] == 0.0
  {
    assert f[k] != 0.0;
    var peak := Peak(f);
    assert peak == f[k];
    FullScaleIffPeak(f, k);
    forall i | 0 <= i < |f| && i != k ensures Heights(f)[i] == 0.0 {
      HeightsProportional(f, i);
    }
  }
}
