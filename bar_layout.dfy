/** Geometry of the spectrum bars that the visualizer draws each frame, over
    exact reals. Every frequency bin becomes one bar, laid out left to right. */
module BarLayout {

  /** One unsigned byte magnitude of the frequency data. */
  newtype byte = x: int | 0 <= x < 256

  /** One bar of the spectrum: its left edge, its width and its height. */
  datatype Bar = Bar(x: real, width: real, height: real)

  /** Width of every bar: the surface width shared out over the bins, times 2.5. */
  function BarWidth(width: nat, n: nat): (w: real)
    requires n > 0
    ensures w >= 0.0
    ensures w * (n as real) == 2.5 * (width as real)
  {
    (width as real / n as real) * 2.5
  }

  /** Height of the bar for a byte magnitude: linear in the value, full
      surface height at 255. */
  function BarHeight(value: byte, height: nat): (h: real)
    ensures h * 255.0 == (value as real) * (height as real)
    ensures 0.0 <= h <= height as real
    ensures value == 0 ==> h == 0.0
    ensures value == 255 ==> h == height as real
  {
    ScaleByte(value as real, height as real);
    value as real / 255.0 * (height as real)
  }

  /** Scaling a non-negative length `h` by `v / 255`, for `v` in [0, 255],
      stays within `h`, and a factor 255 undoes the division. */
  lemma ScaleByte(v: real, h: real)
    requires 0.0 <= v <= 255.0 && h >= 0.0
    ensures 0.0 <= v / 255.0 * h <= h
    ensures (v / 255.0 * h) * 255.0 == v * h
  {
    var f := v / 255.0;
    assert f * 255.0 == v;
    assert h - f * h == (1.0 - f) * h;
    assert (f * h) * 255.0 == (f * 255.0) * h;
  }

  /** A larger magnitude never gives a shorter bar. */
  lemma BarHeightMonotone(v: byte, w: byte, height: nat)
    requires v <= w
    ensures BarHeight(v, height) <= BarHeight(w, height)
  {
    var d := (w as real - v as real) / 255.0;
    assert d >= 0.0;
    assert BarHeight(w, height) - BarHeight(v, height) == d * (height as real);
  }

  /** Left edge of bar `i`, as the draw loop accumulates it: 0 for the first
      bar, then one bar width and a one-unit gap per earlier bar. */
  function BarLeft(i: nat, barWidth: real): (x: real)
    ensures barWidth >= 0.0 ==> x >= i as real
  {
    if i == 0 then 0.0 else BarLeft(i - 1, barWidth) + barWidth + 1.0
  }

  /** Bar `i` starts at `i * (barWidth + 1)`. */
  lemma {:induction false} BarLeftClosedForm(i: nat, barWidth: real)
    ensures BarLeft(i, barWidth) == (i as real) * (barWidth + 1.0)
  {
    if i > 0 {
      BarLeftClosedForm(i - 1, barWidth);
      assert (i as real) * (barWidth + 1.0) == ((i - 1) as real) * (barWidth + 1.0) + barWidth + 1.0;
    }
  }

  /** Bars further right start further right, and each bar ends at least one
      unit before the next one starts. */
  lemma BarLeftGap(i: nat, j: nat, barWidth: real)
    requires i < j && barWidth >= 0.0
    ensures BarLeft(i, barWidth) + barWidth + 1.0 <= BarLeft(j, barWidth)
    ensures BarLeft(i, barWidth) < BarLeft(j, barWidth)
  {
    BarLeftClosedForm(i, barWidth);
    BarLeftClosedForm(j, barWidth);
    var k := (j - i) as real;
    assert k >= 1.0;
    assert BarLeft(j, barWidth) - BarLeft(i, barWidth) == k * (barWidth + 1.0);
    assert k * (barWidth + 1.0) >= 1.0 * (barWidth + 1.0);
  }

  /** The first `i` bars of a frame whose bars are `w` wide, in the order the
      draw loop emits them. */
  function Bars(samples: seq<byte>, i: nat, w: real, height: nat): (bars: seq<Bar>)
    requires i <= |samples|
    ensures |bars| == i
  {
    if i == 0 then []
    else Bars(samples, i - 1, w, height) + [Bar(BarLeft(i - 1, w), w, BarHeight(samples[i - 1], height))]
  }

  /** Bar `k` starts at the `k`-th left edge and is as tall as bin `k` asks. */
  lemma {:induction false} BarsAt(samples: seq<byte>, i: nat, w: real, height: nat, k: nat)
    requires k < i <= |samples|
    ensures Bars(samples, i, w, height)[k] == Bar(BarLeft(k, w), w, BarHeight(samples[k], height))
  {
    if k < i - 1 {
      BarsAt(samples, i - 1, w, height, k);
    }
  }

  /** The bars one frame draws for `samples` on a surface of the given size. */
  function Layout(samples: seq<byte>, width: nat, height: nat): (bars: seq<Bar>)
    ensures |bars| == |samples|
  {
    if |samples| == 0 then [] else Bars(samples, |samples|, BarWidth(width, |samples|), height)
  }

  /** Bar `k` of a frame: left edge `k * (w + 1)`, the common width `w`, and
      the height for bin `k`. */
  lemma LayoutAt(samples: seq<byte>, width: nat, height: nat, k: nat)
    requires k < |samples|
    ensures var w := BarWidth(width, |samples|);
      Layout(samples, width, height)[k] == Bar(BarLeft(k, w), w, BarHeight(samples[k], height))
  {
    BarsAt(samples, |samples|, BarWidth(width, |samples|), height, k);
  }

  /** Every bar of a frame fits between the top of the surface and its full
      height, all bars share one width, and bars are disjoint and ordered left
      to right with a one-unit gap. */
  lemma LayoutShape(samples: seq<byte>, width: nat, height: nat)
    ensures var bars := Layout(samples, width, height);
      (forall i :: 0 <= i < |bars| ==> 0.0 <= bars[i].height <= height as real) &&
      (forall i :: 0 <= i < |bars| ==> bars[i].width == BarWidth(width, |samples|)) &&
      (forall i, j :: 0 <= i < j < |bars| ==> bars[i].x + bars[i].width + 1.0 <= bars[j].x)
  {
    var bars := Layout(samples, width, height);
    forall i | 0 <= i < |bars|
      ensures 0.0 <= bars[i].height <= height as real && bars[i].width == BarWidth(width, |samples|)
    {
      LayoutAt(samples, width, height, i);
    }
    forall i, j | 0 <= i < j < |bars| ensures bars[i].x + bars[i].width + 1.0 <= bars[j].x {
      LayoutAt(samples, width, height, i);
      LayoutAt(samples, width, height, j);
      BarLeftGap(i, j, BarWidth(width, |samples|));
    }
  }

  /** A louder bin never gives a shorter bar than a quieter one in the same frame. */
  lemma LayoutHeightsFollowSamples(samples: seq<byte>, width: nat, height: nat, i: nat, j: nat)
    requires i < |samples| && j < |samples| && samples[i] <= samples[j]
    ensures Layout(samples, width, height)[i].height <= Layout(samples, width, height)[j].height
  {
    LayoutAt(samples, width, height, i);
    LayoutAt(samples, width, height, j);
    BarHeightMonotone(samples[i], samples[j], height);
  }

  /** The layout is not fitted to the surface: the last bar ends at 2.5 times
      the surface width plus one unit per gap, so the bars overrun the surface. */
  lemma LayoutSpan(samples: seq<byte>, width: nat, height: nat)
    requires |samples| > 0
    ensures var last := Layout(samples, width, height)[|samples| - 1];
      last.x + last.width == 2.5 * (width as real) + (|samples| - 1) as real
  {
    LayoutAt(samples, width, height, |samples| - 1);
    LastBarEnd(|samples|, width);
  }

  /** Where the last of `n` bars ends: the `n` bar widths cover 2.5 times the
      surface width, and the `n - 1` gaps add one unit each. */
  lemma LastBarEnd(n: nat, width: nat)
    requires n > 0
    ensures BarLeft(n - 1, BarWidth(width, n)) + BarWidth(width, n) == 2.5 * (width as real) + (n - 1) as real
  {
    var w := BarWidth(width, n);
    var m := (n - 1) as real;
    BarLeftClosedForm(n - 1, w);
    assert w * (n as real) == w * m + w;
  }

  /** The draw loop: walks the bins in order, accumulating the left edge `x`. */
  method LayoutBars(samples: seq<byte>, width: nat, height: nat) returns (bars: seq<Bar>)
    ensures bars == Layout(samples, width, height)
  {
    // with no bins the loop below draws nothing and the width is never used
    var barWidth := if |samples| > 0 then BarWidth(width, |samples|) else 0.0;
    var x := 0.0;
    bars := [];
    var i := 0;
    while i < |samples|
      invariant 0 <= i <= |samples|
      invariant x == BarLeft(i, barWidth)
      invariant bars == Bars(samples, i, barWidth, height)
    {
      var barHeight := BarHeight(samples[i], height);
      bars := bars + [Bar(x, barWidth, barHeight)];
      x := x + barWidth + 1.0;
      i := i + 1;
    }
  }
}
