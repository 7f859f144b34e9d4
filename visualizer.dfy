/** The spectrum visualizer: one rectangle per bar on the canvas, redrawn
    in place for every frame, and the visualizer's running flag. */
module Visualizer {
  import opened Settings
  import opened SpectrumTransform
  import opened BarMapper

  /** The observable state of the visualizer: the bar rectangles, its running
      flag, and whether the canvas still exists (a destroyed canvas makes every
      coordinate update fail). */
  datatype View = View(bars: seq<Rect>, running: bool, canvasAlive: bool)

  /** The effect of update_bars on the view. A stopped visualizer does
      nothing. Silence collapses every bar; if the canvas is gone the update
      fails and returns with the flag untouched. Otherwise the bars are
      redrawn; if the canvas is gone that failure stops the visualizer. */
  function Render(v: View, f: Frame): (r: View)
    requires Drawable(f)
    ensures r.running ==> v.running
    ensures r.canvasAlive == v.canvasAlive
    ensures r.bars == v.bars || r.bars == Shown(f)
    ensures v.running && v.canvasAlive ==> r.running && r.bars == Shown(f)
  {
    if !v.running then v
    else if AllZero(f) then
      if v.canvasAlive then v.(bars := Shown(f)) else v
    else if v.canvasAlive then v.(bars := Shown(f))
    else v.(running := false)
  }

  /** Frames rendered one after another, in order. */
  function RenderAll(v: View, fs: seq<Frame>): (r: View)
    requires forall k :: 0 <= k < |fs| ==> Drawable(fs[k])
    ensures r.running ==> v.running
    ensures r.canvasAlive == v.canvasAlive
    decreases |fs|
  {
    if fs == [] then v else RenderAll(Render(v, fs[0]), fs[1..])
  }

  /** Rendering one more frame after a batch. */
  lemma {:induction false} RenderAllSnoc(v: View, fs: seq<Frame>, f: Frame)
    requires forall k :: 0 <= k < |fs| ==> Drawable(fs[k])
    requires Drawable(f)
    ensures forall k :: 0 <= k < |fs + [f]| ==> Drawable((fs + [f])[k])
    ensures RenderAll(v, fs + [f]) == Render(RenderAll(v, fs), f)
    decreases |fs|
  {
    assert forall k :: 0 <= k < |fs + [f]| ==> Drawable((fs + [f])[k]) by {
      forall k | 0 <= k < |fs + [f]| ensures Drawable((fs + [f])[k]) {
        if k < |fs| { assert (fs + [f])[k] == fs[k]; }
      }
    }
    if fs == [] {
      assert [] + [f] == [f];
    } else {
      assert (fs + [f])[1..] == fs[1..] + [f];
      RenderAllSnoc(Render(v, fs[0]), fs[1..], f);
    }
  }

  /** The flag only ever goes from running to stopped. */
  lemma RenderNeverRestarts(v: View, f: Frame)
    requires Drawable(f)
    ensures Render(v, f).running ==> v.running
    ensures Render(v, f).canvasAlive == v.canvasAlive
    ensures !v.running ==> Render(v, f) == v
  {
  }

  /** A dead canvas fails on a non-zero frame, stopping the visualizer;
      on an all-zero frame the failure leaves the visualizer running. */
  lemma CanvasGoneOutcome(v: View, f: Frame)
    requires Drawable(f) && v.running && !v.canvasAlive
    ensures Render(v, f).bars == v.bars
    ensures Render(v, f).running <==> AllZero(f)
  {
  }

  /** A visualizer that is stopped stays as it is, whatever is rendered. */
  lemma {:induction false} RenderAllStopped(v: View, fs: seq<Frame>)
    requires forall k :: 0 <= k < |fs| ==> Drawable(fs[k])
    requires !v.running
    ensures RenderAll(v, fs) == v
    decreases |fs|
  {
    if fs != [] {
      RenderAllStopped(Render(v, fs[0]), fs[1..]);
    }
  }

  /** With a live canvas every frame redraws every bar, so after a batch of
      frames the canvas shows the last one and the visualizer still runs. */
  lemma {:induction false} LastFrameShown(v: View, fs: seq<Frame>)
    requires forall k :: 0 <= k < |fs| ==> Drawable(fs[k])
    requires v.running && v.canvasAlive && fs != []
    ensures RenderAll(v, fs).running && RenderAll(v, fs).canvasAlive
    ensures RenderAll(v, fs).bars == Shown(fs[|fs| - 1])
    decreases |fs|
  {
    var v' := Render(v, fs[0]);
    assert v'.running && v'.canvasAlive && v'.bars == Shown(fs[0]);
    assert RenderAll(v, fs) == RenderAll(v', fs[1..]);
    if |fs| == 1 {
      assert fs[1..] == [];
    } else {
      LastFrameShown(v', fs[1..]);
      assert fs[1..][|fs[1..]| - 1] == fs[|fs| - 1];
    }
  }

  class SpectrumVisualizer {
    /** The coordinates of the bar rectangles, bar i at index i. */
    const bars: array<Rect>
    var isRunning: bool
    var canvasAlive: bool
    /** Every frame handed to UpdateBars, in order. */
    ghost var received: seq<Frame>

    ghost predicate Valid()
      reads this
    {
      bars.Length == NUM_BARS
    }

    ghost function Current(): View
      reads this, bars
    {
      View(bars[..], isRunning, canvasAlive)
    }

    /** A running visualizer whose bars sit collapsed on the bottom edge,
        bar i over columns 13i to 13i + 11. */
    constructor ()
      ensures Valid() && fresh(bars)
      ensures isRunning && canvasAlive && received == []
      ensures forall i :: 0 <= i < NUM_BARS ==> bars[i] == InitialRect(i)
    {
      var a := new Rect[NUM_BARS];
      for i := 0 to NUM_BARS
        invariant forall k :: 0 <= k < i ==> a[k] == InitialRect(k)
      {
        a[i] := InitialRect(i);
      }
      bars := a;
      isRunning := true;
      canvasAlive := true;
      received := [];
    }

    /** Redraws the bars of a frame; a dead canvas raises at the first
        coordinate update (a TclError). Silence collapses the bars and a
        failure just returns; a failure on a non-zero frame stops the
        visualizer. */
    method UpdateBars(f: Frame)
      requires Valid() && Drawable(f)
      modifies this, bars
      ensures Valid()
      ensures Current() == Render(old(Current()), f)
      ensures received == old(received) + [f]
    {
      received := received + [f];
      if !isRunning {
        return;
      }
      if AllZero(f) {
        if !canvasAlive {
          return;
        }
        CollapseAll(f);
        return;
      }
      if !canvasAlive {
        isRunning := false;
        return;
      }
      DrawScaled(f);
    }

    /** Every bar moved to (0, 0, 0, 0), one at a time. */
    method CollapseAll(f: Frame)
      requires Valid() && Drawable(f) && AllZero(f)
      modifies bars
      ensures bars[..] == Shown(f)
    {
      for i := 0 to bars.Length
        invariant forall k :: 0 <= k < i ==> bars[k] == COLLAPSED
      {
        bars[i] := COLLAPSED;
      }
    }

    /** Every bar moved to its scaled rectangle, one at a time. */
    method DrawScaled(f: Frame)
      requires Valid() && Drawable(f) && !AllZero(f)
      modifies bars
      ensures bars[..] == Shown(f)
    {
      var heights := Heights(f);
      ghost var target := BarsFor(f);
      for i := 0 to bars.Length
        invariant forall k :: 0 <= k < i ==> bars[k] == target[k]
      {
        bars[i] := Rect(BarX0(i), MAX_HEIGHT as real - heights[i], BarX1(i), MAX_HEIGHT as real);
      }
    }

    method Stop()
      modifies this
      ensures !isRunning
      ensures canvasAlive == old(canvasAlive) && received == old(received)
    {
      isRunning := false;
    }

    /** The window is destroyed: from now on every canvas update fails. */
    method DestroyCanvas()
      modifies this
      ensures !canvasAlive
      ensures isRunning == old(isRunning) && received == old(received)
    {
      canvasAlive := false;
    }
  }
}
