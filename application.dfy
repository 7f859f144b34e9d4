/** The application: the shared queue, the visualizer and the audio stream,
    the periodic drain of the queue on the UI thread, and the shutdown
    sequence. */
module App {
  import opened Settings
  import opened SpectrumTransform
  import opened BarMapper
  import opened BoundedQueue
  import opened Visualizer
  import opened Audio

  class Application {
    const dataQueue: SpectrumQueue
    const visualizer: SpectrumVisualizer
    const audioStream: AudioStream
    var isRunning: bool

    ghost predicate Valid()
      reads this, dataQueue, visualizer, audioStream
    {
      dataQueue.Valid() && visualizer.Valid() && audioStream.dataQueue == dataQueue
    }

    constructor ()
      ensures Valid() && isRunning && visualizer.isRunning && audioStream.isRunning
      ensures visualizer.canvasAlive && visualizer.received == []
      ensures forall i :: 0 <= i < NUM_BARS ==> visualizer.bars[i] == InitialRect(i)
      ensures dataQueue.items == [] && audioStream.stream == NoStream
      ensures fresh(dataQueue) && fresh(visualizer) && fresh(visualizer.bars) && fresh(audioStream)
    {
      var q := new SpectrumQueue();
      dataQueue := q;
      visualizer := new SpectrumVisualizer();
      audioStream := new AudioStream(q);
      isRunning := true;
    }

    /** One tick of the UI loop. A stopped application does nothing and does
        not reschedule. Otherwise every queued frame is removed in FIFO order
        and handed to the visualizer in that order, leaving the queue empty;
        the tick is rescheduled while the application runs. */
    method ProcessQueue() returns (reschedule: bool)
      requires Valid()
      modifies dataQueue, visualizer, visualizer.bars
      ensures Valid()
      ensures reschedule == isRunning
      ensures !isRunning ==>
        dataQueue.items == old(dataQueue.items) &&
        visualizer.Current() == old(visualizer.Current()) &&
        visualizer.received == old(visualizer.received)
      ensures isRunning ==>
        dataQueue.items == [] &&
        visualizer.received == old(visualizer.received) + old(dataQueue.items) &&
        (forall k :: 0 <= k < |old(dataQueue.items)| ==> Drawable(old(dataQueue.items)[k])) &&
        visualizer.Current() == RenderAll(old(visualizer.Current()), old(dataQueue.items))
    {
      if !isRunning {
        return false;
      }
      ghost var consumed: seq<Frame> := [];
      var empty := dataQueue.Empty();
      while !empty && isRunning
        invariant dataQueue.Valid() && visualizer.Valid()
        invariant empty <==> dataQueue.items == []
        invariant old(dataQueue.items) == consumed + dataQueue.items
        invariant forall k :: 0 <= k < |consumed| ==> Drawable(consumed[k])
        invariant visualizer.received == old(visualizer.received) + consumed
        invariant visualizer.Current() == RenderAll(old(visualizer.Current()), consumed)
        decreases |dataQueue.items|
      {
        var next := dataQueue.GetNowait();
        if next.Some? {
          var frame := next.value;
          SpectrumFrameNonNegative(frame);
          RenderAllSnoc(old(visualizer.Current()), consumed, frame);
          visualizer.UpdateBars(frame);
          consumed := consumed + [frame];
        }
        empty := dataQueue.Empty();
      }
      assert consumed == consumed + dataQueue.items;
      reschedule := isRunning;
    }

    /** The shutdown sequence: the application's own flag, then the
        visualizer's, then the audio stream's; finally the window (and with
        it the canvas) is destroyed. */
    method Stop(fault: DeviceFault)
      requires Valid()
      modifies this, visualizer, audioStream
      ensures Valid()
      ensures !isRunning && !visualizer.isRunning && !audioStream.isRunning
      ensures !visualizer.canvasAlive
      ensures audioStream.stream == Shutdown(old(audioStream.stream), fault)
      ensures dataQueue.items == old(dataQueue.items)
      ensures visualizer.received == old(visualizer.received)
    {
      isRunning := false;
      visualizer.Stop();
      audioStream.Stop(fault);
      visualizer.DestroyCanvas();
    }
  }

  /** Ten silent audio buffers followed by one UI tick: the queue receives
      ten all-zero frames and the tick collapses every bar. */
  method SilenceScenario() returns (bars: seq<Rect>)
    ensures |bars| == NUM_BARS
    ensures forall i :: 0 <= i < NUM_BARS ==> bars[i] == COLLAPSED
  {
    var app := new Application();
    var silence: seq<real> := seq(WINDOW_SIZE / 2 + 1, _ => 0.0);
    var zero := GateFrame(silence);
    SilenceGivesZeroFrame(silence);
    var n := 0;
    while n < 10
      invariant 0 <= n <= 10
      invariant app.Valid() && app.isRunning && app.audioStream.isRunning && app.visualizer.isRunning
      invariant app.visualizer.canvasAlive
      invariant app.dataQueue.items == seq(n, _ => zero)
    {
      app.audioStream.Callback(silence);
      assert seq(n, _ => zero) + [zero] == seq(n + 1, _ => zero);
      n := n + 1;
    }
    ghost var queued := app.dataQueue.items;
    ghost var before := app.visualizer.Current();
    var reschedule := app.ProcessQueue();
    assert forall k :: 0 <= k < |queued| ==> Drawable(queued[k]);
    LastFrameShown(before, queued);
    bars := app.visualizer.bars[..];
  }
}
