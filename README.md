# Spectrum: a verified model of the audio-to-bars pipeline

This project models the core of a live audio spectrum visualizer
(`main.py`). An audio callback turns each buffer's magnitude spectrum into a
gated frame of 60 values. It offers the frame to a queue that holds at most
100 frames and drops new frames when full. A UI tick drains the queue in
FIFO order. Each frame redraws 60 bar rectangles, rescaled against the
frame's own peak into [0, 400]. Three `is_running` flags (visualizer, audio
stream, application) gate the work and only ever go from true to false.

Modules, one per component of `main.py`:

- `Settings`: the constants (60 bars, threshold 0.05, capacity 100, height
  400, an 800-pixel layout, 800 // 60 = 13 pixels per bar, a 2-pixel gap).
- `SpectrumTransform`: the noise gate and truncation of the callback.
- `BarMapper`: peak, interpolation, clipping, heights and bar rectangles.
- `BoundedQueue`: the bounded queue, as a class over a `seq`, with the
  put/drop specification `Offer` and lemmas about repeated puts.
- `Visualizer`: the canvas as an `array<Rect>` redrawn in place by
  `UpdateBars`, specified by the function `Render` on a `View` value.
- `Audio`: the stream life cycle, the callback and `AudioStream.Stop`.
- `App`: the application, its draining tick `ProcessQueue` and `Stop`.

Magnitudes are Dafny `real`s. The FFT magnitudes (`np.abs(np.fft.rfft(...))`)
are an input `seq<real>` of at least 60 bins (a window of 1024 samples gives
513). A Tk `TclError` is modelled as the canvas being gone: the field
`canvasAlive` of the visualizer, cleared when the application destroys its
window. The only device behaviour modelled is a fault parameter
(`DeviceFault`) saying which device call raises while the stream is shut
down, and a flag saying whether the device could be opened.

A reader might expect one shared running flag, a single "pop all" drain, and
a dead canvas that always stops the visualizer. The code does otherwise, and
the model follows the code:
- There are three running flags, one per class.
- A dead canvas stops the visualizer only on a non-zero frame (main.py:75-77).
  On an all-zero frame, update_bars just returns (main.py:62-63).
- The queue is drained one `get_nowait` at a time, guarded by `empty()`.

## Model

| member | source | states |
|---|---|---|
| `SpectrumTransform.Gate` | main.py:104 | a gated value is 0 or strictly above 0.05; it is above the threshold exactly when the input is; a non-zero result is the input unchanged |
| `SpectrumTransform.GateBoundary` | main.py:104 | a value equal to the threshold becomes 0; values above it pass unchanged; values at or below it become 0 |
| `SpectrumTransform.GateIdempotent` | main.py:104 | gating twice equals gating once, for one value and for a whole frame |
| `SpectrumTransform.GateFrame` | main.py:103-104 | the frame has min(bins, 60) elements, each the gate of the bin at the same index, all gated and non-negative |
| `SpectrumTransform.GateFrameShape` | main.py:102-104 | with at least 60 bins the frame has exactly 60 gated non-negative values and depends only on the first 60 bins |
| `SpectrumTransform.SilenceGivesZeroFrame` | main.py:102-104 | all-zero low bins give an all-zero frame of 60 values |
| `SpectrumTransform.ZeroFrameIff` | main.py:103-104 | the frame is all zero exactly when no kept bin exceeds the threshold |
| `SpectrumTransform.SpectrumFrameNonNegative` | main.py:104 | every gated frame is non-negative |
| `BarMapper.Peak` | main.py:67 | `max(spectrum)`: no element exceeds it and some element equals it |
| `BarMapper.PeakPositive` | main.py:58-67 | a non-negative frame that is not all zero has a strictly positive peak, so the interpolation range is never degenerate |
| `BarMapper.Interp` | main.py:67 | interpolation against (0, 0)-(peak, 400) lies in [0, 400] and equals v·400/peak for v in [0, peak] |
| `BarMapper.Clip` | main.py:68 | the clipped value lies in [0, 400] and is unchanged if already there |
| `BarMapper.Heights` | main.py:67-68 | one height per bin, each in [0, 400] |
| `BarMapper.HeightsProportional` | main.py:67-68 | each height is the bin's value times 400 divided by the frame's peak |
| `BarMapper.FullScaleIffPeak` | main.py:67-68 | a bar has height 400 if and only if its bin is the peak |
| `BarMapper.SomeBarFull` | main.py:67-68 | every non-zero frame has some bar at full height |
| `BarMapper.HeightsMonotone` | main.py:67-68 | a strictly larger value gives a strictly taller bar and equal values equal bars, both directions |
| `BarMapper.SingleToneFrame` | main.py:67-68 | a frame with one positive bin shows that bar at 400 and all others at 0 |
| `BarMapper.InitialRect` | main.py:44-48 | a freshly created bar is collapsed on the bottom edge (y0 = y1 = 400) |
| `BarMapper.BarX0` | main.py:72 | the left edge of bar i is 13i |
| `BarMapper.BarX1` | main.py:73 | the right edge of bar i is 11 pixels right of its left edge and 2 pixels left of the next bar's |
| `BarMapper.Layout` | main.py:44-47 | bar i spans x 13i to 13i + 11, both in the created rectangle and in every redrawn one; neighbours leave a 2-pixel gap; all bars fit in 800 pixels |
| `BarMapper.LayoutExceedsCanvas` | main.py:36 | the last bar ends at x = 778, past the 750-pixel canvas; bar 57 straddles its right edge |
| `BarMapper.BarsFor` | main.py:70-74 | 60 rectangles; bar i is (BarX0(i), 400 − h, BarX1(i), 400), h the bar's scaled height in [0, 400] |
| `BarMapper.PeakBarTouchesTop` | main.py:71-74 | the peak bin's bar has its top at y = 0 |
| `BarMapper.Shown` | main.py:58-74 | 60 rectangles; for an all-zero frame every one is (0, 0, 0, 0), otherwise they are `BarsFor` of the frame |
| `BoundedQueue.Offer` | main.py:105-107 | a put keeps the queued frames as a prefix; it adds exactly one frame, at the tail, if and only if fewer than 100 are queued; occupancy never exceeds 100 |
| `BoundedQueue.OfferAll` | main.py:105-107 | repeated puts keep the original frames as a prefix, every offered frame is either retained or counted as dropped, and occupancy stays within 100 |
| `BoundedQueue.OfferAllKeepsOldest` | main.py:105-107 | offering frames one by one keeps the oldest ones that fit, in order, and drops exactly the overflow |
| `BoundedQueue.OverflowScenario` | main.py:123 | 150 frames offered to an empty queue of capacity 100: the first 100 are kept in order and 50 are dropped |
| `BoundedQueue.SpectrumQueue.constructor` | main.py:123 | the queue starts empty |
| `BoundedQueue.SpectrumQueue.Empty` | main.py:142 | true exactly when no frame is queued |
| `BoundedQueue.SpectrumQueue.PutNowait` | main.py:105-107 | appends at the tail when fewer than 100 frames are queued, otherwise drops the frame and leaves the queue unchanged; reports which |
| `BoundedQueue.SpectrumQueue.GetNowait` | main.py:143-146 | removes and returns the oldest frame; on an empty queue returns None and changes nothing |
| `Visualizer.Render` | main.py:51-77 | one update never raises the flag or revives the canvas; the bars either stay as they were or show the frame; with a live canvas a running visualizer shows the frame and keeps running |
| `Visualizer.RenderAll` | main.py:142-144 | updates applied in order never raise the flag or change whether the canvas exists |
| `Visualizer.RenderNeverRestarts` | main.py:51-77 | one update never sets the flag back to true, never revives the canvas, and does nothing when stopped |
| `Visualizer.CanvasGoneOutcome` | main.py:58-77 | with the canvas gone the bars stay as they are, and the visualizer stays running exactly when the frame was all zero |
| `Visualizer.RenderAllStopped` | main.py:52-53 | a stopped visualizer is unchanged by any sequence of frames |
| `Visualizer.LastFrameShown` | main.py:142-144 | with a live canvas, after a batch of frames the bars show the last frame and the visualizer still runs |
| `Visualizer.SpectrumVisualizer.constructor` | main.py:43-49 | the visualizer starts running with 60 bars, bar i collapsed at y = 400 over its own column |
| `Visualizer.SpectrumVisualizer.UpdateBars` | main.py:51-77 | the new bars and flag are `Render` of the old view and the frame; the frame is recorded as received |
| `Visualizer.SpectrumVisualizer.CollapseAll` | main.py:59-61 | every bar's coordinates become (0, 0, 0, 0) |
| `Visualizer.SpectrumVisualizer.DrawScaled` | main.py:70-74 | every bar's coordinates become its scaled rectangle for the frame |
| `Visualizer.SpectrumVisualizer.Stop` | main.py:79-80 | clears the visualizer's flag and nothing else |
| `Visualizer.SpectrumVisualizer.DestroyCanvas` | main.py:162 | after the window is destroyed every canvas update fails; nothing else changes |
| `Audio.Shutdown` | main.py:111-117 | the stream stays absent exactly when there was none; only a failing stop leaves it active; without faults a stream ends closed; a closed stream stays closed |
| `Audio.ShutdownCloses` | main.py:109-117 | without faults any started stream ends closed; a second shutdown changes nothing; only a failing stop leaves a stream active |
| `Audio.AudioStream.constructor` | main.py:84-87 | the stream starts running, with no device stream, on the given queue |
| `Audio.AudioStream.Start` | main.py:89-95 | an available device gives an active stream; otherwise the failure is reported and the stream is unchanged |
| `Audio.AudioStream.Callback` | main.py:97-107 | a stopped stream leaves the queue unchanged; a running one offers the gated frame, which is dropped when 100 are queued; the queue stays within capacity |
| `Audio.AudioStream.Stop` | main.py:109-117 | the flag ends false and the stream takes the shutdown state for the given fault; no call fails, so repeating it is harmless |
| `App.Application.constructor` | main.py:121-126 | an empty queue shared by the stream and the tick, all three flags true, bars collapsed |
| `App.Application.ProcessQueue` | main.py:137-151 | stopped: nothing changes and no reschedule; running: the queue ends empty, the frames reach the visualizer in FIFO order, the bars are `RenderAll` of them in that order, and the tick is rescheduled |
| `App.Application.Stop` | main.py:153-164 | all three flags end false, the stream is shut down, the canvas destroyed, the queue and bars untouched |
| `App.SilenceScenario` | main.py:97-151 | ten silent buffers and one tick leave all 60 bars at (0, 0, 0, 0) |

## Left out

- The FFT and `np.abs` (main.py:102): a floating-point library routine. The magnitude spectrum is an input, and rounding is not modelled.
- Floating point in general: magnitudes and heights are exact reals, so the clip at main.py:68 never changes a value in the model.
- sounddevice (main.py:89-95, 113-115, 170): the stream is the abstract `StreamState`. An open failure is a boolean, and stop/close failures are a `DeviceFault` parameter. The hard-coded device pair `[3, 5]` is not modelled.
- tkinter (main.py:30-37, 159-164, 172-173): the canvas is an array of rectangles. `after` is the boolean `reschedule` returned by `ProcessQueue`. `after_cancel`, `quit`, `pack`, `mainloop` and the window title are not modelled. `root.destroy` is modelled as always succeeding.
- App.Application.Stop: the `after_cancel` call (main.py:160) cancels a tick it has just scheduled, not the one already pending. That pending tick is torn down with the window by `quit` and `destroy` (main.py:161-162); if it did run, it would find `is_running` false and do nothing. The model states only the end state: the application flag is false, so `ProcessQueue` would not reschedule.
- App.Application.Stop: the order in which the three flags are cleared is in the method body, not in its contract. With sequential calls the order is not observable.
- Signal handling and process exit (main.py:16-26, 129-135, 176-182): OS interaction.
- Concurrency between the audio thread and the UI thread: callbacks and ticks are modelled as sequential method calls. So `ProcessQueue` never sees its own flag change mid-loop.
- Visualizer.SpectrumVisualizer.UpdateBars: requires a frame of exactly 60 non-negative values. That is what every frame from the gate is. A shorter frame would raise `IndexError`, which process_queue catches (main.py:147-148); that path is not modelled.
- Audio.AudioStream.Callback: requires at least 60 bins, which the 513-bin FFT output always has.
- A `TclError` part-way through a redraw is not modelled. With one thread, a destroyed canvas fails at the first bar, so a redraw is all-or-nothing; `UpdateBars` checks the canvas once before redrawing instead of once per bar.
- Printing and logging (main.py:117, 134, 148, 166).
