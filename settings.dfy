/** The fixed configuration of the visualizer: sample rate, analysis window,
    bar count, noise threshold, the queue bound and the canvas layout. */
module Settings {
  const SAMPLE_RATE := 44100
  const WINDOW_SIZE := 1024
  /** Number of magnitude bins kept per frame, and number of bars drawn. */
  const NUM_BARS: nat := 60
  /** Magnitudes at or below this value are gated to exactly zero. */
  const NOISE_THRESHOLD: real := 0.05

  /** Capacity of the queue between the audio callback and the UI thread. */
  const QUEUE_CAPACITY: nat := 100

  /** Height of the canvas in pixels; also the full-scale bar height. */
  const MAX_HEIGHT: int := 400
  /** Width the bar layout is computed against. */
  const LAYOUT_WIDTH: int := 800
  /** Width of the visible canvas (narrower than the layout). */
  const CANVAS_WIDTH: int := 750
  /** Horizontal pixels taken by one bar, gap included: 800 // 60. */
  const BAR_WIDTH: int := LAYOUT_WIDTH / NUM_BARS
  /** Blank pixels between two neighbouring bars. */
  const BAR_GAP: int := 2
}
