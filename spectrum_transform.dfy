/** The pure half of the audio callback: the magnitude spectrum (the output of
    the FFT, taken as given) is truncated to the lowest NUM_BARS bins and
    noise-gated. */
module SpectrumTransform {
  import opened Settings

  /** A frame as it travels through the queue: one gated magnitude per bar. */
  type Frame = seq<real>

  /** The noise gate on one magnitude: kept when strictly above the
      threshold, replaced by exactly 0 otherwise. */
  function Gate(v: real): (r: real)
    ensures r == 0.0 || r > NOISE_THRESHOLD
    ensures r > NOISE_THRESHOLD <==> v > NOISE_THRESHOLD
    ensures r != 0.0 ==> r == v
  {
    if v > NOISE_THRESHOLD then v else 0.0
  }

  /** Every value of the frame is 0 or strictly above the threshold. */
  ghost predicate Gated(f: seq<real>)
  {
    forall i :: 0 <= i < |f| ==> f[i] == 0.0 || f[i] > NOISE_THRESHOLD
  }

  ghost predicate NonNegative(f: seq<real>)
  {
    forall i :: 0 <= i < |f| ==> f[i] >= 0.0
  }

  predicate AllZero(f: seq<real>)
  {
    forall i :: 0 <= i < |f| ==> f[i] == 0.0
  }

  /** The invariant of every frame the callback produces. */
  ghost predicate IsSpectrumFrame(f: seq<real>)
  {
    |f| == NUM_BARS && Gated(f)
  }

  function Min(a: nat, b: nat): nat
  {
    if a <= b then a else b
  }

  /** Keep the first NUM_BARS bins (fewer if the spectrum is shorter, as a
      slice does) and gate each of them. */
  function GateFrame(mags: seq<real>): (f: Frame)
    ensures |f| == Min(|mags|, NUM_BARS)
    ensures Gated(f) && NonNegative(f)
    ensures forall i :: 0 <= i < |f| ==> f[i] == Gate(mags[i])
  {
    seq(Min(|mags|, NUM_BARS), i requires 0 <= i < Min(|mags|, NUM_BARS) => Gate(mags[i]))
  }

  /** A magnitude equal to the threshold is silenced; one above it is passed
      through unchanged. */
  lemma GateBoundary(v: real)
    ensures Gate(NOISE_THRESHOLD) == 0.0
    ensures v > NOISE_THRESHOLD ==> Gate(v) == v
    ensures v <= NOISE_THRESHOLD ==> Gate(v) == 0.0
  {
  }

  /** Gating is idempotent, on one value and on a whole frame. */
  lemma GateIdempotent(mags: seq<real>)
    ensures forall v :: Gate(Gate(v)) == Gate(v)
    ensures GateFrame(GateFrame(mags)) == GateFrame(mags)
  {
    var f := GateFrame(mags);
    assert |GateFrame(f)| == |f|;
    forall i | 0 <= i < |f| ensures GateFrame(f)[i] == f[i] {
      assert f[i] == Gate(mags[i]);
    }
  }

  /** A spectrum with at least NUM_BARS bins yields a frame of exactly
      NUM_BARS gated values, equal to the gated first bins. */
  lemma GateFrameShape(mags: seq<real>)
    requires |mags| >= NUM_BARS
    ensures IsSpectrumFrame(GateFrame(mags)) && NonNegative(GateFrame(mags))
    ensures GateFrame(mags) == GateFrame(mags[..NUM_BARS])
  {
  }

  /** Silence in the low bins gives an all-zero frame; a gated value on
      non-negative input is zero exactly when the bin is at or below the
      threshold. */
  lemma SilenceGivesZeroFrame(mags: seq<real>)
    requires |mags| >= NUM_BARS
    requires AllZero(mags[..NUM_BARS])
    ensures |GateFrame(mags)| == NUM_BARS && AllZero(GateFrame(mags))
  {
    forall i | 0 <= i < NUM_BARS ensures GateFrame(mags)[i] == 0.0 {
      assert mags[..NUM_BARS][i] == mags[i];
    }
  }

  /** Any frame is all zero after gating exactly when no kept bin exceeds the
      threshold. */
  lemma ZeroFrameIff(mags: seq<real>)
    ensures AllZero(GateFrame(mags)) <==>
            forall i :: 0 <= i < Min(|mags|, NUM_BARS) ==> mags[i] <= NOISE_THRESHOLD
  {
    var f := GateFrame(mags);
    if AllZero(f) {
      forall i | 0 <= i < Min(|mags|, NUM_BARS) ensures mags[i] <= NOISE_THRESHOLD {
        assert f[i] == 0.0;
      }
    }
  }

  lemma SpectrumFrameNonNegative(f: seq<real>)
    requires IsSpectrumFrame(f)
    ensures NonNegative(f)
  {
  }
}
