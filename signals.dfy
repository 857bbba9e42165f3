/** Audio frames, tensors and the layout conversions between them.

    The worker's buffers are numpy arrays of shape (frames, 2): one row per
    frame, one column per channel. The separation model works on
    channel-first tensors. Samples are modelled as reals; no arithmetic is
    ever done on them, so float32 rounding plays no part. */
module Signals {

  datatype Option<T> = None | Some(value: T)

  /** One stereo frame: a row of the (frames, 2) buffer. */
  datatype Frame = Frame(left: real, right: real)

  /** The number of channels of every stream the worker opens. */
  const Channels: nat := 2

  /** A frame of silence, the value `np.zeros` fills rows with. */
  const Silence: Frame := Frame(0.0, 0.0)

  /** A channel-first waveform: one sequence of samples per channel. */
  type Planar = seq<seq<real>>

  /** Model input, shaped [batch, channel, time]. */
  type Tensor3 = seq<Planar>

  /** Model output, shaped [batch, source, channel, time]. */
  type Tensor4 = seq<seq<Planar>>

  function Min(a: int, b: int): int { if a <= b then a else b }

  function Max(a: int, b: int): int { if a <= b then b else a }

  /** `n` frames of silence. */
  function Zeros(n: nat): (r: seq<Frame>)
    ensures |r| == n
    ensures forall i :: 0 <= i < n ==> r[i] == Silence
  {
    seq(n, _ => Silence)
  }

  ghost predicate IsSilent(s: seq<Frame>)
  {
    forall i :: 0 <= i < |s| ==> s[i] == Silence
  }

  /** The transpose `frames.T`: the (frames, 2) array seen channel first. */
  function ToPlanar(frames: seq<Frame>): (p: Planar)
    ensures |p| == Channels
    ensures |p[0]| == |frames| && |p[1]| == |frames|
    ensures forall t :: 0 <= t < |frames| ==> p[0][t] == frames[t].left && p[1][t] == frames[t].right
  {
    [seq(|frames|, t requires 0 <= t < |frames| => frames[t].left),
     seq(|frames|, t requires 0 <= t < |frames| => frames[t].right)]
  }

  /** A stereo stem: two channels of the same length, as a tensor slice always is. */
  predicate IsStereo(p: Planar)
  {
    |p| == Channels && |p[0]| == |p[1]|
  }

  /** The transpose back to frames x channels; None when the stem is not
      stereo and so cannot be written into a (frames, 2) buffer. */
  function FromPlanar(p: Planar): (r: Option<seq<Frame>>)
    ensures r.Some? <==> IsStereo(p)
    ensures r.Some? ==> |r.value| == |p[0]|
  {
    if IsStereo(p) then
      Some(seq(|p[0]|, t requires 0 <= t < |p[0]| => Frame(p[0][t], p[1][t])))
    else
      None
  }

  /** Transposing the buffer for the model and back gives the buffer again. */
  lemma PlanarRoundTrip(frames: seq<Frame>)
    ensures FromPlanar(ToPlanar(frames)) == Some(frames)
  {
    var p := ToPlanar(frames);
    assert IsStereo(p);
    var back := FromPlanar(p).value;
    assert |back| == |frames|;
    forall t | 0 <= t < |frames|
      ensures back[t] == frames[t]
    {
      assert back[t] == Frame(p[0][t], p[1][t]);
    }
    assert back == frames;
  }

  /** Every stereo stem is the transpose of the frames it converts to. */
  lemma FramesRoundTrip(p: Planar)
    requires IsStereo(p)
    ensures ToPlanar(FromPlanar(p).value) == p
  {
    var frames := FromPlanar(p).value;
    var q := ToPlanar(frames);
    assert q[0] == p[0];
    assert q[1] == p[1];
  }
}
