/** The per-block processing of the audio worker as pure functions: the
    rolling buffer update, the choice of the vocals stem, the back-offset
    trim and the pad/truncate to the device's frame count. */
module Pipeline {
  import opened Signals
  import opened PySlice

  /** The separation model: a [1, 2, L] tensor in, a [1, sources, 2, L]
      tensor out, or None when inference raises. */
  type Separator = Tensor3 -> Option<Tensor4>

  /** Index of the vocals stem among the model's sources (drums, bass, other, vocals). */
  const VocalsSource: nat := 3

  // ---------------------------------------------------------------- buffer

  /** The buffer update: `np.concatenate([buffer, chunk])[-maxBufferSize:]`. */
  function Push(buffer: seq<Frame>, chunk: seq<Frame>, maxBufferSize: nat): (r: seq<Frame>)
    ensures maxBufferSize > 0 ==> |r| == Min(|buffer| + |chunk|, maxBufferSize)
    ensures maxBufferSize == 0 ==> r == buffer + chunk
    ensures r == (buffer + chunk)[|buffer| + |chunk| - |r|..]
  {
    SliceFromEnd(buffer + chunk, maxBufferSize);
    Slice(buffer + chunk, Some(-(maxBufferSize as int)), None)
  }

  /** A buffer that holds exactly `maxBufferSize` frames still does after a push,
      provided the capacity is not 0 (a `[-0:]` slice keeps everything). */
  lemma PushKeepsCapacity(buffer: seq<Frame>, chunk: seq<Frame>, maxBufferSize: nat)
    requires maxBufferSize > 0 && |buffer| == maxBufferSize
    ensures |Push(buffer, chunk, maxBufferSize)| == maxBufferSize
  {
  }

  /** Temporal order: the newest `k` frames of the buffer are the last `k`
      frames of the chunk just pushed. */
  lemma PushKeepsNewest(buffer: seq<Frame>, chunk: seq<Frame>, maxBufferSize: nat, k: nat)
    requires k <= |chunk|
    requires maxBufferSize == 0 || k <= maxBufferSize
    ensures var r := Push(buffer, chunk, maxBufferSize);
      k <= |r| && r[|r| - k..] == chunk[|chunk| - k..]
  {
  }

  /** Pushing two chunks one after the other is pushing them together. */
  lemma PushPush(buffer: seq<Frame>, c1: seq<Frame>, c2: seq<Frame>, maxBufferSize: nat)
    ensures Push(Push(buffer, c1, maxBufferSize), c2, maxBufferSize)
         == Push(buffer, c1 + c2, maxBufferSize)
  {
  }

  /** All the chunks of `chunks`, in order. */
  function Flatten(chunks: seq<seq<Frame>>): (r: seq<Frame>)
  {
    if chunks == [] then [] else chunks[0] + Flatten(chunks[1..])
  }

  /** The buffer after one push per chunk, in order. */
  function PushAll(buffer: seq<Frame>, chunks: seq<seq<Frame>>, maxBufferSize: nat): (r: seq<Frame>)
    decreases |chunks|
  {
    if chunks == [] then buffer
    else PushAll(Push(buffer, chunks[0], maxBufferSize), chunks[1..], maxBufferSize)
  }

  /** After any non-empty run of pushes the buffer is the last
      `maxBufferSize` frames of everything it ever held and received. */
  lemma {:induction false} PushAllIsWindow(buffer: seq<Frame>, chunks: seq<seq<Frame>>, maxBufferSize: nat)
    requires chunks != []
    ensures PushAll(buffer, chunks, maxBufferSize) == Push(buffer, Flatten(chunks), maxBufferSize)
    decreases |chunks|
  {
    var b1 := Push(buffer, chunks[0], maxBufferSize);
    if |chunks| == 1 {
      assert Flatten(chunks) == chunks[0] + Flatten(chunks[1..]);
      assert chunks[1..] == [];
      assert Flatten(chunks) == chunks[0];
    } else {
      PushAllIsWindow(b1, chunks[1..], maxBufferSize);
      PushPush(buffer, chunks[0], Flatten(chunks[1..]), maxBufferSize);
    }
  }

  /** Seeded with `maxBufferSize` frames, the buffer holds exactly that many
      after any number of pushes, provided the capacity is not 0. */
  lemma {:induction false} PushAllKeepsCapacity(buffer: seq<Frame>, chunks: seq<seq<Frame>>, maxBufferSize: nat)
    requires maxBufferSize > 0 && |buffer| == maxBufferSize
    ensures |PushAll(buffer, chunks, maxBufferSize)| == maxBufferSize
    decreases |chunks|
  {
    if chunks != [] {
      PushKeepsCapacity(buffer, chunks[0], maxBufferSize);
      PushAllKeepsCapacity(Push(buffer, chunks[0], maxBufferSize), chunks[1..], maxBufferSize);
    }
  }

  // ----------------------------------------------------------------- model

  /** `torch.from_numpy(buffer.T).unsqueeze(0)`: the model input. */
  function ModelInput(window: seq<Frame>): (x: Tensor3)
    ensures |x| == 1 && FromPlanar(x[0]) == Some(window)
  {
    PlanarRoundTrip(window);
    [ToPlanar(window)]
  }

  /** `out[0][3].T`: the vocals stem in frames x channels; None when the
      output has no batch 0 or no source 3 (an IndexError in the source) or
      the stem is not stereo. */
  function SelectVocals(out: Tensor4): (r: Option<seq<Frame>>)
    ensures r.Some? ==> |out| > 0 && |out[0]| > VocalsSource && ToPlanar(r.value) == out[0][VocalsSource]
    ensures |out| > 0 && |out[0]| > VocalsSource && IsStereo(out[0][VocalsSource]) ==> r.Some?
  {
    if |out| > 0 && |out[0]| > VocalsSource then
      var r := FromPlanar(out[0][VocalsSource]);
      if r.Some? then FramesRoundTrip(out[0][VocalsSource]); r else r
    else
      None
  }

  // ------------------------------------------------------------------ trim

  /** The back-offset trim `vocals[-blockSize - back : -back if back > 0 else None]`. */
  function Trim(vocals: seq<Frame>, blockSize: nat, back: nat): (r: seq<Frame>)
    ensures blockSize + back > 0 ==> |r| <= blockSize
    ensures blockSize + back == 0 ==> r == vocals
  {
    Slice(vocals, Some(-(blockSize as int) - back), if back > 0 then Some(-(back as int)) else None)
  }

  /** The trim as one contiguous range of the model output: it ends `back`
      frames before the end (clamped at 0) and starts `blockSize + back`
      frames before the end (clamped at 0), except that a start of `-0`
      is the beginning. */
  lemma TrimRange(vocals: seq<Frame>, blockSize: nat, back: nat)
    ensures var n := |vocals|;
      var hi := Max(0, n - back);
      var lo := if blockSize + back == 0 then 0 else Max(0, n - blockSize - back);
      lo <= hi && Trim(vocals, blockSize, back) == vocals[lo..hi]
  {
  }

  /** With `back > 0` and room in the output, the trim is exactly the
      `blockSize` frames that end `back` frames before the end. */
  lemma TrimInterior(vocals: seq<Frame>, blockSize: nat, back: nat)
    requires back > 0 && blockSize + back <= |vocals|
    ensures Trim(vocals, blockSize, back) == vocals[|vocals| - blockSize - back..|vocals| - back]
    ensures |Trim(vocals, blockSize, back)| == blockSize
  {
    TrimRange(vocals, blockSize, back);
  }

  /** With `back == 0` the trim is the final `blockSize` frames, except that a
      zero block size keeps the whole output. */
  lemma TrimNoBack(vocals: seq<Frame>, blockSize: nat)
    requires blockSize <= |vocals|
    ensures blockSize > 0 ==> Trim(vocals, blockSize, 0) == vocals[|vocals| - blockSize..]
    ensures blockSize == 0 ==> Trim(vocals, blockSize, 0) == vocals
  {
    TrimRange(vocals, blockSize, 0);
  }

  /** When block and back offset do not fit, the start clamps to 0: the trim
      is the first `max(0, L - back)` frames and is empty once `back >= L`. */
  lemma TrimClamped(vocals: seq<Frame>, blockSize: nat, back: nat)
    requires blockSize + back > |vocals|
    ensures Trim(vocals, blockSize, back) == vocals[..Max(0, |vocals| - back)]
    ensures back >= |vocals| ==> Trim(vocals, blockSize, back) == []
  {
    TrimRange(vocals, blockSize, back);
  }

  /** The worker's default settings on a full window: frames [10928, 14976). */
  lemma TrimDefaults(vocals: seq<Frame>)
    requires |vocals| == 16000
    ensures Trim(vocals, 4048, 1024) == vocals[10928..14976]
  {
    TrimInterior(vocals, 4048, 1024);
  }

  // ----------------------------------------------------------- pad/truncate

  /** Zero-pads or truncates the trimmed vocals to exactly `frames` rows. */
  function FitToFrames(vocals: seq<Frame>, frames: nat): (r: seq<Frame>)
    ensures |r| == frames
    ensures forall i :: 0 <= i < Min(|vocals|, frames) ==> r[i] == vocals[i]
    ensures forall i :: |vocals| <= i < frames ==> r[i] == Silence
  {
    if |vocals| < frames then
      vocals + Zeros(frames - |vocals|)
    else
      SliceToPrefix(vocals, frames);
      Slice(vocals, None, Some(frames))
  }

  /** Everything `extract_vocals` does after the buffer update: inference on
      the window, the vocals stem, the trim. None stands for an exception:
      an unloaded model, a failing inference or a missing stem. */
  function ExtractFromWindow(window: seq<Frame>, model: Option<Separator>, blockSize: nat, back: nat)
    : (r: Option<seq<Frame>>)
    ensures r.Some? <==> model.Some? && model.value(ModelInput(window)).Some?
                         && SelectVocals(model.value(ModelInput(window)).value).Some?
    ensures r.Some? ==>
      var vocals := SelectVocals(model.value(ModelInput(window)).value).value;
      var n := |vocals|;
      var hi := Max(0, n - back);
      var lo := if blockSize + back == 0 then 0 else Max(0, n - blockSize - back);
      lo <= hi && r.value == vocals[lo..hi]
    ensures r.Some? && blockSize + back > 0 ==> |r.value| <= blockSize
  {
    if model.None? then None
    else
      match model.value(ModelInput(window))
      case None => None
      case Some(out) =>
        match SelectVocals(out)
        case None => None
        case Some(vocals) =>
          TrimRange(vocals, blockSize, back);
          Some(Trim(vocals, blockSize, back))
  }

  /** When the output block is the trimmed range itself: with a model output
      that has room for block and back offset, and a device asking for
      `blockSize` frames, the block delivered is exactly frames
      `[L - blockSize - back, L - back)`, with no padding. */
  lemma BlockIsTrimmedRange(vocals: seq<Frame>, blockSize: nat, back: nat)
    requires blockSize + back <= |vocals|
    ensures FitToFrames(Trim(vocals, blockSize, back), blockSize)
         == vocals[|vocals| - blockSize - back..|vocals| - back]
  {
  }
}
