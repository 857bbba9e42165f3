/** The audio worker: its settings, rolling buffer, model and stream, and the
    operations that change them: loading the model, starting and stopping
    the stream, and the per-block callback that the audio device runs. */
module Worker {
  import opened Signals
  import opened Pipeline

  /** The capture device the worker always opens. */
  const HardcodedInput: string := "CABLE Output (VB-Audio Virtual , MME"

  /** The sample rate every stream is opened at. */
  const SampleRate: nat := 44100

  /** What opening the duplex stream came to: the constructor raised, the
      stream was built but `start()` raised, or the stream runs. */
  datatype OpenOutcome = ConstructFails | StartFails | Starts

  datatype StreamState = Opened | Active | Closed

  /** A duplex device stream with the parameters it was opened with. */
  datatype Stream = Stream(
    inputDevice: string,
    outputDevice: Option<int>,
    sampleRate: nat,
    channels: nat,
    blockSize: nat,
    state: StreamState)

  class AudioWorker {
    var stream: Option<Stream>
    var isRunning: bool
    var model: Option<Separator>

    // Settings, written by the window before each start; its input fields
    // accept only integers from 0 to 1000000.
    var blockSize: nat
    var maxBufferSize: nat
    var back: nat
    var outputDeviceIdx: Option<int>

    /** The rolling window of input frames; None until the first start. */
    var buffer: Option<seq<Frame>>

    /** The buffer holds exactly `maxBufferSize` frames. */
    predicate BufferFull()
      reads this
    {
      buffer.Some? && |buffer.value| == maxBufferSize
    }

    /** A worker with no stream, no model and the default settings. */
    constructor ()
      ensures stream == None && !isRunning && model == None && buffer == None
      ensures blockSize == 4048 && maxBufferSize == 16000 && back == 1024
      ensures outputDeviceIdx == None
    {
      stream := None;
      isRunning := false;
      model := None;
      blockSize := 4048;
      maxBufferSize := 16000;
      back := 1024;
      outputDeviceIdx := None;
      buffer := None;
    }

    /** Installs the separation model once it has been fetched and built. */
    method LoadModel(separator: Separator)
      modifies this`model
      ensures model == Some(separator)
    {
      model := Some(separator);
    }

    /** Pushes `chunk` into the rolling buffer and runs the model on the
        window, returning the trimmed vocals; None when any step raises. The
        buffer is updated even when the model then fails. */
    method ExtractVocals(chunk: seq<Frame>) returns (vocals: Option<seq<Frame>>)
      modifies this`buffer
      ensures old(buffer).None? ==> buffer == None && vocals == None
      ensures old(buffer).Some? ==> buffer == Some(Push(old(buffer).value, chunk, maxBufferSize))
      ensures old(buffer).Some? ==> vocals == ExtractFromWindow(buffer.value, model, blockSize, back)
    {
      if buffer.None? {
        // concatenating onto a missing buffer raises
        return None;
      }
      buffer := Some(Push(buffer.value, chunk, maxBufferSize));
      vocals := ExtractFromWindow(buffer.value, model, blockSize, back);
    }

    /** The device callback: writes exactly one block into `outdata`, the
        trimmed vocals padded or truncated to `frames` rows, or silence when
        extraction raised. */
    method AudioCallback(indata: seq<Frame>, outdata: array<Frame>, frames: nat)
      requires |indata| == frames && outdata.Length == frames
      modifies this`buffer, outdata
      ensures old(buffer).Some? ==> buffer == Some(Push(old(buffer).value, indata, maxBufferSize))
      ensures old(buffer).None? ==> buffer == None
      ensures old(BufferFull()) && maxBufferSize > 0 ==> BufferFull()
      ensures var vocals := if old(buffer).Some? then ExtractFromWindow(buffer.value, model, blockSize, back) else None;
        match vocals
        case Some(v) => outdata[..] == FitToFrames(v, frames)
        case None => IsSilent(outdata[..])
    {
      var vocals := ExtractVocals(indata);
      match vocals {
        case Some(v) =>
          var block := FitToFrames(v, frames);
          forall i | 0 <= i < frames {
            outdata[i] := block[i];
          }
        case None =>
          var silence := Zeros(|indata|);
          forall i | 0 <= i < frames {
            outdata[i] := silence[i];
          }
      }
    }

    /** Seeds the buffer with `maxBufferSize` frames of silence, then opens
        and starts the duplex stream; the worker counts as running only when
        both succeeded. */
    method StartStream(outcome: OpenOutcome)
      modifies this`buffer, this`stream, this`isRunning
      ensures buffer == Some(Zeros(maxBufferSize)) && BufferFull()
      ensures isRunning == (old(isRunning) || outcome == Starts)
      ensures var built := Stream(HardcodedInput, outputDeviceIdx, SampleRate, Channels, blockSize, Opened);
        stream == match outcome
          case ConstructFails => old(stream)
          case StartFails => Some(built)
          case Starts => Some(built.(state := Active))
    {
      buffer := Some(Zeros(maxBufferSize));
      if outcome == ConstructFails {
        return;
      }
      stream := Some(Stream(HardcodedInput, outputDeviceIdx, SampleRate, Channels, blockSize, Opened));
      if outcome == StartFails {
        return;
      }
      stream := Some(stream.value.(state := Active));
      isRunning := true;
    }

    /** Stops and closes the stream if there is one; the worker is not
        running afterwards in every case. */
    method StopStream()
      modifies this`stream, this`isRunning
      ensures !isRunning
      ensures old(stream).None? ==> stream == None
      ensures old(stream).Some? ==> stream == Some(old(stream).value.(state := Closed))
    {
      if stream.Some? {
        stream := Some(stream.value.(state := Closed));
      }
      isRunning := false;
    }
  }
}
