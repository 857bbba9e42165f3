# Real-time vocal isolation: the audio worker's streaming core

This project models the streaming core of HaramMute's `AudioWorker`
(`app/audio_worker.py`) in Dafny:

- the rolling buffer of stereo input frames;
- the hand-off of that window to a source-separation model;
- the choice of the vocals stem;
- the back-offset trim;
- the pad/truncate of every output block to the device's frame count, with silence when anything fails;
- the start/stop state of the duplex stream.

Modules:

- `Signals` (`signals.dfy`): stereo frames, silence, model tensors and the transposes between frames x channels and channel-first layout.
- `PySlice` (`pyslice.dfy`): Python/numpy basic slicing. This covers negative bounds, clamping, and `-0` being `0`.
- `Pipeline` (`pipeline.dfy`): the per-block processing as pure functions (`Push`, `SelectVocals`, `Trim`, `FitToFrames`, `ExtractFromWindow`) and the lemmas about them.
- `Worker` (`audio_worker.dfy`): class `AudioWorker`. Its fields are the source's `stream`, `is_running`, `model`, settings and `buffer`. `ExtractVocals` reassigns `buffer`, and `AudioCallback` writes the caller's `outdata` array in place. Both are proved against the `Pipeline` functions.

The separation model is a value of type `Separator`: a function from the `[1, 2, L]` input tensor to `Some` output tensor `[1, sources, 2, L']`, or `None` when inference raises. `model == None` is the source's unloaded model; calling it raises, so the block comes out silent.

A streaming audio engine would usually have a start that checks the model is loaded, validated settings, a stop that releases the buffer and an error state after a failed start. The worker does not have these, and the model follows the worker:

- `start_stream` itself does not check that the model is loaded. The window keeps its start button disabled until the model has loaded (`app/main.py:80`, `app/main.py:163-164`), but that gate is window code and is not part of this model. A worker started without a model updates the buffer on every callback and then writes silence.
- The worker does not validate the buffer-capacity and trim settings against each other. The window's input fields accept any integer from 0 to 1000000 (`app/main.py:104`). The model's `nat` settings keep the lower bound; the upper bound plays no part in any property.
  - `max_buffer_size == 0` makes the update `[-0:]`, which keeps the whole history. The buffer then grows on every block.
  - `block_size == back == 0` makes the trim `[-0:]`, the whole model output.
- `stop_stream` neither releases the buffer nor forgets the stream. It closes the stream if one is present and clears `is_running`.
- A failed start sets no error state. `is_running` keeps its old value, and `self.stream` holds the unstarted stream when only `start()` raised.

## Model

| member | source | states |
|---|---|---|
| `Signals.PlanarRoundTrip` | app/audio_worker.py:45 | transposing the buffer to channel-first layout for the model and back gives the same frames |
| `Signals.Zeros` | app/audio_worker.py:74 | `n` frames of silence, as `np.zeros` builds for the fallback block (also the padding at :68 and the seed at :77): exactly `n` rows, every one silent |
| `Signals.ToPlanar` | app/audio_worker.py:45 | the transpose `buffer.T`: two channels, each as long as the buffer, channel 0 holding every frame's left sample and channel 1 its right sample |
| `Signals.FromPlanar` | app/audio_worker.py:57 | the transpose back to frames x channels succeeds exactly when the stem is stereo, and then has one frame per sample |
| `Signals.FramesRoundTrip` | app/audio_worker.py:57 | every stereo stem is exactly the channel-first form of the frames it is transposed to |
| `PySlice.Bound` | app/audio_worker.py:59 | a slice bound in range picks that position (counting from the end when negative); out-of-range bounds clamp to 0 or to the length |
| `PySlice.Slice` | app/audio_worker.py:59 | Python's `s[start:stop]` (also used at :43 and :71): never longer than `s`, and `s[:]` is all of `s` |
| `PySlice.SliceFromEnd` | app/audio_worker.py:43 | `s[-m:]` is the last `min(m, len)` items for `m > 0` and all of `s` for `m == 0` |
| `PySlice.SliceToPrefix` | app/audio_worker.py:71 | `s[:n]` is the first `min(n, len)` items |
| `Pipeline.Push` | app/audio_worker.py:42-43 | the new buffer is a suffix of old buffer ++ chunk, of length `min(old + chunk, max_buffer_size)` when the capacity is positive, and all of old ++ chunk when it is 0 |
| `Pipeline.PushKeepsCapacity` | app/audio_worker.py:43 | a buffer of exactly `max_buffer_size > 0` frames keeps that length after a push |
| `Pipeline.PushKeepsNewest` | app/audio_worker.py:42-43 | for `k <= len(chunk)` (and `k <= max_buffer_size` unless it is 0), the last `k` buffer frames are the last `k` chunk frames |
| `Pipeline.PushPush` | app/audio_worker.py:42-43 | two pushes in a row equal one push of the two chunks joined |
| `Pipeline.PushAllIsWindow` | app/audio_worker.py:42-43 | after any non-empty series of pushes the buffer equals one `Push` of all the chunks joined: the last `max_buffer_size` frames of initial buffer ++ all chunks (oldest dropped first), or all of them when `max_buffer_size` is 0 |
| `Pipeline.PushAllKeepsCapacity` | app/audio_worker.py:43 | a buffer seeded with `max_buffer_size > 0` frames keeps exactly that length over any number of pushes |
| `Pipeline.ModelInput` | app/audio_worker.py:45 | the model input has batch size 1 and its one entry transposes back to exactly the buffer |
| `Pipeline.SelectVocals` | app/audio_worker.py:57 | a selected stem is, transposed, exactly source 3 of batch 0; a stereo source 3 is always selected; no batch 0 or no source 3 gives failure |
| `Pipeline.Trim` | app/audio_worker.py:59 | the trim is at most `block_size` frames long, except that `block_size == back == 0` returns the whole output |
| `Pipeline.TrimRange` | app/audio_worker.py:59 | the trim is frames `[lo, hi)` with `hi = max(0, L - back)` and `lo = max(0, L - block_size - back)`, or `lo = 0` for the `-0` start |
| `Pipeline.TrimInterior` | app/audio_worker.py:59 | with `back > 0` and `block_size + back <= L`, the trim is frames `[L - block_size - back, L - back)`, of length `block_size` |
| `Pipeline.TrimNoBack` | app/audio_worker.py:59 | with `back == 0` the trim is the final `block_size` frames, or the whole output when `block_size == 0` |
| `Pipeline.TrimClamped` | app/audio_worker.py:59 | when `block_size + back > L` the trim is the first `max(0, L - back)` frames, and it is empty when `back >= L` |
| `Pipeline.TrimDefaults` | app/audio_worker.py:59 | with the default settings (block 4048, back 1024) on a 16000-frame output, the trim is frames `[10928, 14976)` |
| `Pipeline.FitToFrames` | app/audio_worker.py:67-71 | the block has exactly `frames` rows: its first `min(len, frames)` rows are the vocals and the remaining rows are silence |
| `Pipeline.ExtractFromWindow` | app/audio_worker.py:45-59 | extraction succeeds exactly when the model is loaded, its inference returns and the output has a stereo source 3; the result is then frames `[lo, hi)` of that stem, with `hi = max(0, L - back)` and `lo = max(0, L - block_size - back)`, or `lo = 0` for the `-0` start; it is at most `block_size` frames long unless `block_size == back == 0` |
| `Pipeline.BlockIsTrimmedRange` | app/audio_worker.py:59-71 | for every `back`, including 0: when the device asks for `block_size` frames and the model output has room for `block_size + back` frames, the delivered block is exactly frames `[L - block_size - back, L - back)` with no padding |
| `Worker.AudioWorker.constructor` | app/audio_worker.py:17-29 | a new worker has no stream, no model and no buffer, is not running, and has block 4048, buffer 16000 and back 1024 |
| `Worker.AudioWorker.LoadModel` | app/audio_worker.py:31-38 | after loading, the worker holds the model |
| `Worker.AudioWorker.ExtractVocals` | app/audio_worker.py:40-60 | the buffer becomes the push of the chunk, even when inference then fails; the result is the trimmed vocals of the new window; with no buffer, extraction fails and nothing changes |
| `Worker.AudioWorker.AudioCallback` | app/audio_worker.py:62-74 | the buffer is pushed, a full buffer stays full, and `outdata` becomes the fitted vocals on success and all silence on any failure |
| `Worker.AudioWorker.StartStream` | app/audio_worker.py:76-91 | the buffer is reset to `max_buffer_size` frames of silence; `is_running` is set only when the stream both opened and started; a stream that failed in `start()` is still kept |
| `Worker.AudioWorker.StopStream` | app/audio_worker.py:93-98 | `is_running` is false afterwards in every case; a present stream is closed and a missing one is tolerated |

## Left out

- The separation network, the torch conversion, the float32 casts and device placement (`cuda`/`cpu`). The network is the opaque `Separator` value, and samples are reals.
- Worker.AudioWorker.LoadModel: covers only a successful load. A failed download or build leaves `model` unset, which is the state before any call.
- The inference timing is left out because it is floating-point and informational only. This covers the wall-clock `time()` calls, `processing_ms`, and `block_ms`, which divides by the constant 41000 and not by the 44100 sample rate. It also covers the `timing_signal` and the real-time-factor display in `app/main.py`.
- Qt signals and logging are left out: `log_signal`, `model_loaded`, and the callback's logging of device status flags. The `time_info` and `status` callback arguments are left out with them.
- The sounddevice stream and the audio thread are left out. Only the outcome of opening and starting is modelled, as the `OpenOutcome` parameter of `StartStream`.
- Worker.AudioWorker.StopStream: assumes the device's `stop()` and `close()` succeed. An error raised by them, for example on an already closed stream, is not modelled.
- Concurrency between `stop_stream` and a callback in flight is not modelled.
- Pipeline.SelectVocals: treats a stem that is not stereo as a failure. numpy would broadcast a mono stem into the stereo output when no padding is needed. The model's output always has the input's two channels.
- Worker.AudioWorker.AudioCallback: requires `indata` and `outdata` to have `frames` rows. Other shapes are not modelled; the device always passes `frames` rows for both.
- All of `app/main.py`'s window code: widgets, the tray icon, device listing, the start/stop toggle, and the start button that stays disabled until the model has loaded. The integer fields' lower bound 0 is kept as the `nat` type of the settings. Their upper bound 1000000 is not needed by any property.
