# On-device speech recognition: engine boundary and recording session, in Dafny

This project models the three small state machines that surround the whisper speech engine in the Android app:

- **The JNI boundary** (`whisper_jni.cpp`, module `Jni`). `nativeInit` turns a model path into an opaque context handle, where 0 means failure. It also updates the global thread count `g_num_threads`. `nativeRunInference` turns a handle and a PCM array into text, and answers `""` on any bad argument or engine error. `nativeFree` frees a non-null handle and ignores 0. The engine functions are not modelled. Whatever they answer is a parameter, and every call into them is written to a ghost log. The function `Replay` reads that log as a protocol: at most one live context, and every inference, text fetch and free made on the live context.
- **The engine-handle owner** (`WhisperBridge`, module `Bridge`). It is a class with one mutable field, `ctxHandle`, where 0 means no model. Its invariant says that the log of engine calls made through the bridge keeps the protocol, and that the live context is exactly `ctxHandle`. The lemmas about `Replay` then exclude double frees, leaked contexts and use after free. `init` is idempotent. `transcribe` answers `""` when no model is loaded. `release` frees the context once and resets the handle to 0.
- **The recording session controller** (`WhisperViewModel`, module `Session`). It holds the recording flag, the transcript, the latest error, and four nullable resources: the recorder, the capture job, the inference job and the frame channel. Each coroutine step is one atomic method:
  - `FinishStartup` is the end of the startup coroutine.
  - `CaptureStep` is one iteration of the capture loop.
  - `InferStep` is one iteration of the inference loop.

  The frame channel is a bounded FIFO with capacity 4 (module `Channel`). The producer's non-blocking send drops the newest frame when the channel is full. The consumer appends only non-blank results, so the transcript only grows until it is cleared.

`SessionView` is the session's abstract state. The lifecycle methods are tied to the spec functions `Start`, `Stop`, `StartupSucceeded` and `StartupFailed`. The lemmas about those functions state the guards, the idempotence of stop, and the two defects listed under Findings.

The live code transcribes every captured frame directly. There is no sliding window, no hop counter, no streaming or partial-result call, no file transcription path and no "Stopping" state. The model follows the code. The 1-second frame (`ShortArray(sampleRate * 1)`, 16000 samples) is also modelled as written, although a comment there says 250 ms. The capture step sends a copy of the whole reused float buffer (`floatBuf.copyOf()`), not only the `n` samples just read. After a short read, the queued frame therefore ends with whatever the buffer held: zeros for the first frame (`Session.FirstShortReadPadsWithZeros`), samples left over from earlier reads after that (`Session.ShortReadKeepsStaleTail`).

## Model

| member | source | states |
|---|---|---|
| `Jni.NativeLib.constructor` | whisper.cpp_android/app/src/main/cpp/whisper_jni.cpp:11 | the global thread count starts at 4 and no engine call has been made |
| `Jni.NativeLib.NativeInit` | whisper.cpp_android/app/src/main/cpp/whisper_jni.cpp:28-55 | answers 0 without calling the engine when the path characters cannot be obtained; otherwise calls the loader once and answers exactly its context, so 0 on a failed load; the thread count becomes `nThreads` only after a successful load with `nThreads > 0`, and otherwise keeps its previous value |
| `Jni.NativeLib.NativeRunInference` | whisper.cpp_android/app/src/main/cpp/whisper_jni.cpp:63-102 | a null context or null array gives `""` with no engine call; otherwise the engine runs once with the array's length as the sample count and the current thread count; an error code gives `""` and fetches no text; otherwise the result is the engine's text, or `""` for a null text |
| `Jni.NativeLib.NativeFree` | whisper.cpp_android/app/src/main/cpp/whisper_jni.cpp:109-121 | frees a non-null context exactly once and does nothing for 0; the thread count is untouched |
| `Jni.EngineText` | whisper.cpp_android/app/src/main/cpp/whisper_jni.cpp:94-101 | the text returned once the engine has run: `""` on any error code or null text, the engine's text otherwise |
| `Jni.LoadsBalanceFrees` | whisper.cpp_android/app/src/main/java/com/example/my_app/WhisperBridge.kt:37-81 | in a log that keeps the protocol, successful loads equal frees plus one if a context is live: no double free and at most one context outstanding |
| `Jni.CallsUseLiveContext` | whisper.cpp_android/app/src/main/java/com/example/my_app/WhisperBridge.kt:54-81 | in a log that keeps the protocol, every inference, text fetch and free is made on the non-null context that was live just before it |
| `Jni.NothingRunsAfterFree` | whisper.cpp_android/app/src/main/java/com/example/my_app/WhisperBridge.kt:74-81 | after a free, nothing but loads reaches the engine until a load succeeds: no use after free |
| `Bridge.WhisperBridge.constructor` | whisper.cpp_android/app/src/main/java/com/example/my_app/WhisperBridge.kt:23-31 | the singleton starts with no model loaded (`ctxHandle == 0`), a fresh native library and an empty call log |
| `Bridge.WhisperBridge.Init` | whisper.cpp_android/app/src/main/java/com/example/my_app/WhisperBridge.kt:37-42 | with a model already loaded, answers true and makes no native call; otherwise stores what the loader answers and answers true exactly when that handle is non-zero; the invariant is kept |
| `Bridge.WhisperBridge.Transcribe` | whisper.cpp_android/app/src/main/java/com/example/my_app/WhisperBridge.kt:54-60 | with no model, answers `""` and makes no native call; otherwise answers exactly what the native inference answers for the live handle; never changes `ctxHandle` |
| `Bridge.WhisperBridge.Release` | whisper.cpp_android/app/src/main/java/com/example/my_app/WhisperBridge.kt:74-81 | frees the live context once and leaves `ctxHandle == 0`; with no model it makes no native call |
| `Bridge.InitTwice` | whisper.cpp_android/app/src/main/java/com/example/my_app/WhisperBridge.kt:33-42 | a second init while loaded succeeds and keeps the first handle, whatever the loader would have answered |
| `Bridge.ReleaseTwiceThenTranscribe` | whisper.cpp_android/app/src/main/java/com/example/my_app/WhisperBridge.kt:54-81 | releasing twice is safe, and afterwards transcription answers `""` |
| `Bridge.ReleaseThenReinit` | whisper.cpp_android/app/src/main/java/com/example/my_app/WhisperBridge.kt:39-41 | after a release, init loads afresh, and its answer is the new load's |
| `Bridge.TranscribeLoaded` | whisper.cpp_android/app/src/main/java/com/example/my_app/WhisperBridge.kt:54-60 | with a model loaded and no engine error, transcription passes the engine's text through unchanged |
| `Channel.BoundedChannel.constructor` | whisper.cpp_android/app/src/main/java/com/example/my_app/WhisperViewModel.kt:209 | a new channel is empty, open and has the given capacity |
| `Channel.BoundedChannel.TrySend` | whisper.cpp_android/app/src/main/java/com/example/my_app/WhisperViewModel.kt:258 | accepts the item, appended at the back, exactly when the channel is open and holds fewer than `capacity` items; otherwise drops it and leaves the channel unchanged |
| `Channel.BoundedChannel.TryReceive` | whisper.cpp_android/app/src/main/java/com/example/my_app/WhisperViewModel.kt:268-269 | hands out and removes the oldest item, or nothing when the channel is empty |
| `Channel.BoundedChannel.Close` | whisper.cpp_android/app/src/main/java/com/example/my_app/WhisperViewModel.kt:300 | closes the channel and keeps the buffered items |
| `Channel.RunStaysBounded` | whisper.cpp_android/app/src/main/java/com/example/my_app/WhisperViewModel.kt:209 | whatever mix of sends, receives and closes occurs, the buffer never holds more than the capacity |
| `Channel.RunIsFifo` | whisper.cpp_android/app/src/main/java/com/example/my_app/WhisperViewModel.kt:258-269 | the items buffered at the start, then the accepted items, equal the delivered items, then those still buffered, in that order: first in, first out, nothing lost or duplicated |
| `Channel.ClosedAcceptsNothing` | whisper.cpp_android/app/src/main/java/com/example/my_app/WhisperViewModel.kt:300 | once closed, a channel accepts no further item and stays closed |
| `Channel.FullDropsEverySend` | whisper.cpp_android/app/src/main/java/com/example/my_app/WhisperViewModel.kt:258 | sends into a full channel, with no receive between them, are all dropped and leave it unchanged |
| `Session.AccumulateAppendsNonBlank` | whisper.cpp_android/app/src/main/java/com/example/my_app/WhisperViewModel.kt:269-273 | the inference loop keeps the old transcript as a prefix and appends exactly the non-blank results, in order |
| `Session.AccumulateUnchangedIffAllBlank` | whisper.cpp_android/app/src/main/java/com/example/my_app/WhisperViewModel.kt:271-273 | the transcript stays as it was if and only if every result was blank |
| `Session.ToSample` | whisper.cpp_android/app/src/main/java/com/example/my_app/WhisperViewModel.kt:256 | a 16-bit sample scales into [-1, 1), and only zero maps to zero |
| `Session.ShortReadKeepsStaleTail` | whisper.cpp_android/app/src/main/java/com/example/my_app/WhisperViewModel.kt:246-258 | after a read of n samples, the buffer keeps its length; its first n places hold the new samples and the rest keeps earlier contents; only a full read yields exactly the new samples |
| `Session.StartGuards` | whisper.cpp_android/app/src/main/java/com/example/my_app/WhisperViewModel.kt:198-209 | a start while recording changes nothing; a start without permission only sets the permission error and stays stopped; an accepted start is recording with an empty channel |
| `Session.StopReleasesOnce` | whisper.cpp_android/app/src/main/java/com/example/my_app/WhisperViewModel.kt:287-304 | a stop from recording drops every resource and keeps the transcript and the error; a stop when not recording changes nothing; two stops equal one |
| `Session.RunKeepsChannelWhileRecording` | whisper.cpp_android/app/src/main/java/com/example/my_app/WhisperViewModel.kt:198-300 | over any sequence of starts, stops, startup outcomes, clears and errors, a recording session always has its frame channel |
| `Session.CorrectedRunStaysSettled` | whisper.cpp_android/app/src/main/java/com/example/my_app/WhisperViewModel.kt:212-300 | with both startup defects corrected, over any sequence of events no resource is held outside a recording, at most one startup is pending, and a pending startup belongs to the current recording, which holds nothing but its channel |
| `Session.FailedStartupLeaksChannel` | whisper.cpp_android/app/src/main/java/com/example/my_app/WhisperViewModel.kt:277-288 | as written, a failed startup sets the error and clears the flag, but leaves the frame channel installed, and a later stop cannot remove it |
| `Session.FailedStartupCorrectedReleases` | whisper.cpp_android/app/src/main/java/com/example/my_app/WhisperViewModel.kt:277-281 | if stop runs before the flag is cleared, a failed startup leaves nothing behind |
| `Session.StopDuringStartupLeaksRecorder` | whisper.cpp_android/app/src/main/java/com/example/my_app/WhisperViewModel.kt:212-300 | as written, a startup that finishes after a stop installs the recorder and both jobs into a stopped session, and a later stop cannot reach them |
| `Session.StopThenRestartLeavesTwoStartups` | whisper.cpp_android/app/src/main/java/com/example/my_app/WhisperViewModel.kt:198-283 | as written, after start, stop and start again, one startup finishing leaves the new session recording with a recorder while another startup is still pending and will install over it |
| `Session.StopDuringStartupCorrectedReleases` | whisper.cpp_android/app/src/main/java/com/example/my_app/WhisperViewModel.kt:212-300 | when stop also cancels the running startup, no startup is left pending, so a later startup event installs nothing; start, stop, start leaves two startups pending as written but one when corrected |
| `Session.WhisperViewModel.constructor` | whisper.cpp_android/app/src/main/java/com/example/my_app/WhisperViewModel.kt:168-184 | not recording, empty transcript, no error, no resources |
| `Session.WhisperViewModel.StartRecording` | whisper.cpp_android/app/src/main/java/com/example/my_app/WhisperViewModel.kt:194-212 | follows `Start`: ignored while recording; without permission only the error changes; otherwise the flag is set, a fresh empty channel with capacity 4 is installed and the startup is launched; the recorder and jobs are untouched |
| `Session.WhisperViewModel.FinishStartup` | whisper.cpp_android/app/src/main/java/com/example/my_app/WhisperViewModel.kt:212-283 | success installs a fresh recorder that is recording and not released, a running capture job with a fresh zero-filled buffer of 16000 samples, and an inference job bound to the current channel; failure follows `StartupFailed`: the error is the exception's message (or "Model failed to load"), the flag is cleared and every resource stays as it was |
| `Session.WhisperViewModel.StopRecording` | whisper.cpp_android/app/src/main/java/com/example/my_app/WhisperViewModel.kt:287-304 | follows `Stop`: when not recording nothing changes; otherwise both jobs are cancelled, the recorder is stopped and released, the channel is closed, all four are nulled and an engine release is requested |
| `Session.WhisperViewModel.OnCleared` | whisper.cpp_android/app/src/main/java/com/example/my_app/WhisperViewModel.kt:310-312 | has the same effect as a stop: when recording, both jobs are cancelled, the recorder is stopped and released, the channel is closed, all four are nulled and an engine release is requested; otherwise nothing changes |
| `Session.WhisperViewModel.ClearTranscript` | whisper.cpp_android/app/src/main/java/com/example/my_app/WhisperViewModel.kt:307 | empties the transcript and changes no other field |
| `Session.WhisperViewModel.SetError` | whisper.cpp_android/app/src/main/java/com/example/my_app/WhisperViewModel.kt:314 | sets the error and changes no other field |
| `Session.WhisperViewModel.CaptureStep` | whisper.cpp_android/app/src/main/java/com/example/my_app/WhisperViewModel.kt:245-264 | when the loop condition fails, the job ends and nothing is sent; otherwise the read samples overwrite the front of the reused buffer (`Refill`); a non-empty read offers a copy of the whole buffer, which is accepted exactly when a channel exists and holds fewer than 4 frames |
| `Session.WhisperViewModel.InferStep` | whisper.cpp_android/app/src/main/java/com/example/my_app/WhisperViewModel.kt:267-276 | a running job takes the oldest frame of its channel, and the transcript becomes `AppendIfNotBlank(old, transcribe(frame))`; with no frame nothing changes; a closed, drained channel ends the loop |
| `Session.StartWithoutPermission` | whisper.cpp_android/app/src/main/java/com/example/my_app/WhisperViewModel.kt:200-205 | without permission: not recording, the permission error is set, no channel |
| `Session.FailedStartupThenStop` | whisper.cpp_android/app/src/main/java/com/example/my_app/WhisperViewModel.kt:277-288 | on the object: after a failed startup and a stop, the session is stopped and its channel is still installed and open |
| `Session.StopBeforeStartupFinishes` | whisper.cpp_android/app/src/main/java/com/example/my_app/WhisperViewModel.kt:212-300 | on the object: after start, stop, a successful startup and another stop, the session is stopped with a started recorder and a running capture loop |
| `Session.QueuedFramesAreCopies` | whisper.cpp_android/app/src/main/java/com/example/my_app/WhisperViewModel.kt:246-260 | two full reads queue two frames, each equal to its own read: refilling the buffer does not alter a queued frame | |
| `Session.FirstShortReadPadsWithZeros` | whisper.cpp_android/app/src/main/java/com/example/my_app/WhisperViewModel.kt:246-258 | the buffer starts zero-filled, so the first short read queues its samples followed by zeros up to 16000 samples |
| `Session.FifthFrameDropped` | whisper.cpp_android/app/src/main/java/com/example/my_app/WhisperViewModel.kt:209-260 | with no consumer, four frames are queued in order and the fifth is dropped |
| `Session.CaptureThenInfer` | whisper.cpp_android/app/src/main/java/com/example/my_app/WhisperViewModel.kt:245-276 | a captured frame reaches the transcript through one inference step, and only a non-blank answer is appended |

## Findings

| source | as written | input that shows it | evidently intended | confidence | as-written member | corrected member |
|---|---|---|---|---|---|---|
| whisper.cpp_android/app/src/main/java/com/example/my_app/WhisperViewModel.kt:277-281 | the catch block clears `_isRecording` and then calls `stopRecording()`, whose guard at line 288 returns at once | startRecording with permission granted, then the model fails to load | the "ensure clean-up on failure" call closes and drops the frame channel | high, not executed | `Session.FailedStartupLeaksChannel` | `Session.FailedStartupCorrectedReleases` |
| whisper.cpp_android/app/src/main/java/com/example/my_app/WhisperViewModel.kt:212-300 | stopRecording does not cancel the startup coroutine launched at line 212, which later installs a started recorder and both jobs | startRecording, then stopRecording while the model is still loading | a stop also ends a startup still running, so nothing is acquired after it | medium, not executed | `Session.StopDuringStartupLeaksRecorder` | `Session.StopDuringStartupCorrectedReleases` |

The class `Session.WhisperViewModel` keeps both defects, because it models the code as written. The corrections are `Session.StartupFailedCorrected`, which stops before it clears the flag, and `Session.StopCorrected`, which also cancels a startup still running. `Session.NextCorrected` and `Session.RunCorrected` use them, and `Session.CorrectedRunStaysSettled` proves the intended property over any sequence of events. `Session.FailedStartupThenStop` and `Session.StopBeforeStartupFinishes` show both defects on the object itself, and `Session.StopThenRestartLeavesTwoStartups` shows a stale startup reaching a later recording.

## Left out

- Concurrency: coroutines, dispatchers, job cancellation, the inference `Mutex`, `@Synchronized` and audio thread priority are not modelled. Each call or loop iteration is one atomic step. Because of this, the unlocked read of `ctxHandle` in `transcribe` (WhisperBridge.kt:56) and the separate lock used by `init` are not modelled either.
- Orphaned coroutines: a capture or inference coroutine whose job field a later startup has overwritten is not stepped. `CaptureStep` and `InferStep` run the jobs the fields hold.
- Android audio I/O: `AudioRecord` creation, buffer sizing and `read` are not modelled. A read is the sequence of samples it delivered. A zero or negative return is the empty sequence, because the loop treats both alike. A recorder that fails to start without throwing is not modelled.
- Float numerics: the conversion `/ 32768f` is exact real division, with no rounding.
- File I/O: `ensureModel` is excluded. The model path is an opaque string, and a failure to copy it surfaces only as a startup outcome.
- Foreign engine: `whisper_init_from_file`, `whisper_full`, `whisper_full_str` and `whisper_free`, and the JNI string and array marshalling, are not modelled. Their answers are method parameters. A path whose characters cannot be obtained is `None`, and so is a null array. The inference parameters other than the thread count are not recorded.
- Session.WhisperViewModel.OnCleared: androidx cancels `viewModelScope` before it calls `onCleared`, so the engine release that `stopRecording` launches (WhisperViewModel.kt:303) would not run on that path; the model still counts the request.
- Session.WhisperViewModel.FinishStartup: the startup's calls to `ensureModel` and `WhisperBridge.init` are not connected to the `Bridge` model. Their combined result is the `StartupOutcome` parameter, and `ModelLoadFailed` stands for `init` answering false.
- Session.WhisperViewModel.InferStep: the answer for a frame is a function parameter. It stands for what `WhisperBridge.transcribe` answers at that moment and is not connected to a `Bridge` object.
- Session.WhisperViewModel.StopRecording: line 303 calls `WhisperBridge.close()`, which exists only commented out (WhisperBridge.kt:67-73), so the source as given does not compile. The model counts an engine-release request (`engineReleases`). `Bridge.WhisperBridge.Release` is what that request would run, and it is safe to repeat.
- Whitespace: `Session.IsWhitespace` follows Kotlin's `Char.isWhitespace` for current Unicode. U+180E, a space separator only in old Unicode versions, is not included.
- Integer widths: handles and thread counts use `int32` and `int64` types. No arithmetic is done on them, so nothing wraps.
- Logging, the commented-out variants (the sliding-window ring buffer, `close()`, the earlier synchronous `transcribe`), `transcribeFile` (called by the UI but defined nowhere), the Compose UI and the build configuration are not modelled.
