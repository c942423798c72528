/**
 * WhisperViewModel: the recording session controller.
 *
 * Observable state: the recording flag, the transcript and the latest error.
 * Resources: the recorder, the capture and inference jobs, and the frame
 * channel. Each coroutine step is one atomic method: the startup coroutine
 * launched by StartRecording finishes in FinishStartup, one iteration of the
 * capture loop is CaptureStep, one iteration of the inference loop is InferStep.
 *
 * `View()` is the session's abstract state; the lifecycle operations are tied to
 * the spec functions Start, Stop, StartupSucceeded and StartupFailed, and the
 * lemmas about those functions are the session's guarantees and its two defects.
 */
module Session {
  import opened Wrappers
  import Jni
  import Channel

  newtype int16 = x: int | -0x8000 <= x < 0x8000

  type Pcm = Jni.Pcm

  /** The capture buffer: ShortArray(sampleRate * 1), one second at 16 kHz. */
  const FrameSize: nat := 16000
  const ChannelCapacity: nat := 4
  const PermissionDeniedMessage: string := "Microphone permission not granted"
  const ModelLoadFailedMessage: string := "Model failed to load"

  // ───────────────────────────── Transcript ─────────────────────────────

  /** Kotlin's Char.isWhitespace: Java whitespace or a Unicode space separator. */
  predicate IsWhitespace(c: char)
  {
    c == '\t' || c == '\n' || c == '\U{B}' || c == '\U{C}' || c == '\r' ||
    ('\U{1C}' <= c <= '\U{1F}') ||
    c == ' ' || c == '\U{A0}' || c == '\U{1680}' || ('\U{2000}' <= c <= '\U{200A}') ||
    c == '\U{2028}' || c == '\U{2029}' || c == '\U{202F}' || c == '\U{205F}' || c == '\U{3000}'
  }

  /** String.isBlank: empty or whitespace only. */
  predicate IsBlank(s: string)
  {
    forall i :: 0 <= i < |s| ==> IsWhitespace(s[i])
  }

  /** The consumer's `if (text.isNotBlank()) _transcript.value += text`. */
  function AppendIfNotBlank(transcript: string, text: string): string
  {
    if IsBlank(text) then transcript else transcript + text
  }

  /** The transcript after the inference loop has handled `texts` in order. */
  function Accumulate(transcript: string, texts: seq<string>): string
    decreases |texts|
  {
    if texts == [] then transcript
    else Accumulate(AppendIfNotBlank(transcript, texts[0]), texts[1..])
  }

  /** The non-blank texts, concatenated in order. */
  function NonBlankConcat(texts: seq<string>): string
  {
    if texts == [] then ""
    else (if IsBlank(texts[0]) then "" else texts[0]) + NonBlankConcat(texts[1..])
  }

  /** Append-only: the loop leaves the old transcript in place and adds exactly
      the non-blank results, in the order they were produced. */
  lemma {:induction false} AccumulateAppendsNonBlank(transcript: string, texts: seq<string>)
    ensures Accumulate(transcript, texts) == transcript + NonBlankConcat(texts)
    decreases |texts|
  {
    if texts != [] {
      var next := AppendIfNotBlank(transcript, texts[0]);
      AccumulateAppendsNonBlank(next, texts[1..]);
      assert transcript + ((if IsBlank(texts[0]) then "" else texts[0]) + NonBlankConcat(texts[1..]))
          == next + NonBlankConcat(texts[1..]);
    }
  }

  /** The transcript is left exactly as it was if and only if every result was blank. */
  lemma {:induction false} AccumulateUnchangedIffAllBlank(transcript: string, texts: seq<string>)
    ensures Accumulate(transcript, texts) == transcript <==> forall i :: 0 <= i < |texts| ==> IsBlank(texts[i])
  {
    AccumulateAppendsNonBlank(transcript, texts);
    NonBlankConcatEmptyIffAllBlank(texts);
    assert transcript + NonBlankConcat(texts) == transcript <==> NonBlankConcat(texts) == "" by {
      if transcript + NonBlankConcat(texts) == transcript {
        assert |NonBlankConcat(texts)| == 0;
      }
    }
  }

  lemma {:induction false} NonBlankConcatEmptyIffAllBlank(texts: seq<string>)
    ensures NonBlankConcat(texts) == "" <==> forall i :: 0 <= i < |texts| ==> IsBlank(texts[i])
    decreases |texts|
  {
    if texts != [] {
      NonBlankConcatEmptyIffAllBlank(texts[1..]);
      if !IsBlank(texts[0]) {
        assert texts[0] != "";
      }
      if forall i :: 0 <= i < |texts| ==> IsBlank(texts[i]) {
        assert forall i :: 0 <= i < |texts[1..]| ==> IsBlank(texts[1..][i]) by {
          forall i | 0 <= i < |texts[1..]| ensures IsBlank(texts[1..][i]) {
            assert texts[1..][i] == texts[i + 1];
          }
        }
      } else if IsBlank(texts[0]) {
        var i :| 0 <= i < |texts| && !IsBlank(texts[i]);
        assert i > 0 && texts[1..][i - 1] == texts[i];
      }
    }
  }

  // ───────────────────────────── Capture frames ─────────────────────────────

  /** `shortBuf[i] / 32768f`: a 16-bit sample scaled into [-1, 1); rounding is not modelled. */
  function ToSample(s: int16): (r: real)
    ensures -1.0 <= r < 1.0
    ensures (s == 0) == (r == 0.0)
  {
    s as real / 32768.0
  }

  function Normalize(samples: seq<int16>): (r: Pcm)
    ensures |r| == |samples|
    ensures forall i :: 0 <= i < |samples| ==> r[i] == ToSample(samples[i])
  {
    seq(|samples|, i requires 0 <= i < |samples| => ToSample(samples[i]))
  }

  /** The reused float buffer after a read of `samples`: the first n places are
      overwritten, the rest keep what earlier reads left there. */
  function Refill(buffer: Pcm, samples: seq<int16>): Pcm
    requires |samples| <= |buffer|
  {
    Normalize(samples) + buffer[|samples|..]
  }

  /** A short read sends a full-length frame whose tail is left over from
      earlier reads; only a full read sends exactly the new samples. */
  lemma ShortReadKeepsStaleTail(buffer: Pcm, samples: seq<int16>)
    requires |samples| <= |buffer|
    ensures |Refill(buffer, samples)| == |buffer|
    ensures Refill(buffer, samples)[..|samples|] == Normalize(samples)
    ensures Refill(buffer, samples)[|samples|..] == buffer[|samples|..]
    ensures |samples| == |buffer| ==> Refill(buffer, samples) == Normalize(samples)
  {
    assert Refill(buffer, samples)[..|samples|] == Normalize(samples);
  }

  // ───────────────────────────── Lifecycle ─────────────────────────────

  /** The session's abstract state: the observable values, which resources are
      held, the frames queued in the channel, the startup coroutines still
      running and the engine releases requested so far. */
  datatype SessionView = SessionView(
    recording: bool,
    transcript: string,
    error: Option<string>,
    hasRecorder: bool,
    hasCaptureJob: bool,
    hasInferJob: bool,
    chan: Option<seq<Pcm>>,
    pendingStartups: nat,
    engineReleases: nat)

  /** How the startup coroutine ends: everything set up, the model did not
      load (`check(initSuccess)`), or some step threw with this message. */
  datatype StartupOutcome = SetupSucceeded | ModelLoadFailed | SetupThrew(message: Option<string>)

  function FailureMessage(outcome: StartupOutcome): Option<string>
    requires !outcome.SetupSucceeded?
  {
    if outcome.ModelLoadFailed? then Some(ModelLoadFailedMessage) else outcome.message
  }

  /** No recorder, no job and no channel. */
  predicate Released(v: SessionView)
  {
    !v.hasRecorder && !v.hasCaptureJob && !v.hasInferJob && v.chan.None?
  }

  /** Outside a recording nothing is held. */
  predicate Settled(v: SessionView)
  {
    !v.recording ==> Released(v)
  }

  const Initial: SessionView := SessionView(false, "", None, false, false, false, None, 0, 0)

  /** startRecording: ignored while recording; refused without permission;
      otherwise recording with a fresh empty channel and the startup launched. */
  function Start(v: SessionView, permitted: bool): SessionView
  {
    if v.recording then v
    else if !permitted then v.(error := Some(PermissionDeniedMessage))
    else v.(recording := true, chan := Some([]), pendingStartups := v.pendingStartups + 1)
  }

  /** stopRecording: ignored unless recording; otherwise every resource is
      dropped and an engine release is requested. */
  function Stop(v: SessionView): SessionView
  {
    if !v.recording then v
    else v.(recording := false, hasRecorder := false, hasCaptureJob := false, hasInferJob := false,
            chan := None, engineReleases := v.engineReleases + 1)
  }

  /** The startup coroutine's success path: recorder, capture and inference jobs
      installed, whatever the session has done meanwhile. */
  function StartupSucceeded(v: SessionView): SessionView
    requires v.pendingStartups > 0
  {
    v.(hasRecorder := true, hasCaptureJob := true, hasInferJob := true,
       pendingStartups := v.pendingStartups - 1)
  }

  /** The startup coroutine's catch block as written: record the message, clear
      the flag, then call stopRecording, whose guard now sees the flag cleared. */
  function StartupFailed(v: SessionView, message: Option<string>): SessionView
    requires v.pendingStartups > 0
  {
    Stop(v.(error := message, recording := false, pendingStartups := v.pendingStartups - 1))
  }

  /** The catch block with the clean-up it intends: stopRecording first. */
  function StartupFailedCorrected(v: SessionView, message: Option<string>): SessionView
    requires v.pendingStartups > 0
  {
    Stop(v.(pendingStartups := v.pendingStartups - 1)).(error := message, recording := false)
  }

  /** stopRecording once it also cancels the startup coroutine still running:
      no startup is left to finish after the stop. */
  function StopCorrected(v: SessionView): SessionView
  {
    if !v.recording then v else Stop(v).(pendingStartups := 0)
  }

  /** With the corrections, a startup runs only inside the recording that
      launched it, at most one at a time, and before it finishes nothing is held
      but the channel. */
  predicate StartupCoherent(v: SessionView)
  {
    Settled(v) && v.pendingStartups <= 1 &&
    (v.pendingStartups == 1 ==> v.recording && !v.hasRecorder && !v.hasCaptureJob && !v.hasInferJob)
  }

  /** A second start while recording changes nothing; a start without
      permission only records the error and acquires nothing. */
  lemma StartGuards(v: SessionView, permitted: bool)
    ensures v.recording ==> Start(v, permitted) == v
    ensures !v.recording && !permitted ==>
              Start(v, permitted) == v.(error := Some(PermissionDeniedMessage)) && !Start(v, permitted).recording
    ensures !v.recording && permitted ==>
              Start(v, permitted).recording && Start(v, permitted).chan == Some([])
  {
  }

  /** Stop releases everything, leaves the transcript and error alone, and a
      second stop changes nothing. */
  lemma StopReleasesOnce(v: SessionView)
    ensures Released(Stop(v)) || !v.recording
    ensures !Stop(v).recording
    ensures Stop(v).transcript == v.transcript && Stop(v).error == v.error
    ensures Stop(Stop(v)) == Stop(v)
    ensures !v.recording ==> Stop(v) == v
  {
  }

  // ───────────────────────────── Runs of events ─────────────────────────────

  datatype Event =
    | StartEvent(permitted: bool)
    | StopEvent
    | StartupEvent(outcome: StartupOutcome)
    | ClearEvent
    | SetErrorEvent(message: string)

  /** One lifecycle event as the code is written; a startup event with no
      startup running changes nothing. */
  function Next(v: SessionView, e: Event): SessionView
  {
    match e
    case StartEvent(permitted) => Start(v, permitted)
    case StopEvent => Stop(v)
    case StartupEvent(outcome) =>
      if v.pendingStartups == 0 then v
      else if outcome.SetupSucceeded? then StartupSucceeded(v)
      else StartupFailed(v, FailureMessage(outcome))
    case ClearEvent => v.(transcript := "")
    case SetErrorEvent(message) => v.(error := Some(message))
  }

  /** One lifecycle event with both startup defects corrected. */
  function NextCorrected(v: SessionView, e: Event): SessionView
  {
    match e
    case StopEvent => StopCorrected(v)
    case StartupEvent(outcome) =>
      if v.pendingStartups == 0 then v
      else if outcome.SetupSucceeded? then StartupSucceeded(v)
      else StartupFailedCorrected(v, FailureMessage(outcome))
    case _ => Next(v, e)
  }

  function Run(v: SessionView, events: seq<Event>): SessionView
    decreases |events|
  {
    if events == [] then v else Run(Next(v, events[0]), events[1..])
  }

  function RunCorrected(v: SessionView, events: seq<Event>): SessionView
    decreases |events|
  {
    if events == [] then v else RunCorrected(NextCorrected(v, events[0]), events[1..])
  }

  /** As written, a recording session always has its frame channel, whatever
      the order of starts, stops and startup outcomes. */
  lemma {:induction false} RunKeepsChannelWhileRecording(v: SessionView, events: seq<Event>)
    requires v.recording ==> v.chan.Some?
    ensures Run(v, events).recording ==> Run(v, events).chan.Some?
    decreases |events|
  {
    if events != [] {
      RunKeepsChannelWhileRecording(Next(v, events[0]), events[1..]);
    }
  }

  /** With both defects corrected, nothing is ever held outside a recording, and
      no startup outlives its recording or installs over another one. */
  lemma {:induction false} CorrectedRunStaysSettled(v: SessionView, events: seq<Event>)
    requires StartupCoherent(v)
    ensures Settled(RunCorrected(v, events)) && StartupCoherent(RunCorrected(v, events))
    decreases |events|
  {
    if events != [] {
      CorrectedRunStaysSettled(NextCorrected(v, events[0]), events[1..]);
    }
  }

  /** Defect 1, as written: a startup that fails leaves the session stopped but
      its frame channel installed, and stopRecording cannot remove it. */
  lemma FailedStartupLeaksChannel(message: Option<string>)
    ensures var v := StartupFailed(Start(Initial, true), message);
            !v.recording && v.error == message && v.chan == Some([]) && !Settled(v) &&
            Stop(v) == v
  {
  }

  /** Defect 1, corrected: the failed startup leaves nothing behind. */
  lemma FailedStartupCorrectedReleases(message: Option<string>)
    ensures var v := StartupFailedCorrected(Start(Initial, true), message);
            !v.recording && v.error == message && Released(v)
  {
  }

  /** Defect 2, as written: a stop that comes while the model is still loading
      is followed by the startup installing the recorder and both jobs into a
      stopped session, where stopRecording cannot reach them. */
  lemma StopDuringStartupLeaksRecorder()
    ensures var v := StartupSucceeded(Stop(Start(Initial, true)));
            !v.recording && v.hasRecorder && v.hasCaptureJob && v.hasInferJob &&
            Stop(v) == v
  {
  }

  /** Defect 2, as written, across two recordings: start, stop, start again, and
      one startup finishes; the other is still pending and will install a second
      recorder over the first. */
  lemma StopThenRestartLeavesTwoStartups()
    ensures var v := Next(Next(Next(Next(Initial, StartEvent(true)), StopEvent), StartEvent(true)),
                          StartupEvent(SetupSucceeded));
            v.recording && v.hasRecorder && v.pendingStartups == 1
  {
  }

  /** Defect 2, corrected: the stop cancels the startup, so no startup is left
      to install anything, and a later startup event changes nothing. */
  lemma StopDuringStartupCorrectedReleases()
    ensures var v := NextCorrected(Start(Initial, true), StopEvent);
            !v.recording && Released(v) && v.pendingStartups == 0 &&
            NextCorrected(v, StartupEvent(SetupSucceeded)) == v
    ensures var v := Next(Next(Next(Initial, StartEvent(true)), StopEvent), StartEvent(true));
            var w := NextCorrected(NextCorrected(NextCorrected(Initial, StartEvent(true)), StopEvent), StartEvent(true));
            v.pendingStartups == 2 && w.pendingStartups == 1
  {
  }

  // ───────────────────────────── Objects ─────────────────────────────

  /** An AudioRecord: created and started by the startup coroutine. */
  class Recorder {
    var recording: bool
    var released: bool

    /** AudioRecord(...).apply { startRecording() } */
    constructor ()
      ensures recording && !released
    {
      recording := true;
      released := false;
    }

    method Stop()
      modifies this
      ensures !recording && released == old(released)
    {
      recording := false;
    }

    method Release()
      modifies this
      ensures !recording && released
    {
      recording := false;
      released := true;
    }
  }

  /** The capture coroutine, with the float buffer it reuses on every read. */
  class CaptureJob {
    var active: bool
    const floatBuf: array<real>

    /** FloatArray(shortBuf.size): zero-filled. */
    constructor ()
      ensures active && fresh(floatBuf) && floatBuf.Length == FrameSize
      ensures forall i :: 0 <= i < FrameSize ==> floatBuf[i] == 0.0
    {
      active := true;
      floatBuf := new real[FrameSize](_ => 0.0);
    }

    method Cancel()
      modifies this
      ensures !active
    {
      active := false;
    }
  }

  /** The inference coroutine, bound to the channel it found when it started;
      with no channel (`frameChan?.let` on null) it ends at once. */
  class InferJob {
    var active: bool
    const chan: Channel.BoundedChannel?<Pcm>

    constructor (c: Channel.BoundedChannel?<Pcm>)
      ensures chan == c && active == (c != null)
    {
      chan := c;
      active := c != null;
    }

    method Cancel()
      modifies this
      ensures !active
    {
      active := false;
    }
  }

  class WhisperViewModel {
    var isRecording: bool
    var transcript: string
    var error: Option<string>
    var recorder: Recorder?
    var captureJob: CaptureJob?
    var inferJob: InferJob?
    var frameChan: Channel.BoundedChannel?<Pcm>
    /** Startup coroutines launched on viewModelScope and not finished yet. */
    var pendingStartups: nat
    /** Engine releases launched by stopRecording. */
    var engineReleases: nat

    ghost predicate Valid()
      reads this, frameChan, inferJob, if inferJob != null then {inferJob.chan} else {}
    {
      (frameChan != null ==>
         frameChan.Valid() && frameChan.capacity == ChannelCapacity && !frameChan.closed) &&
      (isRecording ==> frameChan != null) &&
      (captureJob != null ==> captureJob.floatBuf.Length == FrameSize) &&
      (inferJob != null && inferJob.active ==> inferJob.chan != null) &&
      (inferJob != null && inferJob.chan != null ==> inferJob.chan.Valid())
    }

    function View(): SessionView
      reads this, frameChan
    {
      SessionView(isRecording, transcript, error, recorder != null, captureJob != null, inferJob != null,
           if frameChan == null then None else Some(frameChan.buffered),
           pendingStartups, engineReleases)
    }

    /** The capture loop's condition: `isActive && recorder?.recordingState == RECORDING`. */
    predicate CaptureRunning()
      reads this, captureJob, recorder
    {
      captureJob != null && captureJob.active && recorder != null && recorder.recording
    }

    constructor ()
      ensures Valid() && View() == Initial
    {
      isRecording := false;
      transcript := "";
      error := None;
      recorder := null;
      captureJob := null;
      inferJob := null;
      frameChan := null;
      pendingStartups := 0;
      engineReleases := 0;
    }

    /** startRecording's synchronous part; `permitted` is the RECORD_AUDIO check. */
    method StartRecording(permitted: bool)
      requires Valid()
      modifies this
      ensures Valid() && View() == Start(old(View()), permitted)
      ensures recorder == old(recorder) && captureJob == old(captureJob) && inferJob == old(inferJob)
      ensures !old(isRecording) && permitted ==> fresh(frameChan)
      ensures old(isRecording) || !permitted ==> frameChan == old(frameChan)
    {
      if isRecording {
        return;
      }
      if !permitted {
        error := Some(PermissionDeniedMessage);
        return;
      }
      isRecording := true;
      frameChan := new Channel.BoundedChannel<Pcm>(ChannelCapacity);
      pendingStartups := pendingStartups + 1;
    }

    /** The startup coroutine, from model loading to launching both jobs, or its catch block. */
    method FinishStartup(outcome: StartupOutcome)
      requires Valid() && pendingStartups > 0
      modifies this, recorder, captureJob, inferJob, frameChan
      ensures Valid()
      ensures old(recorder) != null ==> unchanged(old(recorder))
      ensures old(captureJob) != null ==> unchanged(old(captureJob))
      ensures old(inferJob) != null ==> unchanged(old(inferJob))
      ensures frameChan == old(frameChan) && (frameChan != null ==> unchanged(frameChan))
      ensures outcome.SetupSucceeded? ==>
                View() == StartupSucceeded(old(View())) &&
                fresh(recorder) && recorder.recording && !recorder.released &&
                fresh(captureJob) && fresh(captureJob.floatBuf) && captureJob.active &&
                captureJob.floatBuf[..] == seq(FrameSize, _ => 0.0) &&
                fresh(inferJob) && inferJob.chan == frameChan && inferJob.active == (frameChan != null)
      ensures !outcome.SetupSucceeded? ==>
                View() == StartupFailed(old(View()), FailureMessage(outcome)) &&
                recorder == old(recorder) && captureJob == old(captureJob) && inferJob == old(inferJob)
    {
      pendingStartups := pendingStartups - 1;
      if outcome.SetupSucceeded? {
        recorder := new Recorder();
        captureJob := new CaptureJob();
        assert captureJob.floatBuf[..] == seq(FrameSize, _ => 0.0);
        inferJob := new InferJob(frameChan);
      } else {
        error := FailureMessage(outcome);
        isRecording := false;
        StopRecording();
      }
    }

    /** stopRecording. */
    method StopRecording()
      requires Valid()
      modifies this, recorder, captureJob, inferJob, frameChan
      ensures Valid() && View() == Stop(old(View()))
      ensures !old(isRecording) ==>
                unchanged(this) && (recorder != null ==> unchanged(recorder)) &&
                (captureJob != null ==> unchanged(captureJob)) && (inferJob != null ==> unchanged(inferJob)) &&
                (frameChan != null ==> unchanged(frameChan))
      ensures old(isRecording) ==>
                recorder == null && captureJob == null && inferJob == null && frameChan == null &&
                (old(recorder) != null ==> old(recorder).released && !old(recorder).recording) &&
                (old(captureJob) != null ==> !old(captureJob).active) &&
                (old(inferJob) != null ==> !old(inferJob).active) &&
                old(frameChan).closed
    {
      if !isRecording {
        return;
      }
      isRecording := false;
      if captureJob != null {
        captureJob.Cancel();
      }
      captureJob := null;
      if inferJob != null {
        inferJob.Cancel();
      }
      inferJob := null;
      if recorder != null {
        recorder.Stop();
        recorder.Release();
      }
      recorder := null;
      if frameChan != null {
        frameChan.Close();
      }
      frameChan := null;
      engineReleases := engineReleases + 1;
    }

    /** onCleared: the same clean-up as stopRecording. */
    method OnCleared()
      requires Valid()
      modifies this, recorder, captureJob, inferJob, frameChan
      ensures Valid() && View() == Stop(old(View()))
      ensures !old(isRecording) ==>
                unchanged(this) && (recorder != null ==> unchanged(recorder)) &&
                (captureJob != null ==> unchanged(captureJob)) && (inferJob != null ==> unchanged(inferJob)) &&
                (frameChan != null ==> unchanged(frameChan))
      ensures old(isRecording) ==>
                recorder == null && captureJob == null && inferJob == null && frameChan == null &&
                (old(recorder) != null ==> old(recorder).released && !old(recorder).recording) &&
                (old(captureJob) != null ==> !old(captureJob).active) &&
                (old(inferJob) != null ==> !old(inferJob).active) &&
                old(frameChan).closed
    {
      StopRecording();
    }

    /** clearTranscript: only the transcript changes. */
    method ClearTranscript()
      modifies this`transcript
      ensures transcript == ""
    {
      transcript := "";
    }

    /** setError: only the error changes. */
    method SetError(message: string)
      modifies this`error
      ensures error == Some(message)
    {
      error := Some(message);
    }

    /**
     * One iteration of the capture loop. `samples` is what recorder.read
     * delivered (empty for a zero or negative return). The loop ends when its
     * condition fails; otherwise the samples overwrite the front of the reused
     * buffer and a copy of the whole buffer is offered without blocking.
     */
    method CaptureStep(samples: seq<int16>) returns (sent: bool)
      requires Valid() && captureJob != null && |samples| <= FrameSize
      modifies captureJob, captureJob.floatBuf, frameChan
      ensures Valid()
      ensures !old(CaptureRunning()) ==>
                !sent && !captureJob.active &&
                unchanged(captureJob.floatBuf) && (frameChan != null ==> unchanged(frameChan))
      ensures old(CaptureRunning()) ==>
                captureJob.active && captureJob.floatBuf[..] == Refill(old(captureJob.floatBuf[..]), samples)
      ensures sent <==> old(CaptureRunning()) && |samples| > 0 && frameChan != null &&
                        |old(frameChan.buffered)| < ChannelCapacity
      ensures frameChan != null ==>
                frameChan.buffered == (if sent then old(frameChan.buffered) + [captureJob.floatBuf[..]]
                                       else old(frameChan.buffered)) &&
                !frameChan.closed
    {
      if !CaptureRunning() {
        captureJob.Cancel();
        return false;
      }
      var buf := captureJob.floatBuf;
      var n := |samples|;
      sent := false;
      if n > 0 {
        for i := 0 to n
          modifies buf
          invariant forall k :: 0 <= k < i ==> buf[k] == ToSample(samples[k])
          invariant forall k :: i <= k < buf.Length ==> buf[k] == old(buf[k])
        {
          buf[i] := ToSample(samples[i]);
        }
        if frameChan != null {
          sent := frameChan.TrySend(buf[..]);
        }
      }
      assert buf[..] == Refill(old(buf[..]), samples);
    }

    /**
     * One iteration of the inference loop over the channel it is bound to.
     * `transcribe` is what WhisperBridge.transcribe answers for a frame.
     * The oldest frame is taken; a non-blank answer is appended to the transcript.
     * With no frame there is nothing to do, and a closed, drained channel ends the loop.
     */
    method InferStep(transcribe: Pcm -> string) returns (frame: Option<Pcm>)
      requires Valid() && inferJob != null
      modifies this`transcript, inferJob, inferJob.chan
      ensures Valid()
      ensures var took := old(inferJob.active) && inferJob.chan != null && old(inferJob.chan.buffered) != [];
              (took ==>
                 frame == Some(old(inferJob.chan.buffered)[0]) &&
                 inferJob.chan.buffered == old(inferJob.chan.buffered)[1..] &&
                 transcript == AppendIfNotBlank(old(transcript), transcribe(frame.value))) &&
              (!took ==>
                 frame.None? && transcript == old(transcript) &&
                 (inferJob.chan != null ==> inferJob.chan.buffered == old(inferJob.chan.buffered)))
      ensures inferJob.chan != null ==> inferJob.chan.closed == old(inferJob.chan.closed)
      ensures inferJob.active ==
                (old(inferJob.active) && inferJob.chan != null &&
                 !(old(inferJob.chan.buffered) == [] && inferJob.chan.closed))
    {
      var chan := inferJob.chan;
      if !inferJob.active || chan == null {
        return None;
      }
      frame := chan.TryReceive();
      if frame.None? {
        if chan.closed {
          inferJob.Cancel();
        }
        return;
      }
      var text := transcribe(frame.value);
      if !IsBlank(text) {
        transcript := transcript + text;
      }
    }
  }

  // ───────────────────────────── Sessions run end to end ─────────────────────────────

  /** Without microphone permission the error is set and nothing starts. */
  method StartWithoutPermission() returns (recording: bool, err: Option<string>, hasChannel: bool)
    ensures !recording && err == Some(PermissionDeniedMessage) && !hasChannel
  {
    var vm := new WhisperViewModel();
    vm.StartRecording(false);
    recording, err, hasChannel := vm.isRecording, vm.error, vm.frameChan != null;
  }

  /** Defect 1 on the object: after a failed startup and a stop, the session is
      stopped but its channel is still installed and open. */
  method FailedStartupThenStop(message: Option<string>) returns (recording: bool, err: Option<string>, channelOpen: bool)
    ensures !recording && err == message && channelOpen
  {
    var vm := new WhisperViewModel();
    vm.StartRecording(true);
    vm.FinishStartup(SetupThrew(message));
    vm.StopRecording();
    recording, err := vm.isRecording, vm.error;
    channelOpen := vm.frameChan != null && !vm.frameChan.closed;
  }

  /** Defect 2 on the object: stopping before the startup finishes leaves a
      started recorder and a running capture job behind a stopped session. */
  method StopBeforeStartupFinishes() returns (recording: bool, micOpen: bool, capturing: bool)
    ensures !recording && micOpen && capturing
  {
    var vm := new WhisperViewModel();
    vm.StartRecording(true);
    vm.StopRecording();
    vm.FinishStartup(SetupSucceeded);
    vm.StopRecording();
    recording := vm.isRecording;
    micOpen := vm.recorder != null && vm.recorder.recording;
    capturing := vm.CaptureRunning();
  }

  /** Queued frames are copies: refilling the buffer for the second frame leaves
      the first queued frame as it was. */
  method QueuedFramesAreCopies(a: seq<int16>, b: seq<int16>) returns (queued: seq<Pcm>)
    requires |a| == FrameSize && |b| == FrameSize
    ensures queued == [Normalize(a), Normalize(b)]
  {
    var vm := new WhisperViewModel();
    vm.StartRecording(true);
    vm.FinishStartup(SetupSucceeded);
    ghost var before := vm.captureJob.floatBuf[..];
    var sent1 := vm.CaptureStep(a);
    ShortReadKeepsStaleTail(before, a);
    before := vm.captureJob.floatBuf[..];
    var sent2 := vm.CaptureStep(b);
    ShortReadKeepsStaleTail(before, b);
    queued := vm.frameChan.buffered;
  }

  /** The buffer starts zero-filled, so the first short read queues its samples
      followed by zeros. */
  method FirstShortReadPadsWithZeros(a: seq<int16>) returns (queued: seq<Pcm>)
    requires 0 < |a| < FrameSize
    ensures queued == [Normalize(a) + seq(FrameSize - |a|, _ => 0.0)]
  {
    var vm := new WhisperViewModel();
    vm.StartRecording(true);
    vm.FinishStartup(SetupSucceeded);
    ghost var before := vm.captureJob.floatBuf[..];
    var sent := vm.CaptureStep(a);
    ShortReadKeepsStaleTail(before, a);
    assert before[|a|..] == seq(FrameSize - |a|, _ => 0.0);
    queued := vm.frameChan.buffered;
  }

  /** With four frames waiting, a fifth is dropped and the queue keeps the first four. */
  method FifthFrameDropped(f: seq<seq<int16>>) returns (queued: seq<Pcm>, sent: bool)
    requires |f| == 5 && forall i :: 0 <= i < 5 ==> |f[i]| == FrameSize
    ensures !sent && queued == [Normalize(f[0]), Normalize(f[1]), Normalize(f[2]), Normalize(f[3])]
  {
    var vm := new WhisperViewModel();
    vm.StartRecording(true);
    vm.FinishStartup(SetupSucceeded);
    var i := 0;
    while i < 4
      invariant 0 <= i <= 4
      invariant vm.Valid() && vm.CaptureRunning() && vm.frameChan != null
      invariant vm.frameChan.buffered == seq(i, k requires 0 <= k < i => Normalize(f[k]))
      modifies vm.captureJob, vm.captureJob.floatBuf, vm.frameChan
    {
      ghost var before := vm.captureJob.floatBuf[..];
      var s := vm.CaptureStep(f[i]);
      ShortReadKeepsStaleTail(before, f[i]);
      i := i + 1;
    }
    sent := vm.CaptureStep(f[4]);
    queued := vm.frameChan.buffered;
  }

  /** A captured frame reaches the transcript through the inference step,
      appended only if the engine's answer is not blank. */
  method CaptureThenInfer(a: seq<int16>, transcribe: Pcm -> string) returns (transcript: string)
    requires |a| == FrameSize
    ensures transcript == AppendIfNotBlank("", transcribe(Normalize(a)))
  {
    var vm := new WhisperViewModel();
    vm.StartRecording(true);
    vm.FinishStartup(SetupSucceeded);
    ghost var before := vm.captureJob.floatBuf[..];
    var sent := vm.CaptureStep(a);
    ShortReadKeepsStaleTail(before, a);
    var frame := vm.InferStep(transcribe);
    transcript := vm.transcript;
  }
}
