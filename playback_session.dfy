/**
  The Java module's playback session: readiness and the queued init promises,
  the single-thread speech worker, the engine callbacks that open, feed and
  release the output track, `stop()`, audio focus, and the adaptive gain the
  session keeps between utterances.

  The lock, the two conditions and the executor are not modelled as such.
  Every step the source performs while holding the lock is one atomic method,
  and the order those primitives impose becomes preconditions: the worker
  starts only when no earlier utterance is waiting, it wakes only while it
  waits, and the engine's callbacks arrive only while an utterance it accepted
  is in flight.  Framework calls whose answers decide a branch (the focus
  request, `synthesizeToFile`, `tts.stop()`, `AudioTrack` creation and
  `write`) are parameters.
*/
module PlaybackSession {
  import opened JavaInts
  import opened JavaText
  import opened AdaptiveGain
  import opened Status

  /** `AudioTrack.ERROR` and `AudioTrack.ERROR_BAD_VALUE`, the failures of `getMinBufferSize`. */
  const TRACK_ERROR: int := -1
  const TRACK_ERROR_BAD_VALUE: int := -2
  /** The buffer size used when the platform reports no minimum. */
  const FALLBACK_BUFFER_SIZE: int := 4096

  /** An open output track: its buffer size, whether it initialized, whether `play()` succeeded. */
  datatype Track = Track(bufferSize: int, initialized: bool, playing: bool)

  /** What the platform does when `onBeginSynthesis` builds the track and starts it. */
  datatype TrackCreation =
    | ConstructorThrows              // `new AudioTrack(...)` throws IllegalArgumentException
    | Uninitialized                  // created, but its state is not STATE_INITIALIZED
    | Initialized(playThrows: bool)  // created; `play()` may throw IllegalStateException

  /** An utterance handed to the executor, with the id `speak` computed for it. */
  datatype Request = Request(utterance: string, utteranceId: string)

  /** Where the write loop stopped, and whether it stopped on a count of zero or less. */
  datatype WriteOutcome = WriteOutcome(offset: nat, failed: bool)

  /** The buffer size handed to the track: the platform minimum, or 4096 when it reports an error. */
  function BufferSize(minBufferSize: int): (size: int)
    ensures size != TRACK_ERROR && size != TRACK_ERROR_BAD_VALUE
    ensures size == minBufferSize || size == FALLBACK_BUFFER_SIZE
  {
    if minBufferSize == TRACK_ERROR_BAD_VALUE || minBufferSize == TRACK_ERROR then FALLBACK_BUFFER_SIZE
    else minBufferSize
  }

  // ---------------------------------------------------------------------------
  // The write loop of onAudioAvailable
  // ---------------------------------------------------------------------------

  /**
    The partial-write loop from `offset` on, over a buffer of `n` bytes.
    `write(offset, size)` is the count `AudioTrack.write` returns when asked
    for `size` bytes starting at `offset`; within one loop the offsets only
    grow, so one function of both covers every device.  The loop ends when
    the offset reaches `n`, or fails on the first count that is not positive.
  */
  function Drain(n: nat, write: (nat, nat) -> int, offset: nat): (r: WriteOutcome)
    decreases n - offset
    ensures r.offset >= offset
    ensures r.failed <==> r.offset < n
    ensures r.failed ==> write(r.offset, n - r.offset) <= 0
  {
    if offset >= n then WriteOutcome(offset, false)
    else
      var written := write(offset, n - offset);
      if written <= 0 then WriteOutcome(offset, true)
      else Drain(n, write, offset + written)
  }

  /** A device that never reports more than it was asked for leaves a successful loop exactly at the end. */
  lemma {:induction false} DrainStopsAtEnd(n: nat, write: (nat, nat) -> int, offset: nat)
    requires offset <= n
    requires forall o: nat, size: nat :: write(o, size) <= size
    ensures Drain(n, write, offset).offset <= n
    ensures !Drain(n, write, offset).failed ==> Drain(n, write, offset).offset == n
    decreases n - offset
  {
    if offset < n {
      var written := write(offset, n - offset);
      if written > 0 {
        DrainStopsAtEnd(n, write, offset + written);
      }
    }
  }

  /** A device that accepts at least one byte of every non-empty request never makes the loop fail. */
  lemma {:induction false} DrainDeliversAll(n: nat, write: (nat, nat) -> int, offset: nat)
    requires forall o: nat, size: nat :: size > 0 ==> write(o, size) > 0
    ensures !Drain(n, write, offset).failed
    decreases n - offset
  {
    if offset < n {
      DrainDeliversAll(n, write, offset + write(offset, n - offset));
    }
  }

  /**
    The write loop itself: `write` is called with the current offset and the
    bytes still to go until the buffer is through or a call reports zero or
    less.
  */
  method WriteAll(n: nat, write: (nat, nat) -> int) returns (outcome: WriteOutcome)
    ensures outcome == Drain(n, write, 0)
  {
    var offset: nat := 0;
    while offset < n
      invariant Drain(n, write, offset) == Drain(n, write, 0)
      decreases n - offset
    {
      var written := write(offset, n - offset);
      if written <= 0 {
        return WriteOutcome(offset, true);
      }
      offset := offset + written;
    }
    outcome := WriteOutcome(offset, false);
  }

  // ---------------------------------------------------------------------------
  // Engine defaults and focus names
  // ---------------------------------------------------------------------------

  /** The engine is one of Google's: its lower-cased package name contains "com.google". */
  predicate IsGoogleEngine(engineName: Option<string>) {
    engineName.Some? && Contains(AsciiLower(engineName.value), "com.google")
  }

  /** The gain `setInitialAudioGain` starts an engine with: +4.5 dB for Google engines, unity otherwise. */
  function EngineDefaultGain(engineName: Option<string>): (g: int)
    ensures ValidGain(g)
    ensures g == GOOGLE_GAIN <==> IsGoogleEngine(engineName)
    ensures g == UNITY <==> !IsGoogleEngine(engineName)
  {
    if IsGoogleEngine(engineName) then GOOGLE_GAIN else UNITY
  }

  lemma LowerCharIdempotent(c: char)
    ensures LowerChar(LowerChar(c)) == LowerChar(c)
  {
  }

  /** The test ignores the case of ASCII letters: lower-casing the name first changes nothing. */
  lemma EngineDefaultGainIgnoresCase(name: string)
    ensures EngineDefaultGain(Some(AsciiLower(name))) == EngineDefaultGain(Some(name))
  {
    var once := AsciiLower(name);
    forall k | 0 <= k < |name|
      ensures AsciiLower(once)[k] == once[k]
    {
      LowerCharIdempotent(name[k]);
    }
    assert AsciiLower(once) == once;
  }

  /** `audioFocusResultToString`. */
  function FocusResultName(result: int): (name: string)
    ensures name != []
  {
    if result == AUDIOFOCUS_REQUEST_FAILED then "AUDIOFOCUS_REQUEST_FAILED"
    else if result == AUDIOFOCUS_REQUEST_GRANTED then "AUDIOFOCUS_REQUEST_GRANTED"
    else if result == AUDIOFOCUS_REQUEST_DELAYED then "AUDIOFOCUS_REQUEST_DELAYED"
    else "Unknown audio focus result: " + DecimalString(result)
  }

  /** Distinct focus results get distinct names, unknown ones included. */
  lemma FocusResultNameInjective(a: int, b: int)
    ensures FocusResultName(a) == FocusResultName(b) <==> a == b
  {
    var known := {AUDIOFOCUS_REQUEST_FAILED, AUDIOFOCUS_REQUEST_GRANTED, AUDIOFOCUS_REQUEST_DELAYED};
    var prefix := "Unknown audio focus result: ";
    if a != b {
      if a in known && b in known {
        assert FocusResultName(a)[19] != FocusResultName(b)[19];
      } else if a in known || b in known {
        assert FocusResultName(a)[0] != FocusResultName(b)[0];
      } else {
        assert FocusResultName(a)[|prefix|..] == DecimalString(a);
        assert FocusResultName(b)[|prefix|..] == DecimalString(b);
        DecimalInjective(a, b);
      }
    }
  }

  /** `resolveReadyPromise`: "success" once the engine is ready, "not_ready" otherwise. */
  function ReadySettlement(ready: bool): (s: Settlement)
    ensures s.Resolve? <==> ready
    ensures ready ==> s == Resolve("success")
    ensures !ready ==> s == Reject("not_ready", "TTS is not ready")
  {
    if ready then Resolve("success") else Reject("not_ready", "TTS is not ready")
  }

  // ---------------------------------------------------------------------------
  // The module
  // ---------------------------------------------------------------------------

  class TextToSpeechModule {
    // Readiness of the engine, and the callers waiting for it.
    var ready: bool
    var initStatusPromises: seq<PromiseId>
    /** The promise of a `setDefaultEngine` call, settled by the new engine's init callback. */
    var pendingEnginePromise: Option<PromiseId>
    var currentEngineName: Option<string>

    var useAudioFocus: bool
    var audioFocus: int

    // The session.
    var isTtsIdle: bool
    var stopRequest: bool
    var playingUtteranceId: string
    var playingUtterance: string
    var audioTrack: Option<Track>

    // The adaptive gain.
    var audioGain: int
    var largestSample: int

    /** The utterances handed to the executor and not yet taken up by the worker. */
    var pending: seq<Request>
    /** The worker has started an utterance the engine accepted and waits for the session to go idle. */
    var workerWaiting: bool

    /** The engine holds an accepted utterance whose terminal callback has not arrived yet. */
    ghost var synthesizing: bool
    /** `onBeginSynthesis` has been delivered for that utterance. */
    ghost var begun: bool
    ghost var engineStops: nat
    ghost var tracksCreated: nat
    ghost var tracksReleased: nat
    ghost var focusAbandons: nat

    /**
      The session invariant: the gain stays in range and the peak is a
      widened 16-bit magnitude; every track created is released once, and an
      open track belongs to the utterance in flight; an utterance is in flight
      exactly while the worker waits and the session is not idle; and once
      ready no init promise waits.
    */
    ghost predicate Valid()
      reads this
    {
      && ValidGain(audioGain)
      && ValidPeak(largestSample)
      && tracksCreated == tracksReleased + (if audioTrack.Some? then 1 else 0)
      && (audioTrack.Some? ==> synthesizing && begun)
      && (synthesizing <==> workerWaiting && !isTtsIdle)
      && (ready ==> initStatusPromises == [] && pendingEnginePromise == None)
    }

    /** Construction: a fresh engine that is not ready yet, an idle session, the engine's default gain. */
    constructor(defaultEngine: Option<string>)
      ensures Valid()
      ensures !ready && initStatusPromises == [] && pendingEnginePromise == None
      ensures currentEngineName == defaultEngine
      ensures useAudioFocus && audioFocus == AUDIOFOCUS_REQUEST_FAILED
      ensures isTtsIdle && !stopRequest && playingUtteranceId == "" && playingUtterance == ""
      ensures audioTrack == None && pending == [] && !workerWaiting
      ensures audioGain == EngineDefaultGain(defaultEngine) && largestSample == 0
      ensures !synthesizing && tracksCreated == 0 && tracksReleased == 0 && focusAbandons == 0 && engineStops == 0
    {
      ready := false;
      initStatusPromises := [];
      pendingEnginePromise := None;
      currentEngineName := defaultEngine;
      useAudioFocus := true;
      audioFocus := AUDIOFOCUS_REQUEST_FAILED;
      isTtsIdle := true;
      stopRequest := false;
      playingUtteranceId := "";
      playingUtterance := "";
      audioTrack := None;
      audioGain := GOOGLE_GAIN;
      largestSample := 0;
      pending := [];
      workerWaiting := false;
      synthesizing := false;
      begun := false;
      engineStops := 0;
      tracksCreated := 0;
      tracksReleased := 0;
      focusAbandons := 0;
      new;
      SetInitialAudioGain();
    }

    // -------------------------------------------------------------------------
    // Adaptive gain
    // -------------------------------------------------------------------------

    /** `setInitialAudioGain`: the engine's default gain, and the recorded peak cleared. */
    method SetInitialAudioGain()
      modifies this`audioGain, this`largestSample
      ensures audioGain == EngineDefaultGain(currentEngineName)
      ensures largestSample == 0
    {
      if currentEngineName.Some? && Contains(AsciiLower(currentEngineName.value), "com.google") {
        audioGain := GOOGLE_GAIN;
      } else {
        audioGain := UNITY;
      }
      largestSample := 0;
    }

    /** `updateAudioGain`: the gain recalibrated from the recorded peak. */
    method UpdateAudioGain()
      requires ValidPeak(largestSample)
      modifies this`audioGain
      ensures audioGain == RecalibratedGain(largestSample, old(audioGain))
    {
      if largestSample != 0 {
        assert largestSample * CLIP_REGION >= 512 * CLIP_REGION;
        audioGain := (UNITY * UNITY) / ((largestSample * CLIP_REGION) / UNITY);
        if audioGain > GAIN_MAX {
          audioGain := GAIN_MAX;
        } else if audioGain < GAIN_MIN {
          audioGain := GAIN_MIN;
        }
      }
    }

    /**
      `processGain`: every widened sample multiplied by the gain in place, and
      the largest magnitude seen before the gain recorded.
    */
    method ProcessGain(samples: array<int>)
      modifies samples, this`largestSample
      ensures samples[..] == GainAll(old(samples[..]), audioGain)
      ensures largestSample == Peak(old(largestSample), old(samples[..]))
    {
      ghost var input := samples[..];
      for i := 0 to samples.Length
        invariant forall k :: 0 <= k < i ==> samples[k] == ApplyGain(input[k], audioGain)
        invariant forall k :: i <= k < samples.Length ==> samples[k] == input[k]
        invariant largestSample == Peak(old(largestSample), input[..i])
      {
        var sample := samples[i];
        samples[i] := (sample * audioGain) / UNITY;
        if sample < 0 {
          sample := -sample;
        }
        if sample > largestSample {
          largestSample := sample;
        }
        assert input[..i + 1][..i] == input[..i];
      }
      assert input[..samples.Length] == input;
      assert samples[..] == GainAll(input, audioGain);
    }

    /**
      `processAudio`: the buffer decoded into widened samples, gained, and
      written back with the hard clamp, in place.
    */
    method ProcessAudio(audio: array<JByte>)
      modifies audio, this`largestSample
      ensures audio[..] == ProcessedAudio(old(audio[..]), audioGain)
      ensures largestSample == Peak(old(largestSample), Widened(old(audio[..])))
    {
      ghost var input := audio[..];
      var samples := new int[audio.Length / 2];
      for i := 0 to samples.Length
        modifies samples
        invariant forall k :: 0 <= k < i ==> samples[k] == Widen(SampleAt(input, k))
      {
        var j := 2 * i;
        var sample: int := DecodeSample(audio[j + 1], audio[j]);
        samples[i] := sample * 512;
      }
      assert samples[..] == Widened(input);
      ProcessGain(samples);
      assert audio[..] == input;
      WriteBack(audio, samples, audioGain);
    }

    /**
      The second loop of `processAudio`: each gained sample narrowed, clamped
      and written back over the two bytes it came from, high byte first.
    */
    static method WriteBack(audio: array<JByte>, samples: array<int>, gain: int)
      requires samples.Length == audio.Length / 2
      requires samples[..] == GainAll(Widened(audio[..]), gain)
      modifies audio
      ensures audio[..] == ProcessedAudio(old(audio[..]), gain)
    {
      ghost var input := audio[..];
      ghost var outs := SamplesOut(input, gain);
      for i := 0 to samples.Length
        invariant WrittenUpTo(audio[..], input, outs, i)
      {
        var j := 2 * i;
        var sample := HardClamp(Narrow(samples[i]));
        assert samples[i] == GainAll(Widened(input), gain)[i];
        assert sample == outs[i];
        ghost var before: seq<JByte> := audio[..];
        audio[j + 1] := HighByte(sample);
        audio[j] := LowByte(sample);
        WrittenUpToStep(before, input, outs, i);
        assert audio[..] == before[j + 1 := HighByte(sample)][j := LowByte(sample)];
      }
      WrittenUpToComplete(audio[..], input, gain);
    }

    // -------------------------------------------------------------------------
    // Readiness
    // -------------------------------------------------------------------------

    /** `getInitStatus`: queued while the engine is not ready, settled at once otherwise. */
    method GetInitStatus(p: PromiseId) returns (settled: Option<Settlement>)
      requires Valid()
      modifies this`initStatusPromises
      ensures Valid()
      ensures !ready ==> settled == None && initStatusPromises == old(initStatusPromises) + [p]
      ensures ready ==> settled == Some(Resolve("success")) && initStatusPromises == old(initStatusPromises)
    {
      if !ready {
        initStatusPromises := initStatusPromises + [p];
        settled := None;
      } else {
        settled := Some(ReadySettlement(ready));
      }
    }

    /**
      The engine's init callback: readiness is the status, every queued
      promise is settled in order and the list is emptied; after an engine
      change the caller of `setDefaultEngine` learns the readiness last.
    */
    method OnInit(status: int) returns (settled: seq<(PromiseId, Settlement)>)
      requires Valid()
      modifies this`ready, this`initStatusPromises, this`pendingEnginePromise
      ensures Valid()
      ensures ready == (status == SUCCESS)
      ensures initStatusPromises == [] && pendingEnginePromise == None
      ensures |settled| == |old(initStatusPromises)| + (if old(pendingEnginePromise).Some? then 1 else 0)
      ensures forall k :: 0 <= k < |old(initStatusPromises)| ==>
        settled[k] == (old(initStatusPromises)[k], ReadySettlement(ready))
      ensures old(pendingEnginePromise).Some? ==>
        settled[|settled| - 1] == (old(pendingEnginePromise).value, ResolveBool(ready))
    {
      ready := status == SUCCESS;
      settled := SettleAll(initStatusPromises, ReadySettlement(ready));
      initStatusPromises := [];
      if pendingEnginePromise.Some? {
        settled := settled + [(pendingEnginePromise.value, ResolveBool(ready))];
        pendingEnginePromise := None;
      }
    }

    // -------------------------------------------------------------------------
    // speak, the worker and stop
    // -------------------------------------------------------------------------

    /**
      `speak`: rejected when the engine is not ready, or without queuing when
      the same text (by id) is still being spoken; queued for the worker
      otherwise.
    */
    method Speak(text: string) returns (settled: Option<Settlement>)
      requires Valid()
      modifies this`pending
      ensures Valid()
      ensures settled == None <==> ready && (isTtsIdle || UtteranceId(text) != playingUtteranceId)
      ensures settled == None ==> pending == old(pending) + [Request(text, UtteranceId(text))]
      ensures settled != None ==> pending == old(pending)
      ensures !ready ==> settled == Some(Reject("not_ready", "TTS is not ready"))
      ensures ready && settled != None ==>
        settled == Some(RejectMessage("TTS is speaking: " + playingUtterance + ", requested: " + text))
    {
      if !ready {
        return Some(ReadySettlement(ready));
      }
      var utteranceId := UtteranceId(text);
      if !isTtsIdle && utteranceId == playingUtteranceId {
        settled := Some(RejectMessage("TTS is speaking: " + playingUtterance + ", requested: " + text));
      } else {
        pending := pending + [Request(text, utteranceId)];
        settled := None;
      }
    }

    /**
      The worker takes the next utterance: the session becomes busy and any
      old stop request is dropped; focus is requested (a refusal only stops
      the engine, synthesis is still asked for); then the engine's answer to
      `synthesizeToFile` decides.  Accepted, the worker waits with the
      utterance playing; refused, the promise is settled from the status code
      and the session is left busy.
    */
    method WorkerStart(focusResult: int, synthResult: int) returns (settled: Option<Settlement>)
      requires Valid() && pending != [] && !workerWaiting
      modifies this`pending, this`isTtsIdle, this`stopRequest, this`audioFocus, this`engineStops
      modifies this`playingUtteranceId, this`playingUtterance, this`workerWaiting, this`synthesizing, this`begun
      ensures Valid()
      ensures pending == old(pending[1..])
      ensures !isTtsIdle && !stopRequest
      ensures audioFocus == (if useAudioFocus then focusResult else old(audioFocus))
      ensures engineStops == old(engineStops) + (if useAudioFocus && focusResult != AUDIOFOCUS_REQUEST_GRANTED then 1 else 0)
      ensures synthResult == SUCCESS ==>
        && settled == None && workerWaiting && synthesizing && !begun
        && playingUtterance == old(pending[0]).utterance && playingUtteranceId == old(pending[0]).utteranceId
      ensures synthResult != SUCCESS ==>
        && settled == Some(StatusSettlement(synthResult)) && !workerWaiting && !synthesizing
        && playingUtterance == old(playingUtterance) && playingUtteranceId == old(playingUtteranceId)
    {
      var request := pending[0];
      pending := pending[1..];
      isTtsIdle := false;
      stopRequest := false;
      RequestFocus(focusResult);
      if synthResult == SUCCESS {
        Accept(request);
        settled := None;
      } else {
        settled := Some(StatusSettlement(synthResult));
      }
    }

    /** The engine accepted the utterance: it becomes the playing one and the worker waits for it. */
    method Accept(request: Request)
      requires Valid() && !workerWaiting && !isTtsIdle
      modifies this`playingUtteranceId, this`playingUtterance, this`workerWaiting, this`synthesizing, this`begun
      ensures Valid()
      ensures workerWaiting && synthesizing && !begun
      ensures playingUtterance == request.utterance && playingUtteranceId == request.utteranceId
    {
      playingUtteranceId := request.utteranceId;
      playingUtterance := request.utterance;
      workerWaiting := true;
      synthesizing := true;
      begun := false;
    }

    /** `requestFocus`: with focus management on, the answer is recorded and a refusal stops the engine. */
    method RequestFocus(focusResult: int)
      modifies this`audioFocus, this`engineStops
      ensures audioFocus == (if useAudioFocus then focusResult else old(audioFocus))
      ensures engineStops == old(engineStops) + (if useAudioFocus && focusResult != AUDIOFOCUS_REQUEST_GRANTED then 1 else 0)
    {
      if useAudioFocus {
        audioFocus := focusResult;
        if audioFocus != AUDIOFOCUS_REQUEST_GRANTED {
          engineStops := engineStops + 1;
        }
      }
    }

    /**
      One wake-up of the waiting worker.  While the session is busy nothing
      happens.  Once it is idle, a pending stop request is acknowledged and
      cleared and the gain kept; without one the gain is recalibrated from the
      peak.  The worker then clears the playing utterance and resolves with
      its id, the one `WorkerStart` computed from the text.
    */
    method WorkerWake() returns (settled: Option<Settlement>, stopAcknowledged: bool)
      requires Valid() && workerWaiting
      modifies this`stopRequest, this`audioGain, this`playingUtteranceId, this`playingUtterance, this`workerWaiting
      ensures Valid()
      ensures !old(isTtsIdle) ==> settled == None && !stopAcknowledged && unchanged(this)
      ensures old(isTtsIdle) ==>
        && stopAcknowledged == old(stopRequest) && !stopRequest
        && audioGain == (if old(stopRequest) then old(audioGain) else RecalibratedGain(largestSample, old(audioGain)))
        && playingUtteranceId == "" && playingUtterance == "" && !workerWaiting
        && settled == Some(Resolve(old(playingUtteranceId)))
    {
      if !isTtsIdle {
        return None, false;
      }
      var utteranceId := playingUtteranceId;
      stopAcknowledged := stopRequest;
      if stopRequest {
        stopRequest := false;
      } else {
        UpdateAudioGain();
      }
      playingUtteranceId := "";
      playingUtterance := "";
      workerWaiting := false;
      settled := Some(Resolve(utteranceId));
    }

    /**
      `audioDone`: the open track is stopped and released, a granted focus is
      abandoned, and, unless called from `stop()`, the session becomes idle.
    */
    method AudioDone(interrupting: bool)
      modifies this`audioTrack, this`tracksReleased, this`audioFocus, this`focusAbandons, this`isTtsIdle
      ensures audioTrack == None
      ensures tracksReleased == old(tracksReleased) + (if old(audioTrack).Some? then 1 else 0)
      ensures audioFocus == (if useAudioFocus && old(audioFocus) == AUDIOFOCUS_REQUEST_GRANTED then AUDIOFOCUS_REQUEST_FAILED else old(audioFocus))
      ensures focusAbandons == old(focusAbandons) + (if useAudioFocus && old(audioFocus) == AUDIOFOCUS_REQUEST_GRANTED then 1 else 0)
      ensures isTtsIdle == (old(isTtsIdle) || !interrupting)
    {
      if audioTrack.Some? {
        audioTrack := None;
        tracksReleased := tracksReleased + 1;
      }
      if useAudioFocus && audioFocus == AUDIOFOCUS_REQUEST_GRANTED {
        audioFocus := AUDIOFOCUS_REQUEST_FAILED;
        focusAbandons := focusAbandons + 1;
      }
      if !isTtsIdle && !interrupting {
        isTtsIdle := true;
      }
    }

    /**
      `stop()`: the engine is stopped; when it agrees and the session is busy
      with no stop pending, the stop is requested and the audio torn down,
      while the session stays busy until the worker acknowledges.  Otherwise
      no session state changes.
    */
    method Stop(engineResult: int) returns (result: int)
      requires Valid()
      modifies this`stopRequest, this`engineStops, this`audioTrack, this`tracksReleased
      modifies this`audioFocus, this`focusAbandons, this`isTtsIdle
      ensures Valid()
      ensures result == engineResult
      ensures engineStops == old(engineStops) + 1
      ensures isTtsIdle == old(isTtsIdle)
      ensures !(engineResult == SUCCESS && !old(isTtsIdle) && !old(stopRequest)) ==>
        && stopRequest == old(stopRequest) && audioTrack == old(audioTrack) && audioFocus == old(audioFocus)
        && tracksReleased == old(tracksReleased) && focusAbandons == old(focusAbandons)
      ensures engineResult == SUCCESS && !old(isTtsIdle) && !old(stopRequest) ==>
        && stopRequest && audioTrack == None
        && audioFocus == (if useAudioFocus && old(audioFocus) == AUDIOFOCUS_REQUEST_GRANTED then AUDIOFOCUS_REQUEST_FAILED else old(audioFocus))
        && tracksReleased == old(tracksReleased) + (if old(audioTrack).Some? then 1 else 0)
        && focusAbandons == old(focusAbandons) + (if useAudioFocus && old(audioFocus) == AUDIOFOCUS_REQUEST_GRANTED then 1 else 0)
    {
      engineStops := engineStops + 1;
      result := engineResult;
      if result == SUCCESS && !isTtsIdle && !stopRequest {
        stopRequest := true;
        AudioDone(stopRequest);
      }
    }

    /** `stop(Promise)`: resolves true when the engine is not ready, else whether the engine stopped. */
    method StopCommand(engineResult: int) returns (settled: Settlement)
      requires Valid()
      modifies this`stopRequest, this`engineStops, this`audioTrack, this`tracksReleased
      modifies this`audioFocus, this`focusAbandons, this`isTtsIdle
      ensures Valid()
      ensures settled == ResolveBool(!ready || engineResult == SUCCESS)
      ensures !ready ==> unchanged(this)
      ensures ready ==> engineStops == old(engineStops) + 1 && isTtsIdle == old(isTtsIdle)
      ensures ready && !(engineResult == SUCCESS && !old(isTtsIdle) && !old(stopRequest)) ==>
        && stopRequest == old(stopRequest) && audioTrack == old(audioTrack) && audioFocus == old(audioFocus)
        && tracksReleased == old(tracksReleased) && focusAbandons == old(focusAbandons)
      ensures ready && engineResult == SUCCESS && !old(isTtsIdle) && !old(stopRequest) ==>
        && stopRequest && audioTrack == None
        && audioFocus == (if useAudioFocus && old(audioFocus) == AUDIOFOCUS_REQUEST_GRANTED then AUDIOFOCUS_REQUEST_FAILED else old(audioFocus))
        && tracksReleased == old(tracksReleased) + (if old(audioTrack).Some? then 1 else 0)
        && focusAbandons == old(focusAbandons) + (if useAudioFocus && old(audioFocus) == AUDIOFOCUS_REQUEST_GRANTED then 1 else 0)
    {
      var resultValue := true;
      if ready {
        var result := Stop(engineResult);
        resultValue := result == SUCCESS;
      }
      settled := ResolveBool(resultValue);
    }

    /** The focus listener: a loss of focus stops speech when focus management is on. */
    method OnFocusChange(focusChange: int, engineResult: int)
      requires Valid()
      modifies this`stopRequest, this`engineStops, this`audioTrack, this`tracksReleased
      modifies this`audioFocus, this`focusAbandons, this`isTtsIdle
      ensures Valid()
      ensures !(useAudioFocus && focusChange < 0) ==> unchanged(this)
      ensures useAudioFocus && focusChange < 0 ==> engineStops == old(engineStops) + 1 && isTtsIdle == old(isTtsIdle)
      ensures useAudioFocus && focusChange < 0 && !(engineResult == SUCCESS && !old(isTtsIdle) && !old(stopRequest)) ==>
        && stopRequest == old(stopRequest) && audioTrack == old(audioTrack) && audioFocus == old(audioFocus)
        && tracksReleased == old(tracksReleased) && focusAbandons == old(focusAbandons)
      ensures useAudioFocus && focusChange < 0 && engineResult == SUCCESS && !old(isTtsIdle) && !old(stopRequest) ==>
        && stopRequest && audioTrack == None && audioFocus == (if old(audioFocus) == AUDIOFOCUS_REQUEST_GRANTED then AUDIOFOCUS_REQUEST_FAILED else old(audioFocus))
        && tracksReleased == old(tracksReleased) + (if old(audioTrack).Some? then 1 else 0)
        && focusAbandons == old(focusAbandons) + (if old(audioFocus) == AUDIOFOCUS_REQUEST_GRANTED then 1 else 0)
    {
      if useAudioFocus && focusChange < 0 {
        var _ := Stop(engineResult);
      }
    }

    /** `setAudioManagement`: switches focus management on or off. */
    method SetAudioManagement(enabled: bool)
      requires Valid()
      modifies this`useAudioFocus
      ensures Valid()
      ensures useAudioFocus == enabled
    {
      useAudioFocus := enabled;
    }

    // -------------------------------------------------------------------------
    // Engine callbacks
    // -------------------------------------------------------------------------

    /**
      `onBeginSynthesis` when no `stop()` lands between its two locked
      sections: skipped under a stop request; otherwise a track is built with
      the platform's minimum buffer size (4096 on error) and started.  Any
      failure stops the engine; a track that was built stays open,
      initialized or not, until `audioDone` releases it.
    */
    method OnBeginSynthesis(minBufferSize: int, creation: TrackCreation)
      requires Valid() && synthesizing && !begun
      modifies this`audioTrack, this`engineStops, this`tracksCreated, this`begun
      ensures Valid() && begun
      ensures stopRequest ==> audioTrack == None && engineStops == old(engineStops) && tracksCreated == old(tracksCreated)
      ensures !stopRequest ==> (audioTrack.Some? <==> !creation.ConstructorThrows?)
      ensures !stopRequest && audioTrack.Some? ==>
        && audioTrack.value.bufferSize == BufferSize(minBufferSize)
        && audioTrack.value.initialized == creation.Initialized?
        && (audioTrack.value.playing <==> creation == Initialized(false))
      ensures !stopRequest ==> engineStops == old(engineStops) + (if creation == Initialized(false) then 0 else 1)
      ensures tracksCreated == old(tracksCreated) + (if audioTrack.Some? then 1 else 0)
    {
      var proceed := CheckStopRequest();
      if proceed {
        CreateTrack(minBufferSize, creation);
      }
    }

    /**
      The first locked section of `onBeginSynthesis`: the callback goes on
      only when no stop is requested.  The lock is released afterwards, so a
      `stop()` may run before the track is built.
    */
    method CheckStopRequest() returns (proceed: bool)
      requires Valid() && synthesizing && !begun
      modifies this`begun
      ensures Valid() && begun && audioTrack == None
      ensures proceed <==> !stopRequest
    {
      begun := true;
      proceed := !stopRequest;
    }

    /**
      The second locked section of `onBeginSynthesis`: the track is built
      with the platform's minimum buffer size (4096 on error) and started,
      without looking at the stop request again.  Any failure stops the
      engine; a track that was built stays open until `audioDone` releases it.
    */
    method CreateTrack(minBufferSize: int, creation: TrackCreation)
      requires Valid() && synthesizing && begun && audioTrack == None
      modifies this`audioTrack, this`engineStops, this`tracksCreated
      ensures Valid()
      ensures audioTrack.Some? <==> !creation.ConstructorThrows?
      ensures audioTrack.Some? ==>
        && audioTrack.value.bufferSize == BufferSize(minBufferSize)
        && audioTrack.value.initialized == creation.Initialized?
        && (audioTrack.value.playing <==> creation == Initialized(false))
      ensures engineStops == old(engineStops) + (if creation == Initialized(false) then 0 else 1)
      ensures tracksCreated == old(tracksCreated) + (if audioTrack.Some? then 1 else 0)
    {
      var bufferSizeInBytes := minBufferSize;
      if bufferSizeInBytes == TRACK_ERROR_BAD_VALUE || bufferSizeInBytes == TRACK_ERROR {
        bufferSizeInBytes := FALLBACK_BUFFER_SIZE;
      }
      match creation {
        case ConstructorThrows =>
          engineStops := engineStops + 1;
        case Uninitialized =>
          audioTrack := Some(Track(bufferSizeInBytes, false, false));
          tracksCreated := tracksCreated + 1;
          engineStops := engineStops + 1;
        case Initialized(playThrows) =>
          audioTrack := Some(Track(bufferSizeInBytes, true, !playThrows));
          tracksCreated := tracksCreated + 1;
          if playThrows {
            engineStops := engineStops + 1;
          }
      }
    }

    /**
      `onAudioAvailable`: skipped under a stop request; without a track the
      engine is stopped; otherwise the buffer is processed in place and
      written out in as many partial writes as the device needs, stopping the
      engine on a failed write.
    */
    method OnAudioAvailable(audio: array<JByte>, write: (nat, nat) -> int) returns (outcome: Option<WriteOutcome>)
      requires Valid() && synthesizing
      modifies audio, this`largestSample, this`engineStops
      ensures Valid()
      ensures stopRequest ==>
        audio[..] == old(audio[..]) && largestSample == old(largestSample) && engineStops == old(engineStops) && outcome == None
      ensures !stopRequest && audioTrack == None ==>
        audio[..] == old(audio[..]) && largestSample == old(largestSample) && engineStops == old(engineStops) + 1 && outcome == None
      ensures !stopRequest && audioTrack.Some? ==>
        && audio[..] == ProcessedAudio(old(audio[..]), audioGain)
        && largestSample == Peak(old(largestSample), Widened(old(audio[..])))
        && outcome == Some(Drain(audio.Length, write, 0))
        && engineStops == old(engineStops) + (if outcome.value.failed then 1 else 0)
    {
      if stopRequest {
        return None;
      }
      if audioTrack.None? {
        engineStops := engineStops + 1;
        return None;
      }
      ghost var input := audio[..];
      PeakOfWidenedValid(largestSample, input);
      ProcessAudio(audio);
      assert ValidPeak(largestSample);
      var written := WriteAll(audio.Length, write);
      if written.failed {
        engineStops := engineStops + 1;
      }
      outcome := Some(written);
    }

    /**
      `onDone`, `onError` and `onStop`: each ends the utterance with
      `audioDone(false)`, so the track is released, a granted focus abandoned
      and the session idle, which is what the waiting worker wakes for.
    */
    method OnTerminal()
      requires Valid() && synthesizing
      modifies this`audioTrack, this`tracksReleased, this`audioFocus, this`focusAbandons, this`isTtsIdle
      modifies this`synthesizing, this`begun
      ensures Valid()
      ensures isTtsIdle && audioTrack == None && !synthesizing
      ensures tracksReleased == old(tracksReleased) + (if old(audioTrack).Some? then 1 else 0)
      ensures audioFocus == (if useAudioFocus && old(audioFocus) == AUDIOFOCUS_REQUEST_GRANTED then AUDIOFOCUS_REQUEST_FAILED else old(audioFocus))
      ensures focusAbandons == old(focusAbandons) + (if useAudioFocus && old(audioFocus) == AUDIOFOCUS_REQUEST_GRANTED then 1 else 0)
    {
      AudioDone(false);
      synthesizing := false;
      begun := false;
    }

    // -------------------------------------------------------------------------
    // Voice and engine changes
    // -------------------------------------------------------------------------

    /**
      `setDefaultVoice`: when the voice is found it is set, the engine's
      default gain is restored whatever `setVoice` answers, and the promise is
      settled from that answer; otherwise "not_found".
    */
    method SetDefaultVoice(found: bool, setVoiceResult: int) returns (settled: Settlement)
      requires Valid()
      modifies this`audioGain, this`largestSample
      ensures Valid()
      ensures !ready ==> settled == Reject("not_ready", "TTS is not ready") && unchanged(this)
      ensures ready && found ==>
        settled == StatusSettlement(setVoiceResult) && audioGain == EngineDefaultGain(currentEngineName) && largestSample == 0
      ensures ready && !found ==> settled == Reject("not_found", "The selected voice was not found") && unchanged(this)
    {
      if !ready {
        return ReadySettlement(ready);
      }
      if found {
        SetInitialAudioGain();
        settled := StatusSettlement(setVoiceResult);
      } else {
        settled := Reject("not_found", "The selected voice was not found");
      }
    }

    /**
      The engine swap inside `setDefaultEngine`: the module is not ready, the
      old engine is stopped and shut down, the new one starts with its
      default gain, and the caller's promise waits for its init callback.
    */
    method SwapEngine(engineName: Option<string>, p: PromiseId)
      requires Valid()
      modifies this`ready, this`currentEngineName, this`engineStops, this`audioGain, this`largestSample
      modifies this`pendingEnginePromise
      ensures Valid()
      ensures !ready && currentEngineName == engineName && pendingEnginePromise == Some(p)
      ensures audioGain == EngineDefaultGain(engineName) && largestSample == 0
      ensures engineStops == old(engineStops) + 1
    {
      ready := false;
      currentEngineName := engineName;
      engineStops := engineStops + 1;
      SetInitialAudioGain();
      pendingEnginePromise := Some(p);
    }

    /**
      `setDefaultEngine`: no change when no engine or the current one is
      named; an installed engine replaces the current one after a full stop,
      the module is not ready until the new engine's init callback, which
      settles this call's promise; an engine that is not installed is
      "not_found".
    */
    method SetDefaultEngine(engineName: Option<string>, installed: bool, engineResult: int, p: PromiseId)
      returns (settled: Option<Settlement>)
      requires Valid()
      modifies this`ready, this`currentEngineName, this`pendingEnginePromise, this`audioGain, this`largestSample
      modifies this`stopRequest, this`engineStops, this`audioTrack, this`tracksReleased
      modifies this`audioFocus, this`focusAbandons, this`isTtsIdle
      ensures Valid()
      ensures !old(ready) ==> settled == Some(Reject("not_ready", "TTS is not ready")) && unchanged(this)
      ensures old(ready) && (engineName == None || engineName == old(currentEngineName)) ==>
        settled == Some(ResolveBool(true)) && unchanged(this)
      ensures old(ready) && engineName != None && engineName != old(currentEngineName) && !installed ==>
        settled == Some(Reject("not_found", "The selected engine was not found")) && unchanged(this)
      ensures old(ready) && engineName != None && engineName != old(currentEngineName) && installed ==>
        && settled == None && !ready && pendingEnginePromise == Some(p)
        && currentEngineName == engineName
        && audioGain == EngineDefaultGain(engineName) && largestSample == 0
        && engineStops == old(engineStops) + 2 && isTtsIdle == old(isTtsIdle)
        && (!(engineResult == SUCCESS && !old(isTtsIdle) && !old(stopRequest)) ==>
          && stopRequest == old(stopRequest) && audioTrack == old(audioTrack) && audioFocus == old(audioFocus)
          && tracksReleased == old(tracksReleased) && focusAbandons == old(focusAbandons))
        && (engineResult == SUCCESS && !old(isTtsIdle) && !old(stopRequest) ==>
          && stopRequest && audioTrack == None
          && audioFocus == (if useAudioFocus && old(audioFocus) == AUDIOFOCUS_REQUEST_GRANTED then AUDIOFOCUS_REQUEST_FAILED else old(audioFocus))
          && tracksReleased == old(tracksReleased) + (if old(audioTrack).Some? then 1 else 0)
          && focusAbandons == old(focusAbandons) + (if useAudioFocus && old(audioFocus) == AUDIOFOCUS_REQUEST_GRANTED then 1 else 0))
    {
      if !ready {
        return Some(ReadySettlement(ready));
      }
      if engineName == None || engineName == currentEngineName {
        return Some(ResolveBool(ready));
      }
      if installed {
        var _ := Stop(engineResult);
        SwapEngine(engineName, p);
        settled := None;
      } else {
        settled := Some(Reject("not_found", "The selected engine was not found"));
      }
    }
  }

  /** A fresh module whose engine initialised: ready, idle, nothing queued and no track open. */
  method ReadyModule() returns (m: TextToSpeechModule)
    ensures fresh(m) && m.Valid()
    ensures m.ready && m.isTtsIdle && !m.stopRequest && m.pending == [] && !m.workerWaiting
    ensures m.useAudioFocus && m.audioFocus == AUDIOFOCUS_REQUEST_FAILED && m.audioTrack == None
    ensures m.tracksCreated == 0 && m.tracksReleased == 0 && m.focusAbandons == 0
  {
    m := new TextToSpeechModule(None);
    var _ := m.OnInit(SUCCESS);
  }

  /** A ready module with one request for `text` queued and the worker not started. */
  method QueuedModule(text: string) returns (m: TextToSpeechModule)
    ensures fresh(m) && m.Valid()
    ensures m.ready && m.isTtsIdle && !m.stopRequest && !m.workerWaiting
    ensures m.pending == [Request(text, UtteranceId(text))]
    ensures m.useAudioFocus && m.audioTrack == None
    ensures m.tracksCreated == 0 && m.tracksReleased == 0 && m.focusAbandons == 0
  {
    m := ReadyModule();
    var _ := m.Speak(text);
  }

  /**
    A `stop()` that runs between the two locked sections of
    `onBeginSynthesis`: the stop tears down nothing yet, and the track built
    afterwards is open and playing while the stop is requested.
  */
  method StopBetweenSections(text: string) returns (m: TextToSpeechModule)
    ensures m.Valid() && m.stopRequest
    ensures m.audioTrack.Some? && m.audioTrack.value.playing && m.tracksCreated == 1
  {
    m := QueuedModule(text);
    var _ := m.WorkerStart(AUDIOFOCUS_REQUEST_GRANTED, SUCCESS);
    var proceed := m.CheckStopRequest();
    assert proceed;
    var _ := m.Stop(SUCCESS);
    m.CreateTrack(4096, Initialized(false));
  }

  /**
    A caller asks for the same text twice: the first request is queued, and
    once the worker has started it the second is rejected without queuing.
  */
  method DuplicateScenario(text: string) returns (first: Option<Settlement>, second: Option<Settlement>)
    ensures first == None
    ensures second == Some(RejectMessage("TTS is speaking: " + text + ", requested: " + text))
  {
    var m := ReadyModule();
    first := m.Speak(text);
    var _ := m.WorkerStart(AUDIOFOCUS_REQUEST_GRANTED, SUCCESS);
    second := m.Speak(text);
  }

  /**
    A fresh module whose engine initialised: one request for `text` is
    queued, taken by the worker with focus granted, and its track opened.
  */
  method StartPlaying(text: string) returns (m: TextToSpeechModule)
    ensures fresh(m) && m.Valid()
    ensures m.ready && m.useAudioFocus && m.audioFocus == AUDIOFOCUS_REQUEST_GRANTED
    ensures m.playingUtteranceId == UtteranceId(text) && m.workerWaiting && m.synthesizing
    ensures !m.isTtsIdle && !m.stopRequest && m.audioTrack.Some?
    ensures m.tracksCreated == 1 && m.tracksReleased == 0 && m.focusAbandons == 0
  {
    m := QueuedModule(text);
    var _ := m.WorkerStart(AUDIOFOCUS_REQUEST_GRANTED, SUCCESS);
    m.OnBeginSynthesis(4096, Initialized(false));
  }

  /**
    A caller stops an utterance that is playing: `stop()` tears the audio
    down, the engine's `onStop` makes the session idle, the worker
    acknowledges the stop, keeps the gain and resolves with the id, and the
    same text is accepted again.  The one track opened is released exactly
    once and the focus abandoned once.
  */
  method StopScenario(text: string) returns (finished: Option<Settlement>, acknowledged: bool, again: Option<Settlement>)
    ensures finished == Some(Resolve(UtteranceId(text)))
    ensures acknowledged
    ensures again == None
  {
    var m := StartPlaying(text);
    var gain := m.audioGain;
    var _ := m.Stop(SUCCESS);
    assert m.stopRequest && m.tracksReleased == 1 && m.focusAbandons == 1;
    m.OnTerminal();
    finished, acknowledged := m.WorkerWake();
    assert m.isTtsIdle && m.audioGain == gain;
    assert m.tracksCreated == m.tracksReleased && m.focusAbandons == 1;
    again := m.Speak(text);
  }
}
