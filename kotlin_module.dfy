/**
  The Kotlin module: readiness as a tri-state (not known yet, no engine,
  ready) with the init promises queued while it is unknown, the optional
  ducking focus gate in front of `speak`, the stream-type parameter, and the
  engine's answer turned into a settlement.

  The engine's and the audio manager's answers (`tts.speak`, `tts.stop`,
  `requestAudioFocus`, whether a package is installed) are parameters; the
  request handed to the engine is returned as a value.
*/
module KotlinModule {
  import opened JavaText
  import opened Status

  // AudioManager stream types.
  const STREAM_VOICE_CALL: int := 0
  const STREAM_SYSTEM: int := 1
  const STREAM_RING: int := 2
  const STREAM_MUSIC: int := 3
  const STREAM_ALARM: int := 4
  const STREAM_NOTIFICATION: int := 5
  const STREAM_DTMF: int := 8
  /** `AudioManager.USE_DEFAULT_STREAM_TYPE`, `Integer.MIN_VALUE`. */
  const USE_DEFAULT_STREAM_TYPE: int := -0x8000_0000

  /** The stream names a caller may pass under "KEY_PARAM_STREAM". */
  const StreamNames: set<string> := {
    "STREAM_ALARM", "STREAM_DTMF", "STREAM_MUSIC", "STREAM_NOTIFICATION",
    "STREAM_RING", "STREAM_SYSTEM", "STREAM_VOICE_CALL"
  }

  /** The stream types those names stand for. */
  const StreamTypes: set<int> := {
    STREAM_ALARM, STREAM_DTMF, STREAM_MUSIC, STREAM_NOTIFICATION,
    STREAM_RING, STREAM_SYSTEM, STREAM_VOICE_CALL
  }

  /** The `when` of the private `speak`: a stream name to its stream type. */
  function StreamType(name: string): (t: int)
    ensures name in StreamNames <==> t in StreamTypes
    ensures name !in StreamNames <==> t == USE_DEFAULT_STREAM_TYPE
  {
    match name
    case "STREAM_ALARM" => STREAM_ALARM
    case "STREAM_DTMF" => STREAM_DTMF
    case "STREAM_MUSIC" => STREAM_MUSIC
    case "STREAM_NOTIFICATION" => STREAM_NOTIFICATION
    case "STREAM_RING" => STREAM_RING
    case "STREAM_SYSTEM" => STREAM_SYSTEM
    case "STREAM_VOICE_CALL" => STREAM_VOICE_CALL
    case _ => USE_DEFAULT_STREAM_TYPE
  }

  /** The name of a stream type, the inverse of `StreamType` on the seven names. */
  function StreamTypeName(t: int): string {
    if t == STREAM_ALARM then "STREAM_ALARM"
    else if t == STREAM_DTMF then "STREAM_DTMF"
    else if t == STREAM_MUSIC then "STREAM_MUSIC"
    else if t == STREAM_NOTIFICATION then "STREAM_NOTIFICATION"
    else if t == STREAM_RING then "STREAM_RING"
    else if t == STREAM_SYSTEM then "STREAM_SYSTEM"
    else if t == STREAM_VOICE_CALL then "STREAM_VOICE_CALL"
    else ""
  }

  /** Each of the seven names gets a stream type of its own: the name can be read back from it. */
  lemma StreamNamesHaveOwnTypes(name: string)
    requires name in StreamNames
    ensures StreamTypeName(StreamType(name)) == name
  {
  }

  /** The stream parameter as `speak` reads it: `getString` gives null for a missing key, read as "". */
  function StreamParam(param: Option<string>): (name: string)
    ensures param == None ==> name == ""
    ensures param.Some? ==> name == param.value
  {
    if param.Some? then param.value else ""
  }

  /** A missing stream parameter selects the default stream. */
  lemma MissingStreamUsesDefault()
    ensures StreamType(StreamParam(None)) == USE_DEFAULT_STREAM_TYPE
  {
  }

  /** `resolveReadyPromise`: "success" once the engine is ready, "no_engine" whether it failed or is not known yet. */
  function ReadySettlement(ready: Option<bool>): (s: Settlement)
    ensures s.Resolve? <==> ready == Some(true)
    ensures ready == Some(true) ==> s == Resolve("success")
    ensures !s.Resolve? ==> s == Reject("no_engine", "No TTS engine installed")
  {
    if ready == Some(true) then Resolve("success") else Reject("no_engine", "No TTS engine installed")
  }

  /**
    `notReady`: the rejection a command receives before doing anything, or
    None when the engine is ready.
  */
  function NotReady(ready: Option<bool>): (r: Option<Settlement>)
    ensures r == None <==> ready == Some(true)
    ensures r.Some? ==> r.value.Reject?
    ensures ready == None ==> r == Some(Reject("not_ready", "TTS is not ready"))
    ensures ready == Some(false) ==> r == Some(Reject("no_engine", "No TTS engine installed"))
  {
    if ready == None then Some(Reject("not_ready", "TTS is not ready"))
    else if ready != Some(true) then Some(ReadySettlement(ready))
    else None
  }

  /** The gate and the ready promise agree once the engine has answered. */
  lemma NotReadyAgreesWithReadySettlement(ready: bool)
    ensures NotReady(Some(ready)) == None <==> ReadySettlement(Some(ready)).Resolve?
    ensures !ready ==> NotReady(Some(ready)) == Some(ReadySettlement(Some(ready)))
  {
  }

  /**
    What the private `speak` reads from its parameter map: the stream name,
    if present, and whether the volume and pan keys are present at all.
    Their values are floating point and only passed on to the engine.
  */
  datatype SpeakParams = SpeakParams(stream: Option<string>, hasVolume: bool, hasPan: bool)
  {
    /** Both `getDouble` reads find their key. */
    predicate HasLevels() {
      hasVolume && hasPan
    }
  }

  /** What `ReadableMap.getDouble` throws for a key the map does not hold. */
  const MISSING_KEY: string := "NoSuchKeyException"

  /** The rejection of `speak` when ducking is on and the focus is not granted. */
  const FOCUS_REJECTION: string := "Android AudioManager error, failed to request audio focus"

  /** What `speak` hands to the engine: the text, its id and the stream type. */
  datatype EngineRequest = EngineRequest(utterance: string, utteranceId: string, streamType: int)

  /** How a command ends: its promise settled, or an exception thrown out of it. */
  datatype CallOutcome = Settled(settlement: Settlement) | Thrown(exception: string)

  /** The promise of a `speak` that reached the engine: the id on success, the status table otherwise. */
  function SpokenSettlement(utteranceId: string, speakResult: int): (s: Settlement)
    ensures speakResult == SUCCESS ==> s == Resolve(utteranceId)
    ensures speakResult != SUCCESS ==> s == StatusSettlement(speakResult)
  {
    if speakResult == SUCCESS then Resolve(utteranceId) else StatusSettlement(speakResult)
  }

  class TextToSpeechModule {
    /** None until the engine's init callback; then whether it reported SUCCESS. */
    var ready: Option<bool>
    var initStatusPromises: seq<PromiseId>
    var ducking: bool
    /** The promise of a `setDefaultEngine` call, settled by the new engine's init callback. */
    var pendingEnginePromise: Option<PromiseId>
    /** Whether the `lateinit` focus listener has been assigned; nothing in the module assigns it. */
    var focusListenerSet: bool

    /** Promises wait only while readiness is unknown, and the listener is never assigned. */
    ghost predicate Valid()
      reads this
    {
      && (ready.Some? ==> initStatusPromises == [] && pendingEnginePromise == None)
      && !focusListenerSet
    }

    /** Construction: readiness unknown, nothing queued, no ducking. */
    constructor()
      ensures Valid()
      ensures ready == None && initStatusPromises == [] && pendingEnginePromise == None && !ducking
    {
      ready := None;
      initStatusPromises := [];
      ducking := false;
      pendingEnginePromise := None;
      focusListenerSet := false;
    }

    /** `getInitStatus`: queued while readiness is unknown, settled at once otherwise. */
    method GetInitStatus(p: PromiseId) returns (settled: Option<Settlement>)
      requires Valid()
      modifies this`initStatusPromises
      ensures Valid()
      ensures settled == None <==> ready == None
      ensures ready == None ==> initStatusPromises == old(initStatusPromises) + [p]
      ensures ready.Some? ==> settled == Some(ReadySettlement(ready)) && initStatusPromises == old(initStatusPromises)
    {
      if ready == None {
        initStatusPromises := initStatusPromises + [p];
        settled := None;
      } else {
        settled := Some(ReadySettlement(ready));
      }
    }

    /**
      The engine's init callback, from construction or from `setDefaultEngine`:
      readiness becomes known, every queued promise is settled in order and
      the list is emptied; after an engine change the caller learns the
      readiness last.
    */
    method OnInit(status: int) returns (settled: seq<(PromiseId, Settlement)>)
      requires Valid()
      modifies this`ready, this`initStatusPromises, this`pendingEnginePromise
      ensures Valid()
      ensures ready == Some(status == SUCCESS)
      ensures initStatusPromises == [] && pendingEnginePromise == None
      ensures |settled| == |old(initStatusPromises)| + (if old(pendingEnginePromise).Some? then 1 else 0)
      ensures forall k :: 0 <= k < |old(initStatusPromises)| ==>
        settled[k] == (old(initStatusPromises)[k], ReadySettlement(ready))
      ensures old(pendingEnginePromise).Some? ==>
        settled[|settled| - 1] == (old(pendingEnginePromise).value, ResolveBool(status == SUCCESS))
    {
      ready := Some(status == SUCCESS);
      settled := SettleAll(initStatusPromises, ReadySettlement(ready));
      initStatusPromises := [];
      if pendingEnginePromise.Some? {
        settled := settled + [(pendingEnginePromise.value, ResolveBool(status == SUCCESS))];
        pendingEnginePromise := None;
      }
    }

    /** `setDucking`: refused unless ready; otherwise the flag is set and the promise resolved. */
    method SetDucking(enabled: bool) returns (settled: Settlement)
      requires Valid()
      modifies this`ducking
      ensures Valid()
      ensures NotReady(ready).Some? ==> settled == NotReady(ready).value && ducking == old(ducking)
      ensures NotReady(ready) == None ==> settled == Resolve("success") && ducking == enabled
    {
      var refused := NotReady(ready);
      if refused.Some? {
        return refused.value;
      }
      ducking := enabled;
      settled := Resolve("success");
    }

    /**
      `setDefaultEngine`: refused unless ready; when the named engine is
      installed the engine is shut down and re-created, readiness becomes
      unknown again and the promise waits for the new engine's init
      callback; otherwise "not_found".  The engine is re-created without
      the name, so it is the system default, not the engine asked for.
    */
    method SetDefaultEngine(installed: bool, p: PromiseId) returns (settled: Option<Settlement>)
      requires Valid()
      modifies this`ready, this`pendingEnginePromise
      ensures Valid()
      ensures NotReady(old(ready)).Some? ==>
        settled == NotReady(old(ready)) && ready == old(ready) && pendingEnginePromise == old(pendingEnginePromise)
      ensures NotReady(old(ready)) == None && installed ==>
        settled == None && ready == None && pendingEnginePromise == Some(p)
      ensures NotReady(old(ready)) == None && !installed ==>
        settled == Some(Reject("not_found", "The selected engine was not found")) && ready == old(ready)
        && pendingEnginePromise == old(pendingEnginePromise)
    {
      settled := NotReady(ready);
      if settled.Some? {
        return;
      }
      if installed {
        ready := None;
        pendingEnginePromise := Some(p);
      } else {
        settled := Some(Reject("not_found", "The selected engine was not found"));
      }
    }

    /** `stop`: refused unless ready; otherwise resolved with whether the engine reported SUCCESS. */
    method Stop(engineResult: int) returns (settled: Settlement)
      requires Valid()
      ensures NotReady(ready).Some? ==> settled == NotReady(ready).value
      ensures NotReady(ready) == None ==> settled == ResolveBool(engineResult == SUCCESS)
    {
      var refused := NotReady(ready);
      if refused.Some? {
        return refused.value;
      }
      settled := ResolveBool(engineResult == SUCCESS);
    }

    /**
      `speak` as the module was evidently meant to work: refused unless
      ready; with ducking on, a focus result other than GRANTED rejects the
      promise before the engine is asked for anything; otherwise the id is
      the decimal form of the text's Java hash, and the private `speak`
      reads the parameters.  A missing volume or pan key throws out of the
      call; otherwise the engine gets the text, the id and the stream type,
      and its answer settles the promise.
    */
    method Speak(text: string, params: SpeakParams, focusResult: int, speakResult: int)
      returns (outcome: CallOutcome, sent: Option<EngineRequest>)
      requires Valid()
      ensures sent.Some? <==>
        ready == Some(true) && (!ducking || focusResult == AUDIOFOCUS_REQUEST_GRANTED) && params.HasLevels()
      ensures outcome.Thrown? <==>
        ready == Some(true) && (!ducking || focusResult == AUDIOFOCUS_REQUEST_GRANTED) && !params.HasLevels()
      ensures outcome.Thrown? ==> outcome == Thrown(MISSING_KEY)
      ensures NotReady(ready).Some? ==> outcome == Settled(NotReady(ready).value)
      ensures ready == Some(true) && ducking && focusResult != AUDIOFOCUS_REQUEST_GRANTED ==>
        outcome == Settled(RejectMessage(FOCUS_REJECTION))
      ensures sent.Some? ==>
        && sent.value == EngineRequest(text, UtteranceId(text), StreamType(StreamParam(params.stream)))
        && outcome == Settled(SpokenSettlement(sent.value.utteranceId, speakResult))
    {
      var refused := NotReady(ready);
      if refused.Some? {
        return Settled(refused.value), None;
      }
      if ducking && focusResult != AUDIOFOCUS_REQUEST_GRANTED {
        return Settled(RejectMessage(FOCUS_REJECTION)), None;
      }
      var utteranceId := UtteranceId(text);
      if !params.HasLevels() {
        return Thrown(MISSING_KEY), None;
      }
      var request := EngineRequest(text, utteranceId, StreamType(StreamParam(params.stream)));
      outcome := Settled(SpokenSettlement(utteranceId, speakResult));
      sent := Some(request);
    }

    /**
      `speak` as written: with ducking on, the focus request reads the
      `lateinit` listener, which nothing assigns, so the call throws before
      the focus result is looked at and the engine is never asked.  With
      ducking off it is `Speak`.
    */
    method SpeakAsWritten(text: string, params: SpeakParams, focusResult: int, speakResult: int)
      returns (outcome: CallOutcome, sent: Option<EngineRequest>)
      requires Valid()
      ensures NotReady(ready).Some? ==> outcome == Settled(NotReady(ready).value) && sent == None
      ensures ready == Some(true) && ducking ==>
        outcome == Thrown("UninitializedPropertyAccessException") && sent == None
      ensures ready == Some(true) && !ducking && !params.HasLevels() ==>
        outcome == Thrown(MISSING_KEY) && sent == None
      ensures ready == Some(true) && !ducking && params.HasLevels() ==>
        && sent == Some(EngineRequest(text, UtteranceId(text), StreamType(StreamParam(params.stream))))
        && outcome == Settled(SpokenSettlement(UtteranceId(text), speakResult))
    {
      var refused := NotReady(ready);
      if refused.Some? {
        return Settled(refused.value), None;
      }
      if ducking {
        if !focusListenerSet {
          return Thrown("UninitializedPropertyAccessException"), None;
        }
        if focusResult != AUDIOFOCUS_REQUEST_GRANTED {
          return Settled(RejectMessage(FOCUS_REJECTION)), None;
        }
      }
      var utteranceId := UtteranceId(text);
      if !params.HasLevels() {
        return Thrown(MISSING_KEY), None;
      }
      sent := Some(EngineRequest(text, utteranceId, StreamType(StreamParam(params.stream))));
      outcome := Settled(SpokenSettlement(utteranceId, speakResult));
    }
  }

  /**
    The ducking path as written and as meant, from the same state: an engine
    that initialised, ducking switched on, focus granted and the engine
    accepting.  As written the call throws and nothing is spoken; as meant
    the text is spoken and the promise resolves with its id.
  */
  method DuckingScenario(text: string)
    returns (asWritten: CallOutcome, asWrittenSent: Option<EngineRequest>, meant: CallOutcome, meantSent: Option<EngineRequest>)
    ensures asWritten == Thrown("UninitializedPropertyAccessException") && asWrittenSent == None
    ensures meant == Settled(Resolve(UtteranceId(text))) && meantSent.Some?
  {
    var m := new TextToSpeechModule();
    var _ := m.OnInit(SUCCESS);
    var _ := m.SetDucking(true);
    asWritten, asWrittenSent := m.SpeakAsWritten(text, SpeakParams(None, true, true), AUDIOFOCUS_REQUEST_GRANTED, SUCCESS);
    meant, meantSent := m.Speak(text, SpeakParams(None, true, true), AUDIOFOCUS_REQUEST_GRANTED, SUCCESS);
  }
}
