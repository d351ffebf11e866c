/**
  How the module settles the promises of its callers: the status codes of
  `android.speech.tts.TextToSpeech`, the audio-focus results of `AudioManager`,
  and `resolvePromiseWithStatusCode`, which both the Java and the Kotlin
  module implement with the same table.
*/
module Status {
  import opened JavaText

  // TextToSpeech status codes.  SUCCESS and LANG_AVAILABLE are both 0, and
  // ERROR and LANG_MISSING_DATA are both -1.
  const SUCCESS: int := 0
  const ERROR: int := -1
  const ERROR_SYNTHESIS: int := -3
  const ERROR_SERVICE: int := -4
  const ERROR_OUTPUT: int := -5
  const ERROR_NETWORK: int := -6
  const ERROR_NETWORK_TIMEOUT: int := -7
  const ERROR_INVALID_REQUEST: int := -8
  const ERROR_NOT_INSTALLED_YET: int := -9
  const LANG_COUNTRY_VAR_AVAILABLE: int := 2
  const LANG_COUNTRY_AVAILABLE: int := 1
  const LANG_MISSING_DATA: int := -1
  const LANG_NOT_SUPPORTED: int := -2

  // AudioManager focus-request results.
  const AUDIOFOCUS_REQUEST_FAILED: int := 0
  const AUDIOFOCUS_REQUEST_GRANTED: int := 1
  const AUDIOFOCUS_REQUEST_DELAYED: int := 2

  /** The codes `resolvePromiseWithStatusCode` names one by one. */
  const ListedCodes: set<int> := {
    SUCCESS, LANG_COUNTRY_AVAILABLE, LANG_COUNTRY_VAR_AVAILABLE,
    ERROR_INVALID_REQUEST, ERROR_NETWORK, ERROR_NETWORK_TIMEOUT, ERROR_NOT_INSTALLED_YET,
    ERROR_OUTPUT, ERROR_SERVICE, ERROR_SYNTHESIS, LANG_MISSING_DATA, LANG_NOT_SUPPORTED
  }

  /** The codes that resolve the promise. */
  const ResolvingCodes: set<int> := {SUCCESS, LANG_COUNTRY_AVAILABLE, LANG_COUNTRY_VAR_AVAILABLE}

  datatype Option<T> = None | Some(value: T)

  /** A caller's promise, known by identity only. */
  type PromiseId = nat

  /**
    How a promise is settled: resolved with a string or a boolean, rejected
    with a code and a message, or rejected with a message only (the one-argument
    `reject`).
  */
  datatype Settlement =
    | Resolve(value: string)
    | ResolveBool(flag: bool)
    | Reject(code: string, message: string)
    | RejectMessage(message: string)

  /** The string a caller matches on: the resolved value or the rejection code. */
  function Key(s: Settlement): string
    requires s.Resolve? || s.Reject?
  {
    if s.Resolve? then s.value else s.code
  }

  /** `resolvePromiseWithStatusCode`: the settlement for an engine status code. */
  function StatusSettlement(statusCode: int): (s: Settlement)
    ensures s.Resolve? <==> statusCode in ResolvingCodes
    ensures s.Resolve? || s.Reject?
  {
    if statusCode == SUCCESS then Resolve("success")
    else if statusCode == LANG_COUNTRY_AVAILABLE then Resolve("lang_country_available")
    else if statusCode == LANG_COUNTRY_VAR_AVAILABLE then Resolve("lang_country_var_available")
    else if statusCode == ERROR_INVALID_REQUEST then Reject("invalid_request", "Failure caused by an invalid request")
    else if statusCode == ERROR_NETWORK then Reject("network_error", "Failure caused by a network connectivity problems")
    else if statusCode == ERROR_NETWORK_TIMEOUT then Reject("network_timeout", "Failure caused by network timeout.")
    else if statusCode == ERROR_NOT_INSTALLED_YET then Reject("not_installed_yet", "Unfinished download of voice data")
    else if statusCode == ERROR_OUTPUT then Reject("output_error", "Failure related to the output (audio device or a file)")
    else if statusCode == ERROR_SERVICE then Reject("service_error", "Failure of a TTS service")
    else if statusCode == ERROR_SYNTHESIS then Reject("synthesis_error", "Failure of a TTS engine to synthesize the given input")
    else if statusCode == LANG_MISSING_DATA then Reject("lang_missing_data", "Language data is missing")
    else if statusCode == LANG_NOT_SUPPORTED then Reject("lang_not_supported", "Language is not supported")
    else Reject("error", "Unknown error code: " + DecimalString(statusCode))
  }

  /** The inverse of the table: which listed code a resolved value or rejection code stands for. */
  function CodeOfKey(key: string): (c: int)
  {
    if key == "success" then SUCCESS
    else if key == "lang_country_available" then LANG_COUNTRY_AVAILABLE
    else if key == "lang_country_var_available" then LANG_COUNTRY_VAR_AVAILABLE
    else if key == "invalid_request" then ERROR_INVALID_REQUEST
    else if key == "network_error" then ERROR_NETWORK
    else if key == "network_timeout" then ERROR_NETWORK_TIMEOUT
    else if key == "not_installed_yet" then ERROR_NOT_INSTALLED_YET
    else if key == "output_error" then ERROR_OUTPUT
    else if key == "service_error" then ERROR_SERVICE
    else if key == "synthesis_error" then ERROR_SYNTHESIS
    else if key == "lang_missing_data" then LANG_MISSING_DATA
    else if key == "lang_not_supported" then LANG_NOT_SUPPORTED
    else ERROR
  }

  /**
    Every listed code gets a key of its own: reading the key back gives the
    code, so no two listed codes settle alike, and none of them rejects with
    the catch-all code "error".
  */
  lemma ListedCodesHaveOwnKeys(statusCode: int)
    requires statusCode in ListedCodes
    ensures CodeOfKey(Key(StatusSettlement(statusCode))) == statusCode
    ensures Key(StatusSettlement(statusCode)) != "error"
  {
    if statusCode in {SUCCESS, LANG_COUNTRY_AVAILABLE, LANG_COUNTRY_VAR_AVAILABLE} {
      ResolvingCodesHaveOwnKeys(statusCode);
    } else if statusCode in {ERROR_INVALID_REQUEST, ERROR_NETWORK, ERROR_NETWORK_TIMEOUT} {
      RequestCodesHaveOwnKeys(statusCode);
    } else if statusCode in {ERROR_NOT_INSTALLED_YET, ERROR_OUTPUT, ERROR_SERVICE} {
      ServiceCodesHaveOwnKeys(statusCode);
    } else {
      LanguageCodesHaveOwnKeys(statusCode);
    }
  }

  /** The codes that resolve. */
  lemma ResolvingCodesHaveOwnKeys(statusCode: int)
    requires statusCode in {SUCCESS, LANG_COUNTRY_AVAILABLE, LANG_COUNTRY_VAR_AVAILABLE}
    ensures CodeOfKey(Key(StatusSettlement(statusCode))) == statusCode
    ensures Key(StatusSettlement(statusCode)) != "error"
  {
    if statusCode == SUCCESS {
      assert Key(StatusSettlement(SUCCESS)) == "success";
      assert CodeOfKey("success") == SUCCESS;
    } else if statusCode == LANG_COUNTRY_AVAILABLE {
      assert Key(StatusSettlement(LANG_COUNTRY_AVAILABLE)) == "lang_country_available";
      assert CodeOfKey("lang_country_available") == LANG_COUNTRY_AVAILABLE;
    } else {
      assert Key(StatusSettlement(LANG_COUNTRY_VAR_AVAILABLE)) == "lang_country_var_available";
      assert CodeOfKey("lang_country_var_available") == LANG_COUNTRY_VAR_AVAILABLE;
    }
  }

  /** The request and network failures. */
  lemma RequestCodesHaveOwnKeys(statusCode: int)
    requires statusCode in {ERROR_INVALID_REQUEST, ERROR_NETWORK, ERROR_NETWORK_TIMEOUT}
    ensures CodeOfKey(Key(StatusSettlement(statusCode))) == statusCode
    ensures Key(StatusSettlement(statusCode)) != "error"
  {
    if statusCode == ERROR_INVALID_REQUEST {
      assert Key(StatusSettlement(ERROR_INVALID_REQUEST)) == "invalid_request";
      assert CodeOfKey("invalid_request") == ERROR_INVALID_REQUEST;
    } else if statusCode == ERROR_NETWORK {
      assert Key(StatusSettlement(ERROR_NETWORK)) == "network_error";
      assert CodeOfKey("network_error") == ERROR_NETWORK;
    } else {
      assert Key(StatusSettlement(ERROR_NETWORK_TIMEOUT)) == "network_timeout";
      assert CodeOfKey("network_timeout") == ERROR_NETWORK_TIMEOUT;
    }
  }

  /** The installation, output and service failures. */
  lemma ServiceCodesHaveOwnKeys(statusCode: int)
    requires statusCode in {ERROR_NOT_INSTALLED_YET, ERROR_OUTPUT, ERROR_SERVICE}
    ensures CodeOfKey(Key(StatusSettlement(statusCode))) == statusCode
    ensures Key(StatusSettlement(statusCode)) != "error"
  {
    if statusCode == ERROR_NOT_INSTALLED_YET {
      assert Key(StatusSettlement(ERROR_NOT_INSTALLED_YET)) == "not_installed_yet";
      assert CodeOfKey("not_installed_yet") == ERROR_NOT_INSTALLED_YET;
    } else if statusCode == ERROR_OUTPUT {
      assert Key(StatusSettlement(ERROR_OUTPUT)) == "output_error";
      assert CodeOfKey("output_error") == ERROR_OUTPUT;
    } else {
      assert Key(StatusSettlement(ERROR_SERVICE)) == "service_error";
      assert CodeOfKey("service_error") == ERROR_SERVICE;
    }
  }

  /** Synthesis and language failures. */
  lemma LanguageCodesHaveOwnKeys(statusCode: int)
    requires statusCode in {ERROR_SYNTHESIS, LANG_MISSING_DATA, LANG_NOT_SUPPORTED}
    ensures CodeOfKey(Key(StatusSettlement(statusCode))) == statusCode
    ensures Key(StatusSettlement(statusCode)) != "error"
  {
    if statusCode == ERROR_SYNTHESIS {
      assert Key(StatusSettlement(ERROR_SYNTHESIS)) == "synthesis_error";
      assert CodeOfKey("synthesis_error") == ERROR_SYNTHESIS;
    } else if statusCode == LANG_MISSING_DATA {
      assert Key(StatusSettlement(LANG_MISSING_DATA)) == "lang_missing_data";
      assert CodeOfKey("lang_missing_data") == LANG_MISSING_DATA;
    } else {
      assert Key(StatusSettlement(LANG_NOT_SUPPORTED)) == "lang_not_supported";
      assert CodeOfKey("lang_not_supported") == LANG_NOT_SUPPORTED;
    }
  }

  /** Any code outside the table rejects with "error" and names the code in its message. */
  lemma UnlistedCodesRejectWithError(statusCode: int)
    requires statusCode !in ListedCodes
    ensures StatusSettlement(statusCode) == Reject("error", "Unknown error code: " + DecimalString(statusCode))
  {
  }

  /** Because ERROR and LANG_MISSING_DATA share the value -1, a plain engine ERROR reads as missing language data. */
  lemma EngineErrorReadsAsMissingData()
    ensures StatusSettlement(ERROR) == Reject("lang_missing_data", "Language data is missing")
  {
  }

  /**
    Settles every pending promise, in order, with the same outcome: the loop
    both init callbacks run over `initStatusPromises` before clearing it.
  */
  method SettleAll(pending: seq<PromiseId>, outcome: Settlement) returns (settled: seq<(PromiseId, Settlement)>)
    ensures |settled| == |pending|
    ensures forall k :: 0 <= k < |pending| ==> settled[k] == (pending[k], outcome)
  {
    settled := [];
    var i := 0;
    while i < |pending|
      invariant 0 <= i <= |pending|
      invariant |settled| == i
      invariant forall k :: 0 <= k < i ==> settled[k] == (pending[k], outcome)
    {
      settled := settled + [(pending[i], outcome)];
      i := i + 1;
    }
  }
}
