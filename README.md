# react-native-tts, Android native module: a verified model

This project models the Android side of react-native-tts. There are two
implementations of the native module.

The Java module has four parts:

- **Adaptive gain.** Every buffer the speech engine synthesises is decoded
  into 16-bit little-endian samples and widened to Q8.24 fixed point. Each
  sample is multiplied by the current gain, narrowed, hard-clamped to 16
  bits and written back in place. The largest magnitude seen is tracked, and
  after an utterance that was spoken to the end the gain is recalibrated
  from it.
- **Playback session.** `speak` deduplicates requests and hands the
  utterance to a single worker. The worker requests audio focus and asks the
  engine to synthesise, then waits until the session is idle. The engine's
  callbacks open, feed and release an `AudioTrack`. `stop()` tears the audio
  down and leaves the worker to acknowledge the stop.
- **Readiness.** Promises that ask for the init status are queued until the
  engine's init callback settles them.
- **Status table.** `resolvePromiseWithStatusCode` turns an engine status
  code into a resolved or rejected promise.

The Kotlin module has:

- the same status table;
- readiness as a tri-state (not known yet, no engine, ready);
- the stream-type parameter of `speak`;
- an optional "ducking" audio-focus gate in front of `speak`.

Modules:

- `JavaInts`: Java's fixed-width integers. It models the `(byte)` and
  `(int)` casts and the sign-mask XOR on unbounded `int`. A signed `>> k`
  is written as floor division by 2^k.
- `JavaText`: `String.hashCode` over UTF-16 code units (wrapping at 32
  bits), `Integer.toString` with its inverse, and ASCII lower-casing with
  `contains`. It also defines the utterance id, the decimal form of the
  text's hash.
- `Status`: status codes, settlements and `resolvePromiseWithStatusCode`.
- `AdaptiveGain`: the per-sample and per-buffer pipeline as functions, the
  running peak, and the recalibration.
- `PlaybackSession`: the Java module as a class. Every step it performs
  under its lock is one atomic method. `onBeginSynthesis` takes the lock
  twice, so its two sections are two methods, and a `stop()` can run
  between them. The in-place buffer processing is
  done by methods over arrays, proved equal to the `AdaptiveGain`
  functions. The engine's and the platform's answers are parameters:
  - the focus result;
  - the result of `synthesizeToFile`;
  - the result of `tts.stop()`;
  - how `AudioTrack` creation ends;
  - the counts `write` returns.

  Ghost counters record how often the engine is stopped and how often
  tracks are created and released and focus is abandoned. The class
  invariant ties the track counters to the session state: every track
  created is released once, except the one open. The engine-stop and
  focus-abandon counters appear in no invariant; the method contracts
  state how each call changes them.
- `KotlinModule`: the Kotlin module as a class, with its own readiness
  tri-state and its `speak`.

## Model

| member | source | states |
|---|---|---|
| JavaInts.ToByte | android/src/main/java/net/no_mad/tts/TextToSpeechModule.java:823-824 | the `(byte)` cast keeps `x` modulo 256 and is the identity on the byte range |
| JavaInts.ToInt | android/src/main/java/net/no_mad/tts/TextToSpeechModule.java:349 | 32-bit wrap-around keeps `x` modulo 2^32 and is the identity on the `int` range |
| JavaInts.XorSignMask | android/src/main/java/net/no_mad/tts/TextToSpeechModule.java:815-816 | XOR with a sign mask is zero exactly when the operand equals the mask, and the identity exactly when the mask is 0 |
| JavaInts.ToIntCongruent | android/src/main/java/net/no_mad/tts/TextToSpeechModule.java:349 | values congruent modulo 2^32 wrap to the same `int` |
| JavaText.HashStepWraps | android/src/main/java/net/no_mad/tts/TextToSpeechModule.java:349 | one hash step gives the same `int` whether the running hash was wrapped first or not |
| JavaText.HashCode | android/src/main/java/net/no_mad/tts/TextToSpeechModule.java:349 | `String.hashCode` in wrapping `int` arithmetic; `HashCodeIsWrappedPolynomial` pins its value |
| JavaText.Units | android/src/main/java/net/no_mad/tts/TextToSpeechModule.java:349 | the UTF-16 units of a character: the character itself below U+10000, otherwise a high and a low surrogate that combine back to it; every unit is below 0x10000 |
| JavaText.Utf16 | android/src/main/java/net/no_mad/tts/TextToSpeechModule.java:349 | a string has one or two code units per character, each below 0x10000; `Utf16RoundTrip` shows they are its UTF-16 form |
| JavaText.Utf16RoundTrip | android/src/main/java/net/no_mad/tts/TextToSpeechModule.java:349 | reading the UTF-16 units back gives the string, so the units `hashCode` reads are the text itself |
| JavaText.Utf16Snoc | android/src/main/java/net/no_mad/tts/TextToSpeechModule.java:349 | one more character at the end of a string reads back as one more character |
| JavaText.FromUtf16Appends | android/src/main/java/net/no_mad/tts/TextToSpeechModule.java:349 | the units of one character, a single unit or a surrogate pair, read back as that character |
| JavaText.HashCodeIsWrappedPolynomial | android/src/main/java/net/no_mad/tts/TextToSpeechModule.java:349 | the step-by-step wrapping hash equals the 31-polynomial over the code units reduced once modulo 2^32 |
| JavaText.Digits | android/src/main/java/net/no_mad/tts/TextToSpeechModule.java:349 | the decimal digits of a natural number are non-empty and all digits |
| JavaText.DecimalString | android/src/main/java/net/no_mad/tts/TextToSpeechModule.java:349 | `Integer.toString` is non-empty and starts with a digit exactly when the number is not negative |
| JavaText.DigitsRoundTrip | android/src/main/java/net/no_mad/tts/TextToSpeechModule.java:349 | reading the digits back gives the natural number |
| JavaText.DecimalRoundTrip | android/src/main/java/net/no_mad/tts/TextToSpeechModule.java:349 | parsing `Integer.toString(n)` gives `n` back, negative numbers included |
| JavaText.DecimalInjective | android/src/main/java/net/no_mad/tts/TextToSpeechModule.java:349 | two numbers have the same decimal form exactly when they are equal |
| JavaText.UtteranceId | android/src/main/java/net/no_mad/tts/TextToSpeechModule.kt:166 | the utterance id is never empty |
| JavaText.UtteranceIdMatchesHash | android/src/main/java/net/no_mad/tts/TextToSpeechModule.java:349 | two texts get the same id exactly when their Java hashes are equal, so equal texts always do |
| JavaText.AsciiLower | android/src/main/java/net/no_mad/tts/TextToSpeechModule.java:848 | lower-casing keeps the length, turns each capital A-Z into its small letter, keeps every other character, and leaves no capital behind |
| JavaText.LowerChar | android/src/main/java/net/no_mad/tts/TextToSpeechModule.java:848 | a lower-cased character is never a capital, is a small letter exactly when the input was a letter, and differs from the input only by 32 |
| JavaText.Contains | android/src/main/java/net/no_mad/tts/TextToSpeechModule.java:848 | `contains` finds the empty string in any text and never a substring longer than the text; `ContainsIffOccurs` pins it |
| JavaText.ContainsIffOccurs | android/src/main/java/net/no_mad/tts/TextToSpeechModule.java:848 | `contains` holds exactly when the substring occurs at some index |
| Status.StatusSettlement | android/src/main/java/net/no_mad/tts/TextToSpeechModule.java:270-312 | the promise resolves exactly for SUCCESS, LANG_COUNTRY_AVAILABLE and LANG_COUNTRY_VAR_AVAILABLE, and is rejected with a code otherwise |
| Status.ListedCodesHaveOwnKeys | android/src/main/java/net/no_mad/tts/TextToSpeechModule.kt:106-119 | every listed code settles with its own value or rejection code, which reads back to the code and is never "error" |
| Status.ResolvingCodesHaveOwnKeys | android/src/main/java/net/no_mad/tts/TextToSpeechModule.kt:108-110 | SUCCESS and the two language-available codes resolve with values that read back to their codes |
| Status.RequestCodesHaveOwnKeys | android/src/main/java/net/no_mad/tts/TextToSpeechModule.kt:111-113 | invalid request, network error and network timeout reject with codes that read back to theirs |
| Status.ServiceCodesHaveOwnKeys | android/src/main/java/net/no_mad/tts/TextToSpeechModule.kt:114-116 | not installed yet, output error and service error reject with codes that read back to theirs |
| Status.LanguageCodesHaveOwnKeys | android/src/main/java/net/no_mad/tts/TextToSpeechModule.kt:117-119 | synthesis error, missing language data and unsupported language reject with codes that read back to theirs |
| Status.UnlistedCodesRejectWithError | android/src/main/java/net/no_mad/tts/TextToSpeechModule.kt:120 | a code outside the table rejects with "error" and a message naming the code |
| Status.EngineErrorReadsAsMissingData | android/src/main/java/net/no_mad/tts/TextToSpeechModule.java:302-304 | because ERROR and LANG_MISSING_DATA share -1, a plain engine error is reported as missing language data |
| Status.SettleAll | android/src/main/java/net/no_mad/tts/TextToSpeechModule.java:106-109 | every queued promise is settled, in order, with the same outcome |
| AdaptiveGain.HardClamp | android/src/main/java/net/no_mad/tts/TextToSpeechModule.java:815-816 | the bit-trick clamp equals plain saturation to the 16-bit range |
| AdaptiveGain.SampleBytesRoundTrip | android/src/main/java/net/no_mad/tts/TextToSpeechModule.java:804 | little-endian decoding and encoding of a sample are mutually inverse |
| AdaptiveGain.EncodeThenDecode | android/src/main/java/net/no_mad/tts/TextToSpeechModule.java:804-824 | writing a 16-bit sample as two bytes and decoding them gives the sample back |
| AdaptiveGain.DecodeThenEncode | android/src/main/java/net/no_mad/tts/TextToSpeechModule.java:804-824 | decoding two bytes and writing the sample back gives the same two bytes |
| AdaptiveGain.DecodeSample | android/src/main/java/net/no_mad/tts/TextToSpeechModule.java:804 | the decoded sample has the high byte as its signed upper half and the low byte, read unsigned, as its lower half |
| AdaptiveGain.HighByte | android/src/main/java/net/no_mad/tts/TextToSpeechModule.java:823 | the high byte written keeps the low 8 bits of `sample >> 8`, and is exactly `sample >> 8` for a 16-bit sample |
| AdaptiveGain.LowByte | android/src/main/java/net/no_mad/tts/TextToSpeechModule.java:824 | the low byte written keeps the low 8 bits of the sample |
| AdaptiveGain.Widen | android/src/main/java/net/no_mad/tts/TextToSpeechModule.java:805 | widening by `<< 9` loses nothing: the result is a multiple of 512 whose quotient is the sample, within full scale |
| AdaptiveGain.ApplyGain | android/src/main/java/net/no_mad/tts/TextToSpeechModule.java:835 | the gained value is the Q8.24 product rounded down, and unity gain keeps the sample |
| AdaptiveGain.Narrow | android/src/main/java/net/no_mad/tts/TextToSpeechModule.java:812 | `(int)(x >> 9)` keeps `x >> 9` modulo 2^32, and is exactly `x >> 9` when that fits an `int` |
| AdaptiveGain.SampleOut | android/src/main/java/net/no_mad/tts/TextToSpeechModule.java:811-816 | the rewritten sample; `SampleOutSaturates` and `SampleOutUnity` pin its value |
| AdaptiveGain.SampleOutSaturates | android/src/main/java/net/no_mad/tts/TextToSpeechModule.java:811-825 | a rewritten sample is the gained value when that fits in 16 bits, and 32767 or -32768 by sign otherwise, never a wrapped value |
| AdaptiveGain.GainedInIntRange | android/src/main/java/net/no_mad/tts/TextToSpeechModule.java:812 | for gains up to the maximum, the narrowed value fits an `int`, so the `(int)` cast never wraps |
| AdaptiveGain.SampleOutUnity | android/src/main/java/net/no_mad/tts/TextToSpeechModule.java:805-816 | at unity gain every sample comes out unchanged |
| AdaptiveGain.Widened | android/src/main/java/net/no_mad/tts/TextToSpeechModule.java:802-806 | the buffer holds `length / 2` samples |
| AdaptiveGain.GainAll | android/src/main/java/net/no_mad/tts/TextToSpeechModule.java:833-835 | gaining keeps the number of samples |
| AdaptiveGain.ProcessedAudio | android/src/main/java/net/no_mad/tts/TextToSpeechModule.java:800-826 | processing never changes the buffer length and never touches a trailing odd byte |
| AdaptiveGain.ProcessedAudioSamples | android/src/main/java/net/no_mad/tts/TextToSpeechModule.java:811-825 | each rewritten sample decodes to the gained and clamped value of the sample it replaced |
| AdaptiveGain.ProcessedPair | android/src/main/java/net/no_mad/tts/TextToSpeechModule.java:823-824 | the two bytes of a processed sample are the low and high byte of its output value |
| AdaptiveGain.PairDecodes | android/src/main/java/net/no_mad/tts/TextToSpeechModule.java:804-824 | a sample written as low then high byte decodes back to the written value |
| AdaptiveGain.SamplesOut | android/src/main/java/net/no_mad/tts/TextToSpeechModule.java:811-816 | one output sample per input sample |
| AdaptiveGain.WrittenUpToStep | android/src/main/java/net/no_mad/tts/TextToSpeechModule.java:823-824 | writing the high then the low byte of the next sample extends the rewritten prefix by one sample |
| AdaptiveGain.WrittenUpToBytes | android/src/main/java/net/no_mad/tts/TextToSpeechModule.java:811-825 | once every sample is written back, each byte is the processed byte |
| AdaptiveGain.WrittenUpToComplete | android/src/main/java/net/no_mad/tts/TextToSpeechModule.java:811-825 | once every sample is written back, the buffer is the processed buffer |
| AdaptiveGain.ProcessedAudioUnity | android/src/main/java/net/no_mad/tts/TextToSpeechModule.java:800-826 | at unity gain processing leaves every byte unchanged |
| AdaptiveGain.ProcessedPairUnity | android/src/main/java/net/no_mad/tts/TextToSpeechModule.java:800-826 | at unity gain both bytes of every complete sample are left as they were |
| AdaptiveGain.ProcessedByteUnity | android/src/main/java/net/no_mad/tts/TextToSpeechModule.java:800-826 | at unity gain each byte, a trailing odd one included, is left as it was |
| AdaptiveGain.Peak | android/src/main/java/net/no_mad/tts/TextToSpeechModule.java:837-844 | the running peak never decreases, bounds every magnitude seen, and is the old peak or one of them |
| AdaptiveGain.WidenedMagnitudeValid | android/src/main/java/net/no_mad/tts/TextToSpeechModule.java:838-840 | the magnitude of a widened 16-bit sample is a multiple of 512 no larger than 2^24 |
| AdaptiveGain.PeakOfWidenedValid | android/src/main/java/net/no_mad/tts/TextToSpeechModule.java:837-844 | the peak over a decoded buffer stays a value `largestSample` can hold |
| AdaptiveGain.RawGain | android/src/main/java/net/no_mad/tts/TextToSpeechModule.java:868 | the unclamped gain is positive: the divisor is positive whenever the peak is not 0 |
| AdaptiveGain.RecalibratedGain | android/src/main/java/net/no_mad/tts/TextToSpeechModule.java:865-874 | with no peak the gain is unchanged; otherwise it lies in [min, max], equals the raw gain when that is in range, and is the bound it crossed otherwise |
| AdaptiveGain.RecalibrationAntiMonotone | android/src/main/java/net/no_mad/tts/TextToSpeechModule.java:868-873 | a louder peak never yields a larger gain |
| AdaptiveGain.RecalibrationExtremes | android/src/main/java/net/no_mad/tts/TextToSpeechModule.java:868-873 | a full-scale peak gives 17770592 (about +0.5 dB), and the smallest non-zero peak gives the maximum gain |
| AdaptiveGain.RawGainAboveUnity | android/src/main/java/net/no_mad/tts/TextToSpeechModule.java:868-873 | every non-zero peak gives a raw gain of at least 17770592, above GAIN_MIN, so the lower clamp never applies and every recalibrated gain is at least that |
| PlaybackSession.BufferSize | android/src/main/java/net/no_mad/tts/TextToSpeechModule.java:130-133 | the buffer size is the platform minimum, or 4096 when it reports ERROR or ERROR_BAD_VALUE |
| PlaybackSession.Drain | android/src/main/java/net/no_mad/tts/TextToSpeechModule.java:207-215 | the write loop fails exactly when it stops short of the end, and then on a count of zero or less |
| PlaybackSession.DrainStopsAtEnd | android/src/main/java/net/no_mad/tts/TextToSpeechModule.java:207-215 | a device that never writes past the end leaves the loop exactly at the end |
| PlaybackSession.DrainDeliversAll | android/src/main/java/net/no_mad/tts/TextToSpeechModule.java:207-215 | a device that always accepts at least one byte never fails the loop |
| PlaybackSession.WriteAll | android/src/main/java/net/no_mad/tts/TextToSpeechModule.java:207-215 | the partial-write loop ends where `Drain` says, failing or not |
| PlaybackSession.EngineDefaultGain | android/src/main/java/net/no_mad/tts/TextToSpeechModule.java:847-853 | Google engines, by case-insensitive "com.google", start at +4.5 dB and every other engine at exactly unity |
| PlaybackSession.LowerCharIdempotent | android/src/main/java/net/no_mad/tts/TextToSpeechModule.java:848 | lower-casing a character twice is the same as once |
| PlaybackSession.EngineDefaultGainIgnoresCase | android/src/main/java/net/no_mad/tts/TextToSpeechModule.java:848 | lower-casing the name first does not change the default gain |
| PlaybackSession.FocusResultName | android/src/main/java/net/no_mad/tts/TextToSpeechModule.java:786-796 | every focus result has a non-empty name (the method is never called in the module) |
| PlaybackSession.FocusResultNameInjective | android/src/main/java/net/no_mad/tts/TextToSpeechModule.java:786-796 | distinct focus results, unknown ones included, get distinct names (for a method never called in the module) |
| PlaybackSession.ReadySettlement | android/src/main/java/net/no_mad/tts/TextToSpeechModule.java:262-268 | the ready promise resolves with "success" exactly when the engine is ready, and is rejected "not_ready" with "TTS is not ready" otherwise |
| PlaybackSession.TextToSpeechModule.constructor | android/src/main/java/net/no_mad/tts/TextToSpeechModule.java:84-116 | not ready, idle, no track, focus management on, the engine's default gain and a zero peak |
| PlaybackSession.TextToSpeechModule.SetInitialAudioGain | android/src/main/java/net/no_mad/tts/TextToSpeechModule.java:847-853 | the gain becomes the engine's default and the peak is reset to 0 |
| PlaybackSession.TextToSpeechModule.UpdateAudioGain | android/src/main/java/net/no_mad/tts/TextToSpeechModule.java:865-874 | the gain becomes the recalibrated gain of the peak |
| PlaybackSession.TextToSpeechModule.ProcessGain | android/src/main/java/net/no_mad/tts/TextToSpeechModule.java:828-845 | every sample is gained in place, and the peak becomes the maximum of the old peak and every magnitude before the gain |
| PlaybackSession.TextToSpeechModule.ProcessAudio | android/src/main/java/net/no_mad/tts/TextToSpeechModule.java:800-826 | the buffer becomes the processed buffer in place, and the peak covers every decoded sample |
| PlaybackSession.TextToSpeechModule.WriteBack | android/src/main/java/net/no_mad/tts/TextToSpeechModule.java:811-825 | writing the gained samples back byte by byte leaves exactly the processed buffer |
| PlaybackSession.TextToSpeechModule.GetInitStatus | android/src/main/java/net/no_mad/tts/TextToSpeechModule.java:330-338 | the promise is queued while not ready, and resolved at once otherwise |
| PlaybackSession.TextToSpeechModule.OnInit | android/src/main/java/net/no_mad/tts/TextToSpeechModule.java:101-112 | readiness becomes the status; every queued promise is settled in order and the queue emptied; an engine change's promise gets the readiness last |
| PlaybackSession.TextToSpeechModule.Speak | android/src/main/java/net/no_mad/tts/TextToSpeechModule.java:346-363 | refused when not ready; rejected without queuing exactly when the session is busy with the same id; queued with its id otherwise |
| PlaybackSession.TextToSpeechModule.WorkerStart | android/src/main/java/net/no_mad/tts/TextToSpeechModule.java:363-372 | the session becomes busy and any stop request is dropped; an accepted utterance becomes the playing one; a refused one settles from the status table and leaves the session busy |
| PlaybackSession.TextToSpeechModule.Accept | android/src/main/java/net/no_mad/tts/TextToSpeechModule.java:372-374 | an accepted request becomes the playing utterance and the worker waits for synthesis |
| PlaybackSession.TextToSpeechModule.RequestFocus | android/src/main/java/net/no_mad/tts/TextToSpeechModule.java:722-750 | with focus management on, the result is recorded and a refusal stops the engine; otherwise nothing changes |
| PlaybackSession.TextToSpeechModule.WorkerWake | android/src/main/java/net/no_mad/tts/TextToSpeechModule.java:375-394 | nothing changes until the session is idle; then a pending stop is acknowledged and the gain kept, or else the gain recalibrated; the playing id is cleared and the promise resolved with it |
| PlaybackSession.TextToSpeechModule.AudioDone | android/src/main/java/net/no_mad/tts/TextToSpeechModule.java:754-784 | the track is released at most once, a granted focus is abandoned once and reset to FAILED, and the session becomes idle unless interrupting |
| PlaybackSession.TextToSpeechModule.Stop | android/src/main/java/net/no_mad/tts/TextToSpeechModule.java:589-610 | the engine is always stopped; no session state changes when idle, already stopping or refused; otherwise the stop is requested, the track released, a granted focus reset to FAILED and abandoned, any other focus value kept, and the session stays busy |
| PlaybackSession.TextToSpeechModule.StopCommand | android/src/main/java/net/no_mad/tts/TextToSpeechModule.java:613-620 | resolves true when not ready without touching anything; otherwise resolves with whether the engine stopped, with the full effect of `stop()` on the session |
| PlaybackSession.TextToSpeechModule.OnFocusChange | android/src/main/java/net/no_mad/tts/TextToSpeechModule.java:87-94 | only a focus loss with focus management on calls `stop()`, with its full effect on the session; anything else changes nothing |
| PlaybackSession.TextToSpeechModule.SetAudioManagement | android/src/main/java/net/no_mad/tts/TextToSpeechModule.java:432-434 | focus management is switched as asked |
| PlaybackSession.TextToSpeechModule.OnBeginSynthesis | android/src/main/java/net/no_mad/tts/TextToSpeechModule.java:123-171 | with no stop between its two sections: skipped under a stop request; otherwise a track with the right buffer size is opened unless the constructor throws, and any failure stops the engine |
| PlaybackSession.TextToSpeechModule.CheckStopRequest | android/src/main/java/net/no_mad/tts/TextToSpeechModule.java:123-129 | the callback goes on exactly when no stop is requested, and no track is open yet |
| PlaybackSession.TextToSpeechModule.CreateTrack | android/src/main/java/net/no_mad/tts/TextToSpeechModule.java:130-168 | a track with the right buffer size is opened unless the constructor throws, it plays only when initialized and `play` succeeds, and any failure stops the engine; the stop request is not looked at |
| PlaybackSession.TextToSpeechModule.OnAudioAvailable | android/src/main/java/net/no_mad/tts/TextToSpeechModule.java:198-219 | skipped under a stop request; with no track the engine is stopped; otherwise the buffer is processed, written out, and a failed write stops the engine |
| PlaybackSession.TextToSpeechModule.OnTerminal | android/src/main/java/net/no_mad/tts/TextToSpeechModule.java:180-196 | the utterance ends: track released, granted focus abandoned, session idle |
| PlaybackSession.TextToSpeechModule.SetDefaultVoice | android/src/main/java/net/no_mad/tts/TextToSpeechModule.java:464-481 | refused when not ready; a found voice restores the engine's default gain and settles from the status table; otherwise "not_found" |
| PlaybackSession.TextToSpeechModule.SetDefaultEngine | android/src/main/java/net/no_mad/tts/TextToSpeechModule.java:523-560 | refused when not ready; the current or no engine resolves at once; an installed engine is swapped in after a `stop()` with its full effect, not ready until its init callback; otherwise "not_found" |
| PlaybackSession.TextToSpeechModule.SwapEngine | android/src/main/java/net/no_mad/tts/TextToSpeechModule.java:536-555 | an installed engine replaces the old one: the engine is stopped, readiness drops until its init, the promise waits for it and the gain restarts at the new engine's default |
| PlaybackSession.DuplicateScenario | android/src/main/java/net/no_mad/tts/TextToSpeechModule.java:346-371 | the same text asked for twice: queued, then rejected as already speaking once the worker has started it |
| PlaybackSession.ReadyModule | android/src/main/java/net/no_mad/tts/TextToSpeechModule.java:84-112 | after a successful init the module is ready, idle, with nothing queued and no track |
| PlaybackSession.QueuedModule | android/src/main/java/net/no_mad/tts/TextToSpeechModule.java:346-363 | a first `speak` on a ready module queues exactly one request carrying the text's id |
| PlaybackSession.StartPlaying | android/src/main/java/net/no_mad/tts/TextToSpeechModule.java:123-171 | init, speak, worker start and track creation leave one utterance playing with focus granted and one track open |
| PlaybackSession.StopScenario | android/src/main/java/net/no_mad/tts/TextToSpeechModule.java:589-610 | stopping a playing utterance: the worker resolves with its id and acknowledges the stop, the one track is released once, the focus abandoned once, and the same text is accepted again |
| PlaybackSession.StopBetweenSections | android/src/main/java/net/no_mad/tts/TextToSpeechModule.java:123-168 | a `stop()` between the two sections of `onBeginSynthesis` leaves a new track open and playing under the stop request |
| KotlinModule.StreamType | android/src/main/java/net/no_mad/tts/TextToSpeechModule.kt:393-402 | the seven stream names map to stream types and every other string maps to USE_DEFAULT_STREAM_TYPE |
| KotlinModule.StreamNamesHaveOwnTypes | android/src/main/java/net/no_mad/tts/TextToSpeechModule.kt:393-402 | each of the seven names gets its own stream type |
| KotlinModule.StreamParam | android/src/main/java/net/no_mad/tts/TextToSpeechModule.kt:389 | a missing stream parameter reads as "" |
| KotlinModule.MissingStreamUsesDefault | android/src/main/java/net/no_mad/tts/TextToSpeechModule.kt:389-402 | a missing stream parameter selects the default stream |
| KotlinModule.ReadySettlement | android/src/main/java/net/no_mad/tts/TextToSpeechModule.kt:98-104 | resolves with "success" exactly when ready is true, and is rejected "no_engine" otherwise |
| KotlinModule.NotReady | android/src/main/java/net/no_mad/tts/TextToSpeechModule.kt:373-385 | a command passes only when ready is true; "not_ready" while unknown, "no_engine" after a failed init |
| KotlinModule.NotReadyAgreesWithReadySettlement | android/src/main/java/net/no_mad/tts/TextToSpeechModule.kt:373-385 | once readiness is known the gate refuses exactly when the ready promise would be rejected, with the same rejection |
| KotlinModule.SpokenSettlement | android/src/main/java/net/no_mad/tts/TextToSpeechModule.kt:168-173 | an accepted utterance resolves with its id; any other engine answer settles from the status table |
| KotlinModule.TextToSpeechModule.constructor | android/src/main/java/net/no_mad/tts/TextToSpeechModule.kt:18-40 | readiness unknown, no promise queued, ducking off |
| KotlinModule.TextToSpeechModule.GetInitStatus | android/src/main/java/net/no_mad/tts/TextToSpeechModule.kt:139-147 | the promise is queued exactly while readiness is unknown, and settled at once otherwise |
| KotlinModule.TextToSpeechModule.OnInit | android/src/main/java/net/no_mad/tts/TextToSpeechModule.kt:31-36 | readiness becomes known; every queued promise is settled in order and the queue emptied; an engine change's promise gets the readiness last |
| KotlinModule.TextToSpeechModule.SetDucking | android/src/main/java/net/no_mad/tts/TextToSpeechModule.kt:195-200 | refused unless ready, leaving the flag; otherwise the flag is set and "success" resolved |
| KotlinModule.TextToSpeechModule.SetDefaultEngine | android/src/main/java/net/no_mad/tts/TextToSpeechModule.kt:283-302 | refused unless ready; an installed engine makes readiness unknown and its promise waits for the init callback; otherwise "not_found" |
| KotlinModule.TextToSpeechModule.Stop | android/src/main/java/net/no_mad/tts/TextToSpeechModule.kt:331-337 | refused unless ready; otherwise resolves with whether the engine stopped |
| KotlinModule.TextToSpeechModule.Speak | android/src/main/java/net/no_mad/tts/TextToSpeechModule.kt:150-174 | the engine is asked exactly when ready, the ducking gate passes and both volume and pan keys are present; a missing key throws; a refused focus rejects before any engine call; an accepted request carries the text, its id and its stream type |
| KotlinModule.TextToSpeechModule.SpeakAsWritten | android/src/main/java/net/no_mad/tts/TextToSpeechModule.kt:150-174 | with ducking on, every call throws before the focus result is looked at, and the engine is never asked; with ducking off it behaves as `Speak` |
| KotlinModule.DuckingScenario | android/src/main/java/net/no_mad/tts/TextToSpeechModule.kt:23 | from a ready module with ducking on and focus granted, the code as written throws where the corrected `speak` resolves with the id |

## Left out

- Android framework objects are not modelled: `TextToSpeech`, `AudioTrack`, `AudioManager` and `AudioFocusRequest`. Their answers are parameters, and their other effects (routing, volume, pan, audio attributes, the 450 ms sleep) are not modelled.
- `forceSpeakerRoute` and the car-audio usage are not modelled; they only choose attributes and devices.
- The lock, the two conditions and the executor are not modelled. Each locked step is one atomic method, and the order they impose becomes preconditions. `onBeginSynthesis` is the exception: `CheckStopRequest` and `CreateTrack` are its two locked sections, and `OnBeginSynthesis` is the run where nothing comes between them. The model makes no claim about blocking, wake-up or deadlock; in particular it says nothing about whether `stop()` returns.
- Floating point is left out: rates, pitch, the values of volume and pan, and dB logging. Whether the Kotlin `speak` finds the volume and pan keys is modelled. The gain constants are the integers the `(long)` casts of the double literals produce.
- Promise transport and event emission through the React bridge are not modelled. A settlement is returned as a value.
- `voices`, `engines`, `setDefaultLanguage` and the ISO3 to ISO2 lookups are left out; they depend on `java.util.Locale` tables outside the model.
- `setDefaultRate` and `setDefaultPitch` are left out; they are floating point passed to the engine and then the status table.
- `getHash` is modelled only through `UtteranceId`.
- Debug code is left out: `enableTestCode`, `writeAudioToFile`, `testCodeReset` and the clip counters.
- The Windows and iOS implementations are not part of this model.
- Branches for API levels below 21 are left out, in the Java module and in the Kotlin `speak` and `setDefaultVoice`.
- Lower-casing is modelled for ASCII letters only. Java's `toLowerCase` also folds non-ASCII letters.
- The Java `ducking` flag is not modelled. `setDucking` stores it and nothing reads it.
- The Kotlin `onDone`, `onError` and `onStop` callbacks are not modelled. With ducking on they abandon focus through the same unassigned listener as `speak`; otherwise they only send events.
- Kotlin `setDefaultVoice`, `requestInstallEngine` and `requestInstallData` are left out; they settle a promise from a framework answer.
- PlaybackSession.TextToSpeechModule.WorkerWake: resolves with the stored playing id. The Java worker resolves with its local copy, which holds the same value.
- PlaybackSession.Drain: `AudioTrack.write` is modelled as a function of offset and remaining size. A device whose answers depend on anything else is not modelled.

Behaviour of the code worth knowing:

- A refused focus request does not abort the utterance. `requestFocus` only stops the engine, and synthesis is still requested (`TextToSpeechModule.java` lines 748-750 and 683).
- `largestSample` is not reset per utterance. It is a running maximum until the next `setInitialAudioGain`.
- A synthesis request the engine refuses leaves `isTtsIdle` false (`TextToSpeechModule.java` lines 369 and 395-397). The next utterance sets it false again, and only a terminal callback, through `audioDone(false)`, sets it back to true (lines 775-778). With focus management on and focus granted (lines 722-745), the refusal also leaves `audioFocus` GRANTED: no terminal callback follows, so the focus stays held until a later `audioDone`, from the next utterance or a `stop()`, abandons it.
- Java `getInitStatus` queues while `ready` is false, including after an init that failed (`TextToSpeechModule.java` lines 332-333). Such a promise waits for the next init callback.
- Nothing in the Java module calls `audioFocusResultToString` (lines 786-796); `FocusResultName` models it as written.
- The Kotlin `setDefaultEngine` checks that the named engine is installed, then re-creates the engine without passing the name (`TextToSpeechModule.kt` line 289), so the new engine is the system default. The Java module passes the name (`TextToSpeechModule.java` lines 541-555).
- `stop()` always calls `tts.stop()`, even on an idle session (`TextToSpeechModule.java` line 591).
- `onBeginSynthesis` looks at `stopRequest` only in its first locked section (lines 123-129). A `stop()` that runs before the second section (lines 151-168) leaves the track that section builds open and playing under the stop request, until the terminal callback releases it. `PlaybackSession.StopBetweenSections` shows this.
- The lower clamp of `updateAudioGain` (lines 870-872) never applies: even a full-scale peak gives a raw gain of 17770592, above `audioGainMin` (`AdaptiveGain.RawGainAboveUnity`).

## Findings

| source | as written | input that shows it | evidently intended | confidence | as-written member | corrected member |
|---|---|---|---|---|---|---|
| android/src/main/java/net/no_mad/tts/TextToSpeechModule.kt:23, 153-164 | `afChangeListener` is `lateinit` and never assigned. With ducking on, `speak` reads it for the focus request, which throws `UninitializedPropertyAccessException` before the focus result is checked, and the promise is never settled | engine ready, `setDucking(true)`, then `speak("x")` with focus granted | request focus with an assigned listener; reject only when focus is not granted, otherwise speak | not executed | KotlinModule.TextToSpeechModule.SpeakAsWritten (shown by KotlinModule.DuckingScenario) | KotlinModule.TextToSpeechModule.Speak |
