/**
  The fixed-point adaptive gain of the Android module: the per-sample pipeline
  `processAudio` applies to every synthesized buffer, the running peak that
  `processGain` records, and the recalibration `updateAudioGain` performs
  after an utterance that was spoken to the end.

  Gains and widened samples are in Q8.24: the real value is the integer
  divided by 2^24.  The constants are the integers the Java `(long)` casts of
  the decibel-derived double literals produce.
*/
module AdaptiveGain {
  import opened JavaInts

  /** `UNITY_GAIN_Q8p24`, 1 << 24: a gain of 1.0. */
  const UNITY: int := 0x100_0000
  /** `audioGainClipRegion`, (long)(0.9441 * UNITY): -0.5 dB of headroom. */
  const CLIP_REGION: int := 15839369
  /** The default gain of Google engines, (long)(1.6788 * UNITY): +4.5 dB. */
  const GOOGLE_GAIN: int := 28165590
  /** `audioGainMax`, (long)(2.8184 * UNITY): +9 dB. */
  const GAIN_MAX: int := 47284905
  /** `audioGainMin`, (long)(1.0 * UNITY): 0 dB. */
  const GAIN_MIN: int := 0x100_0000
  /** The largest magnitude of a widened sample: |-32768| << 9. */
  const FULL_SCALE: int := 0x100_0000

  /** A gain in the range the controller keeps it in. */
  predicate ValidGain(g: int) {
    GAIN_MIN <= g <= GAIN_MAX
  }

  /** A value `largestSample` can hold: the magnitude of some widened 16-bit sample, or 0. */
  predicate ValidPeak(p: int) {
    0 <= p <= FULL_SCALE && p % 512 == 0
  }

  // ---------------------------------------------------------------------------
  // One sample
  // ---------------------------------------------------------------------------

  /**
    A little-endian sample from its high and low byte:
    `(short)(((short) hi << 8) | ((short) lo & 0xff))`.  The shifted high byte
    has its low 8 bits clear and the masked low byte fits in them, so the OR is
    a sum, and the result is already a `short`.
  */
  function DecodeSample(hi: JByte, lo: JByte): (s: JShort)
    ensures s / 0x100 == hi && s % 0x100 == lo % 0x100
  {
    hi * 0x100 + lo % 0x100
  }

  /** The high byte written back: `(byte)((sample >> 8) & 0xff)`. */
  function HighByte(sample: int): (b: JByte)
    ensures (b - sample / 0x100) % 0x100 == 0
    ensures -0x8000 <= sample < 0x8000 ==> b == sample / 0x100
  {
    ToByte((sample / 0x100) % 0x100)
  }

  /** The low byte written back: `(byte)(sample & 0xff)`. */
  function LowByte(sample: int): (b: JByte)
    ensures (b - sample) % 0x100 == 0
  {
    ToByte(sample % 0x100)
  }

  /** Widening into Q8.24: `(long) sample << 9`. */
  function Widen(s: JShort): (w: int)
    ensures w % 512 == 0 && w / 512 == s
    ensures -FULL_SCALE <= w < FULL_SCALE
  {
    s * 512
  }

  /** The gain applied to a widened sample: `(sample * audioGain) >> 24`. */
  function ApplyGain(w: int, gain: int): (r: int)
    ensures r * UNITY <= w * gain < (r + 1) * UNITY
    ensures gain == UNITY ==> r == w
  {
    (w * gain) / UNITY
  }

  /** Narrowing back to 16-bit scale: `(int)(sample >> 9)`. */
  function Narrow(x: int): (r: JInt)
    ensures (x / 512 - r) % TWO_POW_32 == 0
    ensures -0x8000_0000 <= x / 512 < 0x8000_0000 ==> r == x / 512
  {
    ToInt(x / 512)
  }

  /** The reference saturation: the nearest value of the 16-bit range. */
  function Saturate(x: int): JShort {
    if x > 0x7FFF then 0x7FFF else if x < -0x8000 then -0x8000 else x
  }

  /**
    The hard clamp as the source writes it: the sample is out of 16-bit range
    when `(sample >> 15) ^ (sample >> 31)` is non-zero, and is then replaced by
    `0x7FFF ^ (sample >> 31)`.  It coincides with saturation, never a wrap.
  */
  function HardClamp(sample: JInt): (r: int)
    ensures r == Saturate(sample)
  {
    var sign := sample / 0x8000_0000;
    assert sign == 0 || sign == -1;
    if XorSignMask(sample / 0x8000, sign) != 0 then XorSignMask(0x7FFF, sign) else sample
  }

  /** The value a 16-bit input sample is rewritten to under `gain`. */
  function SampleOut(s: JShort, gain: int): JShort {
    HardClamp(Narrow(ApplyGain(Widen(s), gain)))
  }

  /** Both byte orders round-trip: decoding the written bytes gives the sample back, and conversely. */
  lemma SampleBytesRoundTrip(s: JShort, hi: JByte, lo: JByte)
    ensures DecodeSample(HighByte(s), LowByte(s)) == s
    ensures HighByte(DecodeSample(hi, lo)) == hi && LowByte(DecodeSample(hi, lo)) == lo
  {
    EncodeThenDecode(s);
    DecodeThenEncode(hi, lo);
  }

  /** Writing a sample's two bytes and decoding them gives the sample back. */
  lemma EncodeThenDecode(s: JShort)
    ensures DecodeSample(HighByte(s), LowByte(s)) == s
  {
    var h: int, l: int := HighByte(s), LowByte(s);
    assert h == s / 0x100;
    assert l % 0x100 == s % 0x100;
  }

  /** Decoding two bytes and writing the sample back gives the same two bytes. */
  lemma DecodeThenEncode(hi: JByte, lo: JByte)
    ensures HighByte(DecodeSample(hi, lo)) == hi && LowByte(DecodeSample(hi, lo)) == lo
  {
    var d := DecodeSample(hi, lo);
    assert HighByte(d) == d / 0x100 == hi;
    var b: int := LowByte(d);
    assert (b - d) % 0x100 == 0;
    assert (b - lo) % 0x100 == 0;
  }

  /**
    With a gain in `[0, GAIN_MAX]` every rewritten sample is the gained value
    `((s << 9) * gain >> 24) >> 9` when that value fits in 16 bits, and the
    bound of the same sign otherwise.
  */
  lemma SampleOutSaturates(s: JShort, gain: int)
    requires 0 <= gain <= GAIN_MAX
    ensures var v := ApplyGain(Widen(s), gain) / 512;
      && (-0x8000 <= v <= 0x7FFF ==> SampleOut(s, gain) == v)
      && (v > 0x7FFF ==> SampleOut(s, gain) == 0x7FFF)
      && (v < -0x8000 ==> SampleOut(s, gain) == -0x8000)
  {
    GainedInIntRange(s, gain);
  }

  /** The gained sample stays far inside the `int` range, so the `(int)` cast never wraps. */
  lemma GainedInIntRange(s: JShort, gain: int)
    requires 0 <= gain <= GAIN_MAX
    ensures -0x4_0000 <= ApplyGain(Widen(s), gain) / 512 <= 0x4_0000
    ensures Narrow(ApplyGain(Widen(s), gain)) == ApplyGain(Widen(s), gain) / 512
  {
    var w := Widen(s);
    assert -FULL_SCALE <= w <= FULL_SCALE;
    MulBounds(w, gain, FULL_SCALE, GAIN_MAX);
    assert -FULL_SCALE * GAIN_MAX <= w * gain <= FULL_SCALE * GAIN_MAX;
  }

  /** |a * b| <= A * B when |a| <= A and 0 <= b <= B. */
  lemma MulBounds(a: int, b: int, bigA: int, bigB: int)
    requires -bigA <= a <= bigA && 0 <= b <= bigB
    ensures -bigA * bigB <= a * b <= bigA * bigB
  {
    if a >= 0 {
      assert a * b <= bigA * b <= bigA * bigB;
    } else {
      assert (-a) * b <= bigA * b <= bigA * bigB;
    }
  }

  /** At unity gain every sample is written back unchanged. */
  lemma SampleOutUnity(s: JShort)
    ensures SampleOut(s, UNITY) == s
  {
    assert ApplyGain(Widen(s), UNITY) == s * 512;
  }

  // ---------------------------------------------------------------------------
  // A whole buffer
  // ---------------------------------------------------------------------------

  /** The `i`-th little-endian sample of a byte buffer. */
  function SampleAt(a: seq<JByte>, i: nat): JShort
    requires 2 * i + 1 < |a|
  {
    DecodeSample(a[2 * i + 1], a[2 * i])
  }

  /** The widened samples of a buffer, in order: the `long[]` `processAudio` builds. */
  function Widened(a: seq<JByte>): (ws: seq<int>)
    ensures |ws| == |a| / 2
  {
    seq(|a| / 2, i requires 0 <= i < |a| / 2 => Widen(SampleAt(a, i)))
  }

  /** Every widened sample gained: what `processGain` leaves in its array. */
  function GainAll(ws: seq<int>, gain: int): (gs: seq<int>)
    ensures |gs| == |ws|
  {
    seq(|ws|, i requires 0 <= i < |ws| => ApplyGain(ws[i], gain))
  }

  /** Byte `k` of the buffer after processing. */
  function ProcessedByte(a: seq<JByte>, gain: int, k: nat): JByte
    requires k < |a|
  {
    if k < 2 * (|a| / 2) then
      var out := SampleOut(SampleAt(a, k / 2), gain);
      if k % 2 == 0 then LowByte(out) else HighByte(out)
    else
      a[k]
  }

  /** The two bytes of sample `i` after processing are the little-endian encoding of its output. */
  lemma ProcessedPair(a: seq<JByte>, gain: int, i: nat)
    requires i < |a| / 2
    ensures ProcessedByte(a, gain, 2 * i) == LowByte(SampleOut(SampleAt(a, i), gain))
    ensures ProcessedByte(a, gain, 2 * i + 1) == HighByte(SampleOut(SampleAt(a, i), gain))
  {
    assert (2 * i) / 2 == i && (2 * i) % 2 == 0;
    assert (2 * i + 1) / 2 == i && (2 * i + 1) % 2 == 1;
  }

  /** A sample whose two bytes were written from `out` reads back as `out`. */
  lemma PairDecodes(r: seq<JByte>, i: nat, out: JShort)
    requires 2 * i + 1 < |r|
    requires r[2 * i] == LowByte(out) && r[2 * i + 1] == HighByte(out)
    ensures SampleAt(r, i) == out
  {
    SampleBytesRoundTrip(out, 0, 0);
  }

  /**
    The buffer `processAudio` leaves behind: same length, every complete
    sample rewritten, a trailing odd byte untouched.
  */
  function ProcessedAudio(a: seq<JByte>, gain: int): (r: seq<JByte>)
    ensures |r| == |a|
    ensures |a| % 2 == 1 ==> r[|a| - 1] == a[|a| - 1]
  {
    seq(|a|, k requires 0 <= k < |a| => ProcessedByte(a, gain, k))
  }

  /** Each rewritten sample decodes to the gained and clamped value of the sample it replaced. */
  lemma ProcessedAudioSamples(a: seq<JByte>, gain: int, i: nat)
    requires i < |a| / 2
    ensures SampleAt(ProcessedAudio(a, gain), i) == SampleOut(SampleAt(a, i), gain)
  {
    var r := ProcessedAudio(a, gain);
    ProcessedPair(a, gain, i);
    assert r[2 * i] == ProcessedByte(a, gain, 2 * i);
    assert r[2 * i + 1] == ProcessedByte(a, gain, 2 * i + 1);
    PairDecodes(r, i, SampleOut(SampleAt(a, i), gain));
  }

  /** The output sample of every complete input sample, in order. */
  function SamplesOut(a: seq<JByte>, gain: int): (outs: seq<JShort>)
    ensures |outs| == |a| / 2
  {
    seq(|a| / 2, i requires 0 <= i < |a| / 2 => SampleOut(SampleAt(a, i), gain))
  }

  /**
    `r` is `a` with its first `i` samples rewritten to `outs` (low byte
    first) and every byte from `2 * i` on untouched: the state of the
    write-back loop of `processAudio` after `i` rounds.
  */
  ghost predicate WrittenUpTo(r: seq<JByte>, a: seq<JByte>, outs: seq<JShort>, i: nat) {
    && |r| == |a| && i <= |outs| && 2 * |outs| <= |a|
    && (forall m :: 0 <= m < i ==> r[2 * m] == LowByte(outs[m]) && r[2 * m + 1] == HighByte(outs[m]))
    && (forall k :: 2 * i <= k < |r| ==> r[k] == a[k])
  }

  /** One round of the write-back loop: sample `i` written, high byte then low byte. */
  lemma WrittenUpToStep(r: seq<JByte>, a: seq<JByte>, outs: seq<JShort>, i: nat)
    requires WrittenUpTo(r, a, outs, i) && i < |outs|
    ensures WrittenUpTo(r[2 * i + 1 := HighByte(outs[i])][2 * i := LowByte(outs[i])], a, outs, i + 1)
  {
  }

  /** After the last round every byte is the processed byte. */
  lemma WrittenUpToBytes(r: seq<JByte>, a: seq<JByte>, gain: int, k: nat)
    requires WrittenUpTo(r, a, SamplesOut(a, gain), |a| / 2) && k < |a|
    ensures r[k] == ProcessedByte(a, gain, k)
  {
    if k < 2 * (|a| / 2) {
      var m := k / 2;
      var outs := SamplesOut(a, gain);
      assert outs[m] == SampleOut(SampleAt(a, m), gain);
      ProcessedPair(a, gain, m);
      if k % 2 == 0 {
        assert k == 2 * m;
      } else {
        assert k == 2 * m + 1;
      }
    }
  }

  /** After the last round the buffer is the processed buffer. */
  lemma WrittenUpToComplete(r: seq<JByte>, a: seq<JByte>, gain: int)
    requires WrittenUpTo(r, a, SamplesOut(a, gain), |a| / 2)
    ensures r == ProcessedAudio(a, gain)
  {
    var p := ProcessedAudio(a, gain);
    forall k | 0 <= k < |a|
      ensures r[k] == p[k]
    {
      WrittenUpToBytes(r, a, gain, k);
      assert p[k] == ProcessedByte(a, gain, k);
    }
  }

  /** At unity gain both bytes of a sample are written back as they were. */
  lemma ProcessedPairUnity(a: seq<JByte>, i: nat)
    requires i < |a| / 2
    ensures ProcessedByte(a, UNITY, 2 * i) == a[2 * i]
    ensures ProcessedByte(a, UNITY, 2 * i + 1) == a[2 * i + 1]
  {
    SampleOutUnity(SampleAt(a, i));
    SampleBytesRoundTrip(0, a[2 * i + 1], a[2 * i]);
    ProcessedPair(a, UNITY, i);
  }

  /** At unity gain each processed byte is the byte it replaced. */
  lemma ProcessedByteUnity(a: seq<JByte>, k: nat)
    requires k < |a|
    ensures ProcessedByte(a, UNITY, k) == a[k]
  {
    if k < 2 * (|a| / 2) {
      var i := k / 2;
      assert i < |a| / 2;
      ProcessedPairUnity(a, i);
      assert k == 2 * i || k == 2 * i + 1;
    }
  }

  /** At unity gain `processAudio` leaves every byte as it was. */
  lemma {:induction false} ProcessedAudioUnity(a: seq<JByte>)
    ensures ProcessedAudio(a, UNITY) == a
  {
    var r := ProcessedAudio(a, UNITY);
    forall k | 0 <= k < |a|
      ensures r[k] == a[k]
    {
      assert r[k] == ProcessedByte(a, UNITY, k);
      ProcessedByteUnity(a, k);
    }
  }

  // ---------------------------------------------------------------------------
  // Peak tracking and recalibration
  // ---------------------------------------------------------------------------

  function Magnitude(w: int): nat {
    if w < 0 then -w else w
  }

  /**
    The value `largestSample` holds after `processGain` has seen `ws`, starting
    from `m`: the maximum of `m` and every magnitude in `ws`.
  */
  function Peak(m: int, ws: seq<int>): (p: int)
    ensures p >= m
    ensures forall i :: 0 <= i < |ws| ==> Magnitude(ws[i]) <= p
    ensures p == m || exists i :: 0 <= i < |ws| && p == Magnitude(ws[i])
  {
    if ws == [] then m
    else
      var before := Peak(m, ws[..|ws| - 1]);
      var last := Magnitude(ws[|ws| - 1]);
      if last > before then last else before
  }

  /** The magnitude of a widened sample is a value `largestSample` may hold. */
  lemma WidenedMagnitudeValid(s: JShort)
    ensures ValidPeak(Magnitude(Widen(s)))
  {
    var v: int := s;
    var mag: int := if v < 0 then -v else v;
    assert Magnitude(Widen(s)) == mag * 512;
    assert (mag * 512) % 512 == 0;
  }

  /** The peak of a buffer's widened samples stays a value `largestSample` may hold. */
  lemma PeakOfWidenedValid(m: int, a: seq<JByte>)
    requires ValidPeak(m)
    ensures ValidPeak(Peak(m, Widened(a)))
  {
    var ws := Widened(a);
    var p := Peak(m, ws);
    if p != m {
      var i :| 0 <= i < |ws| && p == Magnitude(ws[i]);
      WidenedMagnitudeValid(SampleAt(a, i));
    }
  }

  /** The raw recalibrated gain for a non-zero peak: `UNITY^2 / ((peak * CLIP_REGION) >> 24)`. */
  function RawGain(peak: int): (g: int)
    requires ValidPeak(peak) && peak != 0
    ensures g > 0
  {
    assert peak * CLIP_REGION >= 512 * CLIP_REGION;
    UNITY * UNITY / ((peak * CLIP_REGION) / UNITY)
  }

  /**
    `updateAudioGain`: with no recorded peak the gain is kept; otherwise the
    raw gain is clamped into `[GAIN_MIN, GAIN_MAX]`.
  */
  function RecalibratedGain(peak: int, gain: int): (g: int)
    requires ValidPeak(peak)
    ensures peak == 0 ==> g == gain
    ensures peak != 0 ==> ValidGain(g)
    ensures peak != 0 && ValidGain(RawGain(peak)) ==> g == RawGain(peak)
    ensures peak != 0 && RawGain(peak) > GAIN_MAX ==> g == GAIN_MAX
    ensures peak != 0 && RawGain(peak) < GAIN_MIN ==> g == GAIN_MIN
  {
    if peak != 0 then
      var raw := RawGain(peak);
      if raw > GAIN_MAX then GAIN_MAX else if raw < GAIN_MIN then GAIN_MIN else raw
    else
      gain
  }

  /** q * a <= q * b for q >= 0 and a <= b. */
  lemma {:induction false} MulMonotone(q: nat, a: int, b: int)
    requires a <= b
    ensures q * a <= q * b
  {
    if q > 0 {
      MulMonotone(q - 1, a, b);
      assert q * a == (q - 1) * a + a;
      assert q * b == (q - 1) * b + b;
    }
  }

  /** For 0 < a <= b, n / b <= n / a. */
  lemma DivAntiMonotone(n: nat, a: int, b: int)
    requires 0 < a <= b
    ensures n / b <= n / a
  {
    var q := n / b;
    assert n == q * b + n % b;
    MulMonotone(q, a, b);
    var p := n / a;
    assert n == p * a + n % a;
    assert a * (p + 1) == p * a + a;
    if q > p {
      MulMonotone(a, p + 1, q);
      assert false;
    }
  }

  /**
    Automatic levelling: a louder utterance (a larger peak) never leads to a
    larger gain than a quieter one.
  */
  lemma RecalibrationAntiMonotone(p1: int, p2: int, gain: int)
    requires ValidPeak(p1) && ValidPeak(p2) && 0 < p1 <= p2
    ensures RecalibratedGain(p2, gain) <= RecalibratedGain(p1, gain)
  {
    var d1 := (p1 * CLIP_REGION) / UNITY;
    var d2 := (p2 * CLIP_REGION) / UNITY;
    assert p1 * CLIP_REGION <= p2 * CLIP_REGION;
    assert d1 <= d2;
    assert p1 * CLIP_REGION >= 512 * CLIP_REGION;
    assert d1 > 0;
    DivAntiMonotone(UNITY * UNITY, d1, d2);
  }

  /**
    Even a full-scale peak leaves the raw gain at 17770592 or more, above
    GAIN_MIN, so the lower clamp of `updateAudioGain` never applies and every
    recalibrated gain is at least that.
  */
  lemma RawGainAboveUnity(peak: int, gain: int)
    requires ValidPeak(peak) && peak != 0
    ensures RawGain(peak) >= 17770592 > GAIN_MIN
    ensures RecalibratedGain(peak, gain) >= 17770592
  {
    var d := (peak * CLIP_REGION) / UNITY;
    MulMonotone(CLIP_REGION, peak, FULL_SCALE);
    assert peak * CLIP_REGION <= FULL_SCALE * CLIP_REGION;
    assert d <= CLIP_REGION;
    assert peak * CLIP_REGION >= 512 * CLIP_REGION;
    assert d > 0;
    DivAntiMonotone(UNITY * UNITY, d, CLIP_REGION);
    assert UNITY * UNITY / CLIP_REGION == 17770592;
  }

  /** A full-scale peak brings the gain down to about 1/0.9441; the quietest peak hits the maximum. */
  lemma RecalibrationExtremes(gain: int)
    ensures RecalibratedGain(FULL_SCALE, gain) == 17770592
    ensures RecalibratedGain(512, gain) == GAIN_MAX
  {
    assert (FULL_SCALE * CLIP_REGION) / UNITY == CLIP_REGION;
    assert (512 * CLIP_REGION) / UNITY == 483;
  }
}
