/**
  The Java string operations the module relies on: `String.hashCode` over
  UTF-16 code units, `Integer.toString`, and the lower-casing and substring
  test used to recognise Google engines.
*/
module JavaText {
  import opened JavaInts

  /** The UTF-16 code units of one character: one unit, or a surrogate pair above U+FFFF. */
  function Units(c: char): (u: seq<int>)
    ensures 1 <= |u| <= 2
    ensures forall k :: 0 <= k < |u| ==> 0 <= u[k] < 0x1_0000
    ensures |u| == 1 <==> c as int < 0x1_0000
    ensures |u| == 1 ==> u[0] == c as int
    ensures |u| == 2 ==>
      && 0xD800 <= u[0] < 0xDC00 <= u[1] < 0xE000
      && 0x1_0000 + (u[0] - 0xD800) * 0x400 + (u[1] - 0xDC00) == c as int
  {
    var v := c as int;
    if v < 0x1_0000 then [v]
    else [0xD800 + (v - 0x1_0000) / 0x400, 0xDC00 + (v - 0x1_0000) % 0x400]
  }

  /** The UTF-16 code units a Java `String` holds for `s`. */
  function Utf16(s: string): (u: seq<int>)
    ensures |s| <= |u| <= 2 * |s|
    ensures forall k :: 0 <= k < |u| ==> 0 <= u[k] < 0x1_0000
  {
    if s == [] then [] else Utf16(s[..|s| - 1]) + Units(s[|s| - 1])
  }

  /**
    Reading UTF-16 code units back into characters, from the end: a high
    surrogate followed by a low one is one character above U+FFFF, any other
    unit outside the surrogate range is a character of its own, and a stray
    surrogate reads as U+FFFD.
  */
  function FromUtf16(u: seq<int>): (s: string)
    ensures |s| <= |u|
  {
    if u == [] then []
    else
      var n := |u|;
      if n >= 2 && 0xD800 <= u[n - 2] < 0xDC00 && 0xDC00 <= u[n - 1] < 0xE000 then
        FromUtf16(u[..n - 2]) + [(0x1_0000 + (u[n - 2] - 0xD800) * 0x400 + (u[n - 1] - 0xDC00)) as char]
      else if 0 <= u[n - 1] < 0xD800 || 0xE000 <= u[n - 1] < 0x1_0000 then
        FromUtf16(u[..n - 1]) + [u[n - 1] as char]
      else
        FromUtf16(u[..n - 1]) + ['\U{FFFD}']
  }

  /** The code units of a string read back as the string: no two strings share their UTF-16 form. */
  lemma {:induction false} Utf16RoundTrip(s: string)
    ensures FromUtf16(Utf16(s)) == s
  {
    if s != [] {
      var init, c := s[..|s| - 1], s[|s| - 1];
      assert s == init + [c];
      Utf16Snoc(init, c);
      Utf16RoundTrip(init);
    }
  }

  /** One more character at the end of a string reads back as one more character. */
  lemma Utf16Snoc(init: string, c: char)
    ensures FromUtf16(Utf16(init + [c])) == FromUtf16(Utf16(init)) + [c]
  {
    assert (init + [c])[..|init|] == init;
    assert Utf16(init + [c]) == Utf16(init) + Units(c);
    FromUtf16Appends(Utf16(init), c);
  }

  /** Appending the units of one character appends that character to the reading. */
  lemma FromUtf16Appends(u: seq<int>, c: char)
    ensures FromUtf16(u + Units(c)) == FromUtf16(u) + [c]
  {
    var w := u + Units(c);
    var n := |w|;
    if c as int < 0x1_0000 {
      assert w[..n - 1] == u;
      assert w[n - 1] == c as int;
    } else {
      assert w[..n - 2] == u;
      assert w[n - 2] == Units(c)[0] && w[n - 1] == Units(c)[1];
    }
  }

  /** `String.hashCode`: `h = 31 * h + unit` over the code units, in wrapping 32-bit arithmetic. */
  function HashCode(u: seq<int>): JInt {
    if u == [] then 0 else ToInt(31 * HashCode(u[..|u| - 1]) + u[|u| - 1])
  }

  /** The hash as documented for `String`: the sum of `u[i] * 31^(n-1-i)`, without wrap-around. */
  function HashPolynomial(u: seq<int>): int {
    if u == [] then 0 else 31 * HashPolynomial(u[..|u| - 1]) + u[|u| - 1]
  }

  /** One step of the hash: wrapping before or after `31 * h + unit` gives the same `int`. */
  lemma HashStepWraps(h: int, p: int, c: int)
    requires h == ToInt(p)
    ensures ToInt(31 * h + c) == ToInt(31 * p + c)
  {
    var k := if p % TWO_POW_32 < 0x8000_0000 then p / TWO_POW_32 else p / TWO_POW_32 + 1;
    assert p == h + k * TWO_POW_32;
    ToIntCongruent(31 * p + c, 31 * h + c, 31 * k);
  }

  /** Wrapping at every step gives the polynomial reduced once, modulo 2^32, into the `int` range. */
  lemma {:induction false} HashCodeIsWrappedPolynomial(u: seq<int>)
    ensures HashCode(u) == ToInt(HashPolynomial(u))
  {
    if u != [] {
      var init := u[..|u| - 1];
      HashCodeIsWrappedPolynomial(init);
      HashStepWraps(HashCode(init), HashPolynomial(init), u[|u| - 1]);
    }
  }

  // ---------------------------------------------------------------------------
  // Integer.toString
  // ---------------------------------------------------------------------------

  function DigitChar(d: int): char
    requires 0 <= d < 10
  {
    ('0' as int + d) as char
  }

  predicate IsDigit(c: char) {
    '0' <= c <= '9'
  }

  /** The decimal digits of a natural number, most significant first, with no leading zero. */
  function Digits(n: nat): (s: string)
    ensures |s| >= 1
    ensures forall k :: 0 <= k < |s| ==> IsDigit(s[k])
  {
    if n < 10 then [DigitChar(n)] else Digits(n / 10) + [DigitChar(n % 10)]
  }

  /** `Integer.toString(n)`: a minus sign for negative values, then the digits of |n|. */
  function DecimalString(n: int): (s: string)
    ensures s != []
    ensures n >= 0 <==> IsDigit(s[0])
  {
    if n < 0 then "-" + Digits(-n) else Digits(n)
  }

  /** The value of a string of digits. */
  function DigitsValue(s: string): int {
    if s == [] then 0 else 10 * DigitsValue(s[..|s| - 1]) + (s[|s| - 1] as int - '0' as int)
  }

  /** Reading a decimal string back, the inverse of `DecimalString`. */
  function ParseDecimal(s: string): int {
    if s != [] && s[0] == '-' then -DigitsValue(s[1..]) else DigitsValue(s)
  }

  lemma {:induction false} DigitsRoundTrip(n: nat)
    ensures DigitsValue(Digits(n)) == n
  {
    if n >= 10 {
      DigitsRoundTrip(n / 10);
      var s := Digits(n);
      assert s[..|s| - 1] == Digits(n / 10);
    }
  }

  /** `Integer.toString` loses nothing: parsing its output gives the number back. */
  lemma DecimalRoundTrip(n: int)
    ensures ParseDecimal(DecimalString(n)) == n
  {
    if n < 0 {
      DigitsRoundTrip(-n);
      assert DecimalString(n)[1..] == Digits(-n);
    } else {
      DigitsRoundTrip(n);
    }
  }

  /** Two numbers have the same decimal form exactly when they are equal. */
  lemma DecimalInjective(a: int, b: int)
    ensures DecimalString(a) == DecimalString(b) <==> a == b
  {
    DecimalRoundTrip(a);
    DecimalRoundTrip(b);
  }

  /**
    The utterance id: `Integer.toString(utterance.hashCode())`.  It is never
    empty and it encodes the hash exactly.
  */
  function UtteranceId(text: string): (id: string)
    ensures id != []
  {
    DecimalString(HashCode(Utf16(text)))
  }

  /** Two texts get the same id exactly when their Java hashes are equal; equal texts always do. */
  lemma UtteranceIdMatchesHash(a: string, b: string)
    ensures UtteranceId(a) == UtteranceId(b) <==> HashCode(Utf16(a)) == HashCode(Utf16(b))
  {
    DecimalInjective(HashCode(Utf16(a)), HashCode(Utf16(b)));
  }

  // ---------------------------------------------------------------------------
  // Lower-casing and substring search
  // ---------------------------------------------------------------------------

  /** `Character.toLowerCase` on ASCII: capitals become small letters, every other character is kept. */
  function LowerChar(c: char): (r: char)
    ensures !('A' <= r <= 'Z')
    ensures ('a' <= r <= 'z') <==> ('A' <= c <= 'Z' || 'a' <= c <= 'z')
    ensures r != c ==> r as int == c as int + 32
  {
    if 'A' <= c <= 'Z' then (c as int + 32) as char else c
  }

  /** `toLowerCase()` restricted to ASCII letters; every other character is kept. */
  function AsciiLower(s: string): (r: string)
    ensures |r| == |s|
    ensures forall k :: 0 <= k < |s| ==> (if 'A' <= s[k] <= 'Z' then r[k] as int == s[k] as int + 32 else r[k] == s[k])
    ensures forall k :: 0 <= k < |r| ==> !('A' <= r[k] <= 'Z')
  {
    seq(|s|, k requires 0 <= k < |s| => LowerChar(s[k]))
  }

  /** `s.contains(sub)`: `sub` occurs at the front of `s` or somewhere after it. */
  function Contains(s: string, sub: string): (r: bool)
    ensures r ==> |sub| <= |s|
    ensures sub == [] ==> r
    decreases |s|
  {
    |sub| <= |s| && (s[..|sub|] == sub || (s != [] && Contains(s[1..], sub)))
  }

  /** `sub` occurs in `s` starting at index `i`. */
  predicate OccursAt(s: string, sub: string, i: int) {
    0 <= i <= |s| - |sub| && s[i..i + |sub|] == sub
  }

  /** `Contains` holds exactly when `sub` occurs at some index of `s`. */
  lemma {:induction false} ContainsIffOccurs(s: string, sub: string)
    ensures Contains(s, sub) <==> exists i :: OccursAt(s, sub, i)
  {
    if |sub| <= |s| {
      if s[..|sub|] == sub {
        assert OccursAt(s, sub, 0);
      } else if s != [] {
        ContainsIffOccurs(s[1..], sub);
        if exists i :: OccursAt(s, sub, i) {
          var i :| OccursAt(s, sub, i);
          assert i != 0;
          assert s[1..][i - 1..i - 1 + |sub|] == s[i..i + |sub|];
          assert OccursAt(s[1..], sub, i - 1);
        }
        if Contains(s[1..], sub) {
          var j :| OccursAt(s[1..], sub, j);
          assert s[1..][j..j + |sub|] == s[j + 1..j + 1 + |sub|];
          assert OccursAt(s, sub, j + 1);
        }
      }
    }
  }
}
