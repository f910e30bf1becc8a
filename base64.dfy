/** The browser's `btoa` and `atob`: the base64 alphabet and padding of section 4
    of RFC 4648 applied to Latin-1 text, one byte per character. `btoa` throws on
    a character above U+00FF; `atob` is the forgiving decoder (ASCII whitespace
    ignored, padding optional) and throws on anything it cannot decode. */
module Base64 {
  import opened Wrappers
  import Lists

  type Byte = x: int | 0 <= x < 256
  type Sextet = x: int | 0 <= x < 64

  // ---------------------------------------------------------------- alphabet

  /** The character for a 6-bit value: A-Z, a-z, 0-9, '+', '/'. */
  function Digit(v: Sextet): char {
    if v < 26 then ('A' as int + v) as char
    else if v < 52 then ('a' as int + (v - 26)) as char
    else if v < 62 then ('0' as int + (v - 52)) as char
    else if v == 62 then '+'
    else '/'
  }

  /** The 6-bit value of an alphabet character; `None` for anything else (including '='). */
  function DigitValue(c: char): (r: Option<Sextet>)
    ensures r.Some? ==> Digit(r.value) == c
  {
    if 'A' <= c <= 'Z' then Some(c as int - 'A' as int)
    else if 'a' <= c <= 'z' then Some(c as int - 'a' as int + 26)
    else if '0' <= c <= '9' then Some(c as int - '0' as int + 52)
    else if c == '+' then Some(62)
    else if c == '/' then Some(63)
    else None
  }

  lemma DigitRoundTrip(v: Sextet)
    ensures DigitValue(Digit(v)) == Some(v)
    ensures Digit(v) != '=' && !IsAsciiWhitespace(Digit(v))
  {
  }

  // ---------------------------------------------------------------- bytes and sextets

  /** Three bytes become four sextets; a final one or two bytes become two or three
      sextets whose unused low bits are zero. */
  function ToSextets(b: seq<Byte>): (v: seq<Sextet>)
    ensures |b| <= |v| && (v == [] <==> b == [])
  {
    if |b| == 0 then []
    else if |b| == 1 then [b[0] / 4, (b[0] % 4) * 16]
    else if |b| == 2 then [b[0] / 4, (b[0] % 4) * 16 + b[1] / 16, (b[1] % 16) * 4]
    else [b[0] / 4, (b[0] % 4) * 16 + b[1] / 16, (b[1] % 16) * 4 + b[2] / 64, b[2] % 64]
         + ToSextets(b[3..])
  }

  /** The sextet count is congruent to 0, 2 or 3 modulo four, as the byte count is to 0, 1 or 2 modulo three. */
  lemma {:induction false} SextetCount(b: seq<Byte>)
    ensures |ToSextets(b)| % 4 == (if |b| % 3 == 0 then 0 else |b| % 3 + 1)
  {
    if |b| >= 3 {
      SextetCount(b[3..]);
      var n := |ToSextets(b[3..])|;
      assert |ToSextets(b)| == 4 + n;
      assert (4 + n) % 4 == n % 4;
      assert (|b| - 3) % 3 == |b| % 3;
    }
  }

  /** Four sextets become three bytes; a final two or three sextets become one or two
      bytes, their leftover low bits discarded. */
  function FromSextets(v: seq<Sextet>): seq<Byte>
    requires |v| % 4 != 1
  {
    if |v| == 0 then []
    else if |v| == 2 then [v[0] as int * 4 + v[1] / 16]
    else if |v| == 3 then [v[0] as int * 4 + v[1] / 16, (v[1] % 16) as int * 16 + v[2] / 4]
    else [v[0] as int * 4 + v[1] / 16, (v[1] % 16) as int * 16 + v[2] / 4, (v[2] % 4) as int * 64 + v[3]]
         + FromSextets(v[4..])
  }

  lemma BlockRoundTrip(b0: Byte, b1: Byte, b2: Byte)
    ensures (b0 / 4) * 4 + ((b0 % 4) * 16 + b1 / 16) / 16 == b0
    ensures (((b0 % 4) * 16 + b1 / 16) % 16) * 16 + ((b1 % 16) * 4 + b2 / 64) / 4 == b1
    ensures (((b1 % 16) * 4 + b2 / 64) % 4) * 64 + b2 % 64 == b2
  {
  }

  lemma {:induction false} SextetsRoundTrip(b: seq<Byte>)
    ensures |ToSextets(b)| % 4 != 1 && FromSextets(ToSextets(b)) == b
  {
    SextetCount(b);
    if |b| >= 3 {
      BlockRoundTrip(b[0], b[1], b[2]);
      SextetsRoundTrip(b[3..]);
      var v := ToSextets(b);
      var head := v[..4];
      assert v[4..] == ToSextets(b[3..]);
      assert FromSextets(v) == [b[0], b[1], b[2]] + b[3..];
      assert b == [b[0], b[1], b[2]] + b[3..];
    } else if |b| == 2 {
      BlockRoundTrip(b[0], b[1], 0);
    } else if |b| == 1 {
      BlockRoundTrip(b[0], 0, 0);
    }
  }

  // ---------------------------------------------------------------- text

  predicate IsLatin1(s: string) {
    forall i | 0 <= i < |s| :: s[i] as int < 256
  }

  function Bytes(s: string): (b: seq<Byte>)
    requires IsLatin1(s)
    ensures |b| == |s|
  {
    seq(|s|, i requires 0 <= i < |s| => s[i] as int)
  }

  function Chars(b: seq<Byte>): (s: string)
    ensures |s| == |b| && IsLatin1(s)
  {
    seq(|b|, i requires 0 <= i < |b| => b[i] as char)
  }

  function Digits(v: seq<Sextet>): (s: string)
    ensures |s| == |v|
    ensures forall i | 0 <= i < |v| :: s[i] == Digit(v[i])
  {
    seq(|v|, i requires 0 <= i < |v| => Digit(v[i]))
  }

  /** The '=' characters that round the output up to a multiple of four. */
  function Padding(n: nat): string {
    if n % 3 == 1 then "==" else if n % 3 == 2 then "=" else ""
  }

  /** `btoa(s)`: `None` where the browser throws. */
  function Btoa(s: string): (r: Option<string>)
    ensures r.Some? <==> IsLatin1(s)
    ensures r.Some? ==> |r.value| % 4 == 0 && (r.value == [] <==> s == [])
  {
    if IsLatin1(s) then
      SextetCount(Bytes(s));
      Some(Digits(ToSextets(Bytes(s))) + Padding(|s|))
    else None
  }

  // ---------------------------------------------------------------- forgiving decode

  /** The ASCII whitespace `atob` skips: TAB, LF, FF, CR and SPACE. */
  predicate IsAsciiWhitespace(c: char) {
    c == '\t' || c == '\n' || c == '\U{C}' || c == '\r' || c == ' '
  }

  /** One or two trailing '=' are removed when the length is a multiple of four. */
  function StripPadding(s: string): string {
    if |s| % 4 != 0 then s
    else if |s| >= 2 && s[|s| - 2..] == "==" then s[..|s| - 2]
    else if |s| >= 1 && s[|s| - 1] == '=' then s[..|s| - 1]
    else s
  }

  /** The sextets of a string made only of alphabet characters; `None` otherwise. */
  function DigitValues(s: string): (r: Option<seq<Sextet>>)
    ensures r.Some? ==> |r.value| == |s|
  {
    if s == [] then Some([])
    else match (DigitValue(s[0]), DigitValues(s[1..]))
      case (Some(v), Some(vs)) => Some([v] + vs)
      case _ => None
  }

  /** `atob(s)`: `None` where the browser throws. */
  function Atob(s: string): Option<string> {
    var t := StripPadding(Lists.Filter(s, c => !IsAsciiWhitespace(c)));
    if |t| % 4 == 1 then None
    else match DigitValues(t)
      case None => None
      case Some(v) => Some(Chars(FromSextets(v)))
  }

  lemma {:induction false} DigitValuesOfDigits(v: seq<Sextet>)
    ensures DigitValues(Digits(v)) == Some(v)
  {
    if v != [] {
      DigitValuesOfDigits(v[1..]);
      DigitRoundTrip(v[0]);
      assert Digits(v)[1..] == Digits(v[1..]);
      assert v == [v[0]] + v[1..];
    }
  }

  /** Alphabet characters are neither padding nor whitespace. */
  lemma DigitsArePlain(v: seq<Sextet>)
    ensures forall i | 0 <= i < |v| :: Digits(v)[i] != '=' && !IsAsciiWhitespace(Digits(v)[i])
  {
    forall i | 0 <= i < |v| ensures Digits(v)[i] != '=' && !IsAsciiWhitespace(Digits(v)[i]) {
      DigitRoundTrip(v[i]);
    }
  }

  /** Stripping the padding of an encoding leaves its digits. */
  lemma StripPaddingOfEncoding(d: string, n: nat)
    requires forall i | 0 <= i < |d| :: d[i] != '='
    requires |d| % 4 == (if n % 3 == 0 then 0 else n % 3 + 1)
    ensures StripPadding(d + Padding(n)) == d
  {
    var e := d + Padding(n);
    if n % 3 == 1 {
      assert e[|e| - 2..] == "==" && e[..|e| - 2] == d;
    } else if n % 3 == 2 {
      assert e[|e| - 1] == '=' && e[..|e| - 1] == d;
      assert e[|e| - 2] == d[|d| - 1];
    } else {
      assert e == d;
      if e != [] {
        assert e[|e| - 1] == d[|d| - 1];
      }
    }
  }

  /** The encoding of `b` holds no whitespace, and stripping its padding leaves the digits. */
  lemma EncodingShape(b: seq<Byte>)
    ensures var e := Digits(ToSextets(b)) + Padding(|b|);
      (forall i | 0 <= i < |e| :: !IsAsciiWhitespace(e[i]))
      && StripPadding(e) == Digits(ToSextets(b))
  {
    var v := ToSextets(b);
    SextetCount(b);
    DigitsArePlain(v);
    StripPaddingOfEncoding(Digits(v), |b|);
  }

  /** Decoding what `btoa` produced gives back the original text. */
  lemma AtobBtoa(s: string)
    requires IsLatin1(s)
    ensures Btoa(s).Some? && Atob(Btoa(s).value) == Some(s)
  {
    var v := ToSextets(Bytes(s));
    var e := Digits(v) + Padding(|s|);
    EncodingShape(Bytes(s));
    Lists.FilterKeepsAll(e, c => !IsAsciiWhitespace(c));
    DigitValuesOfDigits(v);
    SextetsRoundTrip(Bytes(s));
    assert Chars(Bytes(s)) == s;
  }
}
