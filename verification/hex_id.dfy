/** The id codec the trace headers rely on. Sleuth's `Span.idToHex` and
    `Span.hexToId` are not part of this model; what the headers need of them
    is that decoding undoes encoding. This module supplies one codec with that
    property: a Java `long` written as exactly sixteen lower-case hexadecimal
    digits of its 64-bit two's-complement pattern, and parsed back. */
module HexId {
  import opened Common

  const TwoTo63: int := 0x8000_0000_0000_0000
  const TwoTo64: int := 0x1_0000_0000_0000_0000

  /** A Java `long`. */
  newtype Long = x: int | -0x8000_0000_0000_0000 <= x < 0x8000_0000_0000_0000

  /** Number of hexadecimal digits of an encoded id. */
  const Width: nat := 16

  function Pow16(n: nat): (p: nat)
    ensures p > 0
  {
    if n == 0 then 1 else 16 * Pow16(n - 1)
  }

  lemma {:induction false} Pow16Width()
    ensures Pow16(Width) == TwoTo64
  {
    assert Pow16(4) == 0x1_0000;
    assert Pow16(8) == 0x1_0000_0000 by { assert Pow16(8) == 0x1_0000 * Pow16(4) by { Pow16Add(4, 4); } }
    assert Pow16(16) == Pow16(8) * Pow16(8) by { Pow16Add(8, 8); }
  }

  lemma {:induction false} Pow16Add(a: nat, b: nat)
    ensures Pow16(a + b) == Pow16(a) * Pow16(b)
    decreases a
  {
    if a > 0 {
      Pow16Add(a - 1, b);
    }
  }

  /** The unsigned 64-bit pattern of a `long`. */
  function ToUnsigned(id: Long): (u: nat)
    ensures u < TwoTo64
  {
    if id < 0 then id as int + TwoTo64 else id as int
  }

  /** The `long` whose two's-complement pattern is `u`. */
  function FromUnsigned(u: nat): Long
    requires u < TwoTo64
  {
    if u >= TwoTo63 then (u - TwoTo64) as Long else u as Long
  }

  /** The digit character for a value below sixteen. */
  function HexChar(d: nat): char
    requires d < 16
  {
    if d < 10 then ('0' as int + d) as char else ('a' as int + d - 10) as char
  }

  /** The value of a lower-case hexadecimal digit, `None` for any other character. */
  function DigitValue(c: char): (r: Option<nat>)
    ensures r.Some? ==> r.value < 16 && HexChar(r.value) == c
  {
    if '0' <= c <= '9' then Some(c as int - '0' as int)
    else if 'a' <= c <= 'f' then Some(c as int - 'a' as int + 10)
    else None
  }

  /** The `n` low-order base-16 digits of `u`, most significant first. */
  function Digits(u: nat, n: nat): (s: string)
    ensures |s| == n
  {
    if n == 0 then "" else Digits(u / 16, n - 1) + [HexChar(u % 16)]
  }

  /** The value of a string of hexadecimal digits, most significant first. */
  function ParseDigits(s: string): (r: Option<nat>)
    ensures r.Some? ==> r.value < Pow16(|s|)
  {
    if s == [] then Some(0)
    else
      match ParseDigits(s[..|s| - 1])
      case None => None
      case Some(high) =>
        match DigitValue(s[|s| - 1])
        case None => None
        case Some(d) => Some(high * 16 + d)
  }

  lemma {:induction false} ParseDigitsOfDigits(u: nat, n: nat)
    requires u < Pow16(n)
    ensures ParseDigits(Digits(u, n)) == Some(u)
  {
    if n > 0 {
      var s := Digits(u, n);
      ParseDigitsOfDigits(u / 16, n - 1);
      assert s[..|s| - 1] == Digits(u / 16, n - 1);
      assert s[|s| - 1] == HexChar(u % 16);
    }
  }

  lemma {:induction false} DigitsOfParseDigits(s: string)
    requires ParseDigits(s).Some?
    ensures Digits(ParseDigits(s).value, |s|) == s
  {
    if s != [] {
      var init := s[..|s| - 1];
      var high := ParseDigits(init).value;
      var d := DigitValue(s[|s| - 1]).value;
      var u := high * 16 + d;
      assert u / 16 == high && u % 16 == d;
      DigitsOfParseDigits(init);
      assert s == init + [s[|s| - 1]];
    }
  }

  /** `idToHex`: sixteen lower-case hexadecimal digits. */
  function IdToHex(id: Long): (hex: string)
    ensures |hex| == Width
  {
    Digits(ToUnsigned(id), Width)
  }

  /** `hexToId`: `None` (Sleuth throws) for `null`, and for anything that is not
      sixteen lower-case hexadecimal digits. */
  function HexToId(hex: NullableString): (r: Option<Long>)
    ensures r.Some? ==> hex.Some? && |hex.value| == Width
  {
    if hex.None? || |hex.value| != Width then None
    else
      match ParseDigits(hex.value)
      case None => None
      case Some(u) =>
        Pow16Width();
        Some(FromUnsigned(u))
  }

  /** Decoding undoes encoding, for every `long`. */
  lemma {:induction false} HexRoundTrip(id: Long)
    ensures HexToId(Some(IdToHex(id))) == Some(id)
  {
    Pow16Width();
    ParseDigitsOfDigits(ToUnsigned(id), Width);
  }

  /** Encoding undoes decoding: every accepted header value is the encoding of
      the id it decodes to, so the codec is a bijection between `long`s and
      sixteen-digit strings. */
  lemma {:induction false} HexToIdInverse(hex: string)
    requires HexToId(Some(hex)).Some?
    ensures IdToHex(HexToId(Some(hex)).value) == hex
  {
    Pow16Width();
    DigitsOfParseDigits(hex);
  }

  /** Two distinct ids never share an encoding. */
  lemma IdToHexInjective(a: Long, b: Long)
    requires IdToHex(a) == IdToHex(b)
    ensures a == b
  {
    HexRoundTrip(a);
    HexRoundTrip(b);
  }
}
