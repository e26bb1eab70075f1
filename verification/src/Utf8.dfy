/** UTF-8 as Rust's `str` uses it: strict decoding (CBOR text) and lossy decoding
    (`String::from_utf8_lossy`), which replaces each maximal ill-formed piece by U+FFFD. */
module Utf8 {
  import opened Bytes

  const REPLACEMENT: char := '\U{FFFD}'

  function EncodeChar(c: char): (s: seq<byte>)
    ensures 1 <= |s| <= 4
  {
    var n := c as int;
    if n < 0x80 then [n]
    else if n < 0x800 then [0xC0 + n / 64, 0x80 + n % 64]
    else if n < 0x1_0000 then [0xE0 + n / 4096, 0x80 + n / 64 % 64, 0x80 + n % 64]
    else [0xF0 + n / 262144, 0x80 + n / 4096 % 64, 0x80 + n / 64 % 64, 0x80 + n % 64]
  }

  function Encode(s: string): seq<byte> {
    if s == [] then [] else EncodeChar(s[0]) + Encode(s[1..])
  }

  /** What the decoder finds at the front of its input. */
  datatype Piece = Scalar(c: char, len: nat) | Invalid(len: nat)

  predicate Cont(s: seq<byte>, i: nat) {
    i < |s| && 0x80 <= s[i] < 0xC0
  }

  /** The second bytes allowed after a three- or four-byte lead (table 3-7 of the Unicode standard). */
  predicate SecondOk(s: seq<byte>)
    requires |s| >= 1
  {
    Cont(s, 1) &&
    (s[0] == 0xE0 ==> 0xA0 <= s[1]) &&
    (s[0] == 0xED ==> s[1] < 0xA0) &&
    (s[0] == 0xF0 ==> 0x90 <= s[1]) &&
    (s[0] == 0xF4 ==> s[1] < 0x90)
  }

  /** The six payload bits of the continuation byte at `i`. */
  function Bits(s: seq<byte>, i: nat): (n: int)
    requires Cont(s, i)
    ensures 0 <= n < 64
  {
    s[i] - 0x80
  }

  function Next(s: seq<byte>): (p: Piece)
    requires s != []
    ensures 1 <= p.len <= |s|
  {
    var b: int := s[0];
    if b < 0x80 then Scalar(b as char, 1)
    else if b < 0xC2 || b > 0xF4 then Invalid(1)
    else if b < 0xE0 then
      if Cont(s, 1) then Scalar((64 * (b - 0xC0) + Bits(s, 1)) as char, 2) else Invalid(1)
    else if !SecondOk(s) then Invalid(1)
    else if !Cont(s, 2) then Invalid(2)
    else if b < 0xF0 then
      Scalar((4096 * (b - 0xE0) + 64 * Bits(s, 1) + Bits(s, 2)) as char, 3)
    else if !Cont(s, 3) then Invalid(3)
    else
      Scalar((262144 * (b - 0xF0) + 4096 * Bits(s, 1) + 64 * Bits(s, 2) + Bits(s, 3)) as char, 4)
  }

  function Decode(s: seq<byte>): Option<string>
    decreases |s|
  {
    if s == [] then Some([]) else
    match Next(s)
    case Invalid(_) => None
    case Scalar(c, len) =>
      match Decode(s[len..])
      case None => None
      case Some(rest) => Some([c] + rest)
  }

  function DecodeLossy(s: seq<byte>): string
    decreases |s|
  {
    if s == [] then [] else
    var p := Next(s);
    [if p.Scalar? then p.c else REPLACEMENT] + DecodeLossy(s[p.len..])
  }

  /** Splitting a number into a leading part and base-64 digits loses nothing. */
  lemma Digits(n: nat)
    ensures n == 64 * (n / 64) + n % 64
    ensures n / 64 == 64 * (n / 4096) + n / 64 % 64
    ensures n / 4096 == 64 * (n / 262144) + n / 4096 % 64
  {
    assert n / 64 / 64 == n / 4096;
    assert n / 4096 / 64 == n / 262144;
  }

  lemma NextOfTwo(c: char, s: seq<byte>)
    requires 0x80 <= c as int < 0x800 && EncodeChar(c) <= s
    ensures Next(s) == Scalar(c, 2)
  {
    Digits(c as int);
    assert s[0] == EncodeChar(c)[0] && s[1] == EncodeChar(c)[1];
  }

  lemma NextOfThree(c: char, s: seq<byte>)
    requires 0x800 <= c as int < 0x1_0000 && EncodeChar(c) <= s
    ensures Next(s) == Scalar(c, 3)
  {
    Digits(c as int);
    assert s[0] == EncodeChar(c)[0] && s[1] == EncodeChar(c)[1] && s[2] == EncodeChar(c)[2];
  }

  lemma NextOfFour(c: char, s: seq<byte>)
    requires 0x1_0000 <= c as int && EncodeChar(c) <= s
    ensures Next(s) == Scalar(c, 4)
  {
    Digits(c as int);
    var e := EncodeChar(c);
    assert s[0] == e[0] && s[1] == e[1] && s[2] == e[2] && s[3] == e[3];
  }

  lemma NextOfEncoded(c: char, t: seq<byte>)
    ensures Next(EncodeChar(c) + t) == Scalar(c, |EncodeChar(c)|)
  {
    var n := c as int;
    if n < 0x80 {
    } else if n < 0x800 {
      NextOfTwo(c, EncodeChar(c) + t);
    } else if n < 0x1_0000 {
      NextOfThree(c, EncodeChar(c) + t);
    } else {
      NextOfFour(c, EncodeChar(c) + t);
    }
  }

  /** Strict and lossy decoding both invert encoding, for every string. */
  lemma {:induction false} RoundTrip(s: string)
    ensures Decode(Encode(s)) == Some(s)
    ensures DecodeLossy(Encode(s)) == s
  {
    if s != [] {
      var c, t := s[0], Encode(s[1..]);
      NextOfEncoded(c, t);
      RoundTrip(s[1..]);
      assert (EncodeChar(c) + t)[|EncodeChar(c)|..] == t;
      assert s == [c] + s[1..];
    }
  }

  lemma {:induction false} EncodeBound(s: string)
    ensures |s| <= |Encode(s)| <= 4 * |s|
  {
    if s != [] {
      EncodeBound(s[1..]);
    }
  }
}
