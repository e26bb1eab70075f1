/** The textual encodings of a pairing QR code: hex, unpadded base64url, percent-encoding, decimal
    numbers and separated lists. */
module TextCodings {
  import opened Bytes
  import Utf8

  function Shift(base: char, n: int): char
    requires 0 <= n < 26 && base in {'0', 'A', 'a'}
  {
    (base as int + n) as char
  }

  predicate Between(lo: char, c: char, hi: char) { lo <= c <= hi }

  // ------------------------------------------------------------------
  // Hex
  // ------------------------------------------------------------------

  function HexDigit(n: int): char
    requires 0 <= n < 16
  {
    if n < 10 then Shift('0', n) else Shift('a', n - 10)
  }

  /** As `format!("{:X}")` prints it. */
  function UpperHexDigit(n: int): char
    requires 0 <= n < 16
  {
    if n < 10 then Shift('0', n) else Shift('A', n - 10)
  }

  function HexValue(c: char): (v: Option<int>)
    ensures v.Some? ==> 0 <= v.value < 16
  {
    if Between('0', c, '9') then Some(c as int - '0' as int)
    else if Between('a', c, 'f') then Some(c as int - 'a' as int + 10)
    else if Between('A', c, 'F') then Some(c as int - 'A' as int + 10)
    else None
  }

  function HexEncode(bs: seq<byte>): (s: string)
    ensures |s| == 2 * |bs|
  {
    if bs == [] then [] else [HexDigit(bs[0] / 16), HexDigit(bs[0] % 16)] + HexEncode(bs[1..])
  }

  /** `hex::decode`: either case, even length. */
  function HexDecode(s: string): (bs: Option<seq<byte>>)
    ensures bs.Some? ==> |s| == 2 * |bs.value|
  {
    if s == [] then Some([]) else if |s| == 1 then None else
    var hi, lo, rest := HexValue(s[0]), HexValue(s[1]), HexDecode(s[2..]);
    if hi.None? || lo.None? || rest.None? then None else Some([16 * hi.value + lo.value] + rest.value)
  }

  lemma {:induction false} HexRoundTrip(bs: seq<byte>)
    ensures HexDecode(HexEncode(bs)) == Some(bs)
    ensures Plain(HexEncode(bs))
  {
    if bs != [] {
      HexRoundTrip(bs[1..]);
      assert HexEncode(bs)[2..] == HexEncode(bs[1..]);
      assert bs == [bs[0]] + bs[1..];
    }
  }

  // ------------------------------------------------------------------
  // Unpadded base64url (section 5 of RFC 4648)
  // ------------------------------------------------------------------

  type sextet = x: int | 0 <= x < 64

  function Digit64(n: sextet): char {
    if n < 26 then Shift('A', n) else if n < 52 then Shift('a', n - 26)
    else if n < 62 then Shift('0', n - 52) else if n == 62 then '-' else '_'
  }

  function Value64(c: char): (v: Option<sextet>)
    ensures v.Some? ==> Digit64(v.value) == c
  {
    if Between('A', c, 'Z') then Some(c as int - 'A' as int)
    else if Between('a', c, 'z') then Some(c as int - 'a' as int + 26)
    else if Between('0', c, '9') then Some(c as int - '0' as int + 52)
    else if c == '-' then Some(62) else if c == '_' then Some(63) else None
  }

  function Digits64(ns: seq<sextet>): (s: string)
    ensures |s| == |ns|
  {
    if ns == [] then [] else [Digit64(ns[0])] + Digits64(ns[1..])
  }

  function Values64(s: string): (ns: Option<seq<sextet>>)
    ensures ns.Some? ==> Digits64(ns.value) == s
  {
    if s == [] then Some([]) else
    var n, rest := Value64(s[0]), Values64(s[1..]);
    if n.None? || rest.None? then None else Some([n.value] + rest.value)
  }

  lemma {:induction false} Values64OfDigits(ns: seq<sextet>)
    ensures Values64(Digits64(ns)) == Some(ns) && Plain(Digits64(ns))
  {
    if ns != [] {
      Values64OfDigits(ns[1..]);
      assert Digits64(ns)[1..] == Digits64(ns[1..]);
      assert ns == [ns[0]] + ns[1..];
    }
  }

  /** The four sextets of a group of three bytes, each made of at most two of them ... */
  function S0(x: byte): sextet { x / 4 }
  function S1(x: byte, y: byte): sextet { x % 4 * 16 + y / 16 }
  function S2(y: byte, z: byte): sextet { y % 16 * 4 + z / 64 }
  function S3(z: byte): sextet { z % 64 }

  /** ... and the three bytes, each made of two neighbouring sextets. */
  function First(a: sextet, b: sextet): byte { a * 4 + b / 16 }
  function Second(b: sextet, c: sextet): byte { b % 16 * 16 + c / 4 }
  function Third(c: sextet, d: sextet): byte { c % 4 * 64 + d }

  lemma GroupOfBytes(x: byte, y: byte, z: byte)
    ensures First(S0(x), S1(x, y)) == x && Second(S1(x, y), S2(y, z)) == y && Third(S2(y, z), S3(z)) == z
    ensures S2(y, 0) % 4 == 0
  {
  }

  lemma GroupOfSextets(a: sextet, b: sextet, c: sextet, d: sextet)
    ensures S0(First(a, b)) == a && S1(First(a, b), Second(b, c)) == b
    ensures S2(Second(b, c), Third(c, d)) == c && S3(Third(c, d)) == d
    ensures b % 16 == 0 ==> S1(First(a, b), 0) == b
    ensures c % 4 == 0 ==> S2(Second(b, c), 0) == c
  {
  }

  /** Three bytes as four sextets; a shorter final group is padded with zero bits. */
  function Sextets(bs: seq<byte>): seq<sextet> {
    if bs == [] then []
    else if |bs| == 1 then [S0(bs[0]), S1(bs[0], 0)]
    else if |bs| == 2 then [S0(bs[0]), S1(bs[0], bs[1]), S2(bs[1], 0)]
    else [S0(bs[0]), S1(bs[0], bs[1]), S2(bs[1], bs[2]), S3(bs[2])] + Sextets(bs[3..])
  }

  /** A lone final sextet and non-zero trailing bits are refused. */
  function FromSextets(ns: seq<sextet>): Option<seq<byte>> {
    if ns == [] then Some([])
    else if |ns| == 1 then None
    else if |ns| == 2 then
      if ns[1] % 16 != 0 then None else Some([First(ns[0], ns[1])])
    else if |ns| == 3 then
      if ns[2] % 4 != 0 then None else Some([First(ns[0], ns[1]), Second(ns[1], ns[2])])
    else
      var rest := FromSextets(ns[4..]);
      if rest.None? then None
      else Some([First(ns[0], ns[1]), Second(ns[1], ns[2]), Third(ns[2], ns[3])] + rest.value)
  }

  function Base64Encode(bs: seq<byte>): string { Digits64(Sextets(bs)) }

  /** Padding and foreign characters are refused too. */
  function Base64Decode(s: string): Option<seq<byte>> {
    var ns := Values64(s);
    if ns.None? then None else FromSextets(ns.value)
  }

  lemma LongSextets(x: byte, y: byte, z: byte, rest: seq<byte>)
    ensures Sextets([x, y, z] + rest) == [S0(x), S1(x, y), S2(y, z), S3(z)] + Sextets(rest)
  {
    assert ([x, y, z] + rest)[3..] == rest;
  }

  lemma LongBytes(a: sextet, b: sextet, c: sextet, d: sextet, rest: seq<sextet>)
    requires FromSextets(rest).Some?
    ensures FromSextets([a, b, c, d] + rest) ==
      Some([First(a, b), Second(b, c), Third(c, d)] + FromSextets(rest).value)
  {
    assert ([a, b, c, d] + rest)[4..] == rest;
  }

  lemma OneByte(x: byte)
    ensures FromSextets(Sextets([x])) == Some([x])
  {
    LoneGroup(x);
    var a, b := S0(x), S1(x, 0);
    assert Sextets([x]) == [a, b];
    TwoOnly(a, b);
  }

  lemma TwoBytes(x: byte, y: byte)
    ensures FromSextets(Sextets([x, y])) == Some([x, y])
  {
    GroupOfBytes(x, y, 0);
    assert Sextets([x, y]) == [S0(x), S1(x, y), S2(y, 0)];
    ThreeOnly(S0(x), S1(x, y), S2(y, 0));
  }

  lemma LoneGroup(x: byte)
    ensures First(S0(x), S1(x, 0)) == x && S1(x, 0) % 16 == 0
  {
  }

  lemma TwoOnly(a: sextet, b: sextet)
    ensures FromSextets([a, b]) == if b % 16 != 0 then None else Some([First(a, b)])
  {
  }

  lemma ThreeOnly(a: sextet, b: sextet, c: sextet)
    ensures FromSextets([a, b, c]) == if c % 4 != 0 then None else Some([First(a, b), Second(b, c)])
  {
  }

  lemma {:induction false} SextetsRoundTrip(bs: seq<byte>)
    ensures FromSextets(Sextets(bs)) == Some(bs)
  {
    if |bs| == 1 {
      OneByte(bs[0]);
      assert bs == [bs[0]];
    } else if |bs| == 2 {
      TwoBytes(bs[0], bs[1]);
      assert bs == [bs[0], bs[1]];
    } else if |bs| > 2 {
      var x, y, z, rest := bs[0], bs[1], bs[2], bs[3..];
      SextetsRoundTrip(rest);
      assert bs == [x, y, z] + rest;
      LongSextets(x, y, z, rest);
      LongBytes(S0(x), S1(x, y), S2(y, z), S3(z), Sextets(rest));
      GroupOfBytes(x, y, z);
    }
  }

  lemma TwoSextets(a: sextet, b: sextet)
    requires b % 16 == 0
    ensures Sextets([First(a, b)]) == [a, b]
  {
    GroupOfSextets(a, b, 0, 0);
  }

  lemma ThreeSextets(a: sextet, b: sextet, c: sextet)
    requires c % 4 == 0
    ensures Sextets([First(a, b), Second(b, c)]) == [a, b, c]
  {
    GroupOfSextets(a, b, c, 0);
  }

  lemma {:induction false} SextetsCanonical(ns: seq<sextet>)
    requires FromSextets(ns).Some?
    ensures Sextets(FromSextets(ns).value) == ns
  {
    if |ns| == 2 {
      TwoSextets(ns[0], ns[1]);
    } else if |ns| == 3 {
      ThreeSextets(ns[0], ns[1], ns[2]);
    } else if |ns| > 3 {
      var a, b, c, d, rest := ns[0], ns[1], ns[2], ns[3], ns[4..];
      SextetsCanonical(rest);
      assert ns == [a, b, c, d] + rest;
      LongBytes(a, b, c, d, rest);
      LongSextets(First(a, b), Second(b, c), Third(c, d), FromSextets(rest).value);
      GroupOfSextets(a, b, c, d);
    }
  }

  lemma Base64RoundTrip(bs: seq<byte>)
    ensures Base64Decode(Base64Encode(bs)) == Some(bs)
    ensures Plain(Base64Encode(bs))
  {
    Values64OfDigits(Sextets(bs));
    SextetsRoundTrip(bs);
  }

  /** Decoding accepts exactly what encoding prints, so each key has one spelling. */
  lemma Base64Canonical(s: string)
    ensures Base64Decode(s).Some? <==> exists bs :: s == Base64Encode(bs)
  {
    var ns := Values64(s);
    if Base64Decode(s).Some? {
      SextetsCanonical(ns.value);
      var bs := FromSextets(ns.value).value;
      assert s == Base64Encode(bs);
    }
    if bs :| s == Base64Encode(bs) {
      Base64RoundTrip(bs);
    }
  }

  // ------------------------------------------------------------------
  // Percent-encoding (section 2.1 of RFC 3986) and form decoding
  // ------------------------------------------------------------------

  /** The unreserved characters. */
  predicate PlainChar(c: char) {
    Between('A', c, 'Z') || Between('a', c, 'z') || Between('0', c, '9') || c in {'-', '_', '.', '~'}
  }

  predicate Plain(s: string) { forall i :: 0 <= i < |s| ==> PlainChar(s[i]) }

  function PercentByte(b: byte): string {
    var c := b as char;
    if PlainChar(c) then [c] else ['%', UpperHexDigit(b / 16), UpperHexDigit(b % 16)]
  }

  function Percent(bs: seq<byte>): string {
    if bs == [] then [] else PercentByte(bs[0]) + Percent(bs[1..])
  }

  lemma {:induction false} PercentSnoc(bs: seq<byte>, b: byte)
    ensures Percent(bs + [b]) == Percent(bs) + PercentByte(b)
  {
    if bs == [] {
      assert bs + [b] == [b];
      assert [b][1..] == [];
    } else {
      PercentSnoc(bs[1..], b);
      assert (bs + [b])[1..] == bs[1..] + [b];
    }
  }

  /** `urlencode`: the byte loop. */
  method UrlEncode(s: string) returns (out: string)
    ensures out == Percent(Utf8.Encode(s))
    ensures FormText(out) == s
  {
    var bytes := Utf8.Encode(s);
    out := "";
    var i := 0;
    while i < |bytes|
      invariant 0 <= i <= |bytes|
      invariant out == Percent(bytes[..i])
    {
      var b := bytes[i];
      if PlainChar(b as char) {
        out := out + [b as char];
      } else {
        out := out + ['%', UpperHexDigit(b / 16), UpperHexDigit(b % 16)];
      }
      PercentSnoc(bytes[..i], b);
      assert bytes[..i + 1] == bytes[..i] + [b];
      i := i + 1;
    }
    assert bytes[..|bytes|] == bytes;
    PercentRoundTrip(bytes);
    Utf8.RoundTrip(s);
  }

  /** Form decoding: `+` is a space, `%` with two hex digits a byte, a stray `%` stands for itself. */
  function FormBytes(s: string): seq<byte>
    decreases |s|
  {
    if s == [] then []
    else if s[0] == '+' then [0x20] + FormBytes(s[1..])
    else if s[0] == '%' && |s| >= 3 && HexValue(s[1]).Some? && HexValue(s[2]).Some? then
      [16 * HexValue(s[1]).value + HexValue(s[2]).value] + FormBytes(s[3..])
    else Utf8.EncodeChar(s[0]) + FormBytes(s[1..])
  }

  function FormText(s: string): string { Utf8.DecodeLossy(FormBytes(s)) }

  lemma {:induction false} PercentRoundTrip(bs: seq<byte>)
    ensures FormBytes(Percent(bs)) == bs
    ensures '&' !in Percent(bs)
  {
    if bs != [] {
      PercentRoundTrip(bs[1..]);
      var one, rest, all := PercentByte(bs[0]), Percent(bs[1..]), Percent(bs);
      assert all[|one|..] == rest;
      assert '&' !in one;
      assert bs == [bs[0]] + bs[1..];
    }
  }

  lemma {:induction false} PlainFormBytes(s: string)
    requires Plain(s)
    ensures FormBytes(s) == Utf8.Encode(s)
  {
    if s != [] { PlainFormBytes(s[1..]); }
  }

  lemma PlainFormText(s: string)
    requires Plain(s)
    ensures FormText(s) == s
  {
    PlainFormBytes(s);
    Utf8.RoundTrip(s);
  }

  // ------------------------------------------------------------------
  // Decimal bytes
  // ------------------------------------------------------------------

  function Decimal(n: nat): (s: string)
    ensures |s| > 0
  {
    if n < 10 then [Shift('0', n)] else Decimal(n / 10) + [Shift('0', n % 10)]
  }

  predicate Digits(s: string) { forall i :: 0 <= i < |s| ==> Between('0', s[i], '9') }

  function DigitsValue(s: string): nat
    requires Digits(s)
  {
    if s == [] then 0 else 10 * DigitsValue(s[..|s| - 1]) + (s[|s| - 1] as int - '0' as int)
  }

  /** `str::parse::<u8>`: one optional `+`, at least one digit, no overflow. */
  function ParseByte(s: string): Option<byte> {
    var t := if s != [] && s[0] == '+' then s[1..] else s;
    if t != [] && Digits(t) && DigitsValue(t) < 256 then Some(DigitsValue(t)) else None
  }

  lemma {:induction false} DecimalValue(n: nat)
    ensures Digits(Decimal(n)) && DigitsValue(Decimal(n)) == n
  {
    if n >= 10 {
      DecimalValue(n / 10);
      var s := Decimal(n);
      assert s[..|s| - 1] == Decimal(n / 10);
    }
  }

  lemma ByteRoundTrip(b: byte)
    ensures ParseByte(Decimal(b)) == Some(b) && Plain(Decimal(b))
  {
    DecimalValue(b);
  }

  // ------------------------------------------------------------------
  // Separated lists
  // ------------------------------------------------------------------

  function Join(parts: seq<string>, sep: char): string {
    if parts == [] then [] else if |parts| == 1 then parts[0] else parts[0] + [sep] + Join(parts[1..], sep)
  }

  /** Where `c` first occurs in `s`, or the length of `s`. */
  function IndexOf(s: string, c: char): (i: nat)
    ensures i <= |s| && c !in s[..i] && (i < |s| ==> s[i] == c)
  {
    if s == [] then 0 else if s[0] == c then 0 else
    var i := 1 + IndexOf(s[1..], c);
    assert s[..i] == [s[0]] + s[1..][..i - 1];
    i
  }

  /** `str::split`: one part more than there are separators. */
  function Split(s: string, sep: char): (parts: seq<string>)
    ensures |parts| > 0 && forall i :: 0 <= i < |parts| ==> sep !in parts[i]
    decreases |s|
  {
    var i := IndexOf(s, sep);
    if i == |s| then
      assert s[..i] == s;
      [s]
    else [s[..i]] + Split(s[i + 1..], sep)
  }

  predicate Without(parts: seq<string>, sep: char) { forall i :: 0 <= i < |parts| ==> sep !in parts[i] }

  lemma IndexOfFirst(part: string, sep: char, rest: string)
    requires sep !in part
    ensures IndexOf(part + [sep] + rest, sep) == |part|
  {
    var s := part + [sep] + rest;
    var i := IndexOf(s, sep);
    assert s[|part|] == sep;
  }

  lemma {:induction false} SplitJoin(parts: seq<string>, sep: char)
    requires parts != [] && Without(parts, sep)
    ensures Split(Join(parts, sep), sep) == parts
  {
    var s := Join(parts, sep);
    if |parts| == 1 {
      assert IndexOf(s, sep) == |s|;
    } else {
      var rest := Join(parts[1..], sep);
      IndexOfFirst(parts[0], sep, rest);
      assert s[..|parts[0]|] == parts[0] && s[|parts[0]| + 1..] == rest;
      SplitJoin(parts[1..], sep);
      assert parts == [parts[0]] + parts[1..];
    }
  }

  function NonEmpty(parts: seq<string>): (r: seq<string>)
    ensures forall p :: p in r <==> p in parts && p != []
  {
    if parts == [] then [] else (if parts[0] == [] then [] else [parts[0]]) + NonEmpty(parts[1..])
  }

  lemma {:induction false} NonEmptyKeeps(parts: seq<string>)
    requires forall i :: 0 <= i < |parts| ==> parts[i] != []
    ensures NonEmpty(parts) == parts
  {
    if parts != [] { NonEmptyKeeps(parts[1..]); }
  }

  /** Joining, splitting and dropping empty parts gives a list back exactly when every part is
      non-empty and free of the separator. */
  lemma ListRoundTrip(parts: seq<string>, sep: char)
    ensures NonEmpty(Split(Join(parts, sep), sep)) == parts <==>
      Without(parts, sep) && forall i :: 0 <= i < |parts| ==> parts[i] != []
  {
    var back := NonEmpty(Split(Join(parts, sep), sep));
    if Without(parts, sep) && (forall i :: 0 <= i < |parts| ==> parts[i] != []) {
      if parts == [] {
        assert Split([], sep) == [[]];
      } else {
        SplitJoin(parts, sep);
        NonEmptyKeeps(parts);
      }
    } else if back == parts {
      forall i | 0 <= i < |parts| ensures sep !in parts[i] && parts[i] != [] {
        assert parts[i] in back;
      }
    }
  }
}
