/** The short authentication string (crypto.rs). */
module Sas {
  import opened Bytes

  // The emoji table, as code points, in four rows of sixteen.  Its order is part of the protocol.
  const ANIMALS: seq<int> := [
    0x1F436, 0x1F431, 0x1F42D, 0x1F439, 0x1F430, 0x1F98A, 0x1F43B, 0x1F43C,
    0x1F428, 0x1F42F, 0x1F981, 0x1F42E, 0x1F437, 0x1F438, 0x1F435, 0x1F414]
  const FRUIT: seq<int> := [
    0x1F34E, 0x1F34A, 0x1F34B, 0x1F34C, 0x1F349, 0x1F347, 0x1F353, 0x1F352,
    0x1F351, 0x1F95D, 0x1F34D, 0x1F965, 0x1F951, 0x1F345, 0x1F33D, 0x1F955]
  const SPORT: seq<int> := [
    0x26BD, 0x1F3C0, 0x1F3C8, 0x26BE, 0x1F3BE, 0x1F3D0, 0x1F3B1, 0x1F3D3,
    0x1F941, 0x1F3B8, 0x1F3BA, 0x1F3BB, 0x1F3A8, 0x1F3AF, 0x1F3B2, 0x1F3B3]
  const VEHICLES: seq<int> := [
    0x1F697, 0x1F695, 0x1F699, 0x1F68C, 0x1F691, 0x1F693, 0x1F69A, 0x1F6B2,
    0x1F6F5, 0x1F680, 0x1F681, 0x26F5, 0x1F682, 0x1F69C, 0x1F6F4, 0x1F6A4]

  function Emoji(i: int): int
    requires 0 <= i < 64
  {
    if i < 16 then ANIMALS[i] else if i < 32 then FRUIT[i - 16] else if i < 48 then SPORT[i - 32] else VEHICLES[i - 48]
  }

  type Emoji4 = s: seq<int> | |s| == 4 witness [0, 0, 0, 0]

  /** Four six-bit groups of the digest, high bits first, looked up in the table. */
  function SasEmoji(digest: u32): Emoji4 {
    [Emoji(digest / 0x400_0000 % 64), Emoji(digest / 0x10_0000 % 64),
     Emoji(digest / 0x4000 % 64), Emoji(digest / 0x100 % 64)]
  }

  /** The table has no repeated entry. */
  lemma TableInjective(i: nat, j: nat)
    requires i < 64 && j < 64 && Emoji(i) == Emoji(j)
    ensures i == j
  {
    PositionOf(i);
    PositionOf(j);
  }

  lemma PositionOf(i: nat)
    requires i < 64
    ensures Position(Emoji(i)) == i
  {
    if i < 16 { AnimalAt(i); } else if i < 32 { FruitAt(i - 16); }
    else if i < 48 { SportAt(i - 32); } else { VehicleAt(i - 48); }
  }

  lemma AnimalAt(i: nat) requires i < 16 ensures Position(ANIMALS[i]) == i {}
  lemma FruitAt(i: nat) requires i < 16 ensures Position(FRUIT[i]) == 16 + i {}
  lemma SportAt(i: nat) requires i < 16 ensures Position(SPORT[i]) == 32 + i {}
  lemma VehicleAt(i: nat) requires i < 16 ensures Position(VEHICLES[i]) == 48 + i {}

  /** Where a code point stands in the table. */
  function Position(c: int): int {
    if c == 0x1F436 then 0 else if c == 0x1F431 then 1 else if c == 0x1F42D then 2 else if c == 0x1F439 then 3
    else if c == 0x1F430 then 4 else if c == 0x1F98A then 5 else if c == 0x1F43B then 6 else if c == 0x1F43C then 7
    else if c == 0x1F428 then 8 else if c == 0x1F42F then 9 else if c == 0x1F981 then 10 else if c == 0x1F42E then 11
    else if c == 0x1F437 then 12 else if c == 0x1F438 then 13 else if c == 0x1F435 then 14 else if c == 0x1F414 then 15
    else if c == 0x1F34E then 16 else if c == 0x1F34A then 17 else if c == 0x1F34B then 18 else if c == 0x1F34C then 19
    else if c == 0x1F349 then 20 else if c == 0x1F347 then 21 else if c == 0x1F353 then 22 else if c == 0x1F352 then 23
    else if c == 0x1F351 then 24 else if c == 0x1F95D then 25 else if c == 0x1F34D then 26 else if c == 0x1F965 then 27
    else if c == 0x1F951 then 28 else if c == 0x1F345 then 29 else if c == 0x1F33D then 30 else if c == 0x1F955 then 31
    else if c == 0x26BD then 32 else if c == 0x1F3C0 then 33 else if c == 0x1F3C8 then 34 else if c == 0x26BE then 35
    else if c == 0x1F3BE then 36 else if c == 0x1F3D0 then 37 else if c == 0x1F3B1 then 38 else if c == 0x1F3D3 then 39
    else if c == 0x1F941 then 40 else if c == 0x1F3B8 then 41 else if c == 0x1F3BA then 42 else if c == 0x1F3BB then 43
    else if c == 0x1F3A8 then 44 else if c == 0x1F3AF then 45 else if c == 0x1F3B2 then 46 else if c == 0x1F3B3 then 47
    else if c == 0x1F697 then 48 else if c == 0x1F695 then 49 else if c == 0x1F699 then 50 else if c == 0x1F68C then 51
    else if c == 0x1F691 then 52 else if c == 0x1F693 then 53 else if c == 0x1F69A then 54 else if c == 0x1F6B2 then 55
    else if c == 0x1F6F5 then 56 else if c == 0x1F680 then 57 else if c == 0x1F681 then 58 else if c == 0x26F5 then 59
    else if c == 0x1F682 then 60 else if c == 0x1F69C then 61 else if c == 0x1F6F4 then 62 else if c == 0x1F6A4 then 63
    else -1
  }

  /** The comparison the two users make is exactly the comparison of the top 24 digest bits. */
  lemma EmojiCompareTop24(a: u32, b: u32)
    ensures SasEmoji(a) == SasEmoji(b) <==> a / 0x100 == b / 0x100
  {
    var x, y := SasEmoji(a), SasEmoji(b);
    Groups(a);
    Groups(b);
    if x == y {
      assert x[0] == y[0] && x[1] == y[1] && x[2] == y[2] && x[3] == y[3];
      TableInjective(a / 0x400_0000 % 64, b / 0x400_0000 % 64);
      TableInjective(a / 0x10_0000 % 64, b / 0x10_0000 % 64);
      TableInjective(a / 0x4000 % 64, b / 0x4000 % 64);
      TableInjective(a / 0x100 % 64, b / 0x100 % 64);
    }
  }

  lemma Groups(d: u32)
    ensures d / 0x400_0000 % 64 == d / 0x100 / 0x4_0000
    ensures d / 0x10_0000 % 64 == d / 0x100 / 0x1000 % 64
    ensures d / 0x4000 % 64 == d / 0x100 / 0x40 % 64
    ensures d / 0x100 == 0x4_0000 * (d / 0x400_0000 % 64) + 0x1000 * (d / 0x10_0000 % 64)
      + 0x40 * (d / 0x4000 % 64) + d / 0x100 % 64
  {
    var t := d / 0x100;
    assert d / 0x4000 == t / 0x40 && d / 0x10_0000 == t / 0x1000 && d / 0x400_0000 == t / 0x4_0000;
    assert t / 0x1000 == t / 0x40 / 0x40 && t / 0x4_0000 == t / 0x1000 / 0x40;
  }
}
