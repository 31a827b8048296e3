/** `generateUUID`: sixteen random bytes (an input here) with the version and
    variant bits of a version-4 UUID forced, printed as lower-case hex in the
    8-4-4-4-12 layout. The layout and the bit positions are those of section
    4.4 of RFC 4122. */
module Uuid {
  /** Forces the high nibble of byte 6 to 4 (the version) and the top two bits
      of byte 8 to `10` (the variant); every other bit is kept. */
  function SetVersionBits(b: seq<bv8>): (r: seq<bv8>)
    requires |b| == 16
    ensures |r| == 16
    ensures forall i :: 0 <= i < 16 && i != 6 && i != 8 ==> r[i] == b[i]
    ensures r[6] >> 4 == 4 && r[6] & 0x0f == b[6] & 0x0f
    ensures r[8] >> 6 == 2 && r[8] & 0x3f == b[8] & 0x3f
  {
    b[6 := (b[6] & 0x0f) | 0x40][8 := (b[8] & 0x3f) | 0x80]
  }

  /** Forcing the bits a second time changes nothing. */
  lemma SetVersionBitsIdempotent(b: seq<bv8>)
    requires |b| == 16
    ensures SetVersionBits(SetVersionBits(b)) == SetVersionBits(b)
  {
  }

  predicate IsHexDigit(c: char) {
    '0' <= c <= '9' || 'a' <= c <= 'f'
  }

  /** One lower-case hex digit, as `%x` prints it. */
  function HexDigit(n: bv8): (c: char)
    requires n < 16
    ensures IsHexDigit(c)
  {
    if n < 10 then ('0' as int + n as int) as char else ('a' as int + n as int - 10) as char
  }

  function HexValue(c: char): (n: bv8)
    requires IsHexDigit(c)
    ensures n < 16
  {
    if c <= '9' then (c as int - '0' as int) as bv8 else (c as int - 'a' as int + 10) as bv8
  }

  /** `%x` of a byte slice: two digits per byte, high nibble first. */
  function Hex(bs: seq<bv8>): (s: string)
    ensures |s| == 2 * |bs|
    ensures AllHex(s)
    ensures |bs| > 0 ==> s[0] == HexDigit(bs[0] >> 4)
  {
    if |bs| == 0 then ""
    else [HexDigit(bs[0] >> 4), HexDigit(bs[0] & 0x0f)] + Hex(bs[1..])
  }

  predicate AllHex(s: string) {
    forall i :: 0 <= i < |s| ==> IsHexDigit(s[i])
  }

  /** The 8-4-4-4-12 layout of five groups. */
  function Layout(g1: string, g2: string, g3: string, g4: string, g5: string): string {
    g1 + "-" + g2 + "-" + g3 + "-" + g4 + "-" + g5
  }

  lemma LayoutShape(g1: string, g2: string, g3: string, g4: string, g5: string)
    requires |g1| == 8 && |g2| == 4 && |g3| == 4 && |g4| == 4 && |g5| == 12
    requires AllHex(g1) && AllHex(g2) && AllHex(g3) && AllHex(g4) && AllHex(g5)
    ensures var u := Layout(g1, g2, g3, g4, g5);
      && |u| == 36
      && u[8] == '-' && u[13] == '-' && u[18] == '-' && u[23] == '-'
      && u[14] == g3[0] && u[19] == g4[0]
      && forall i :: 0 <= i < 36 && i != 8 && i != 13 && i != 18 && i != 23 ==> IsHexDigit(u[i])
  {
    var u := Layout(g1, g2, g3, g4, g5);
    assert forall i :: 0 <= i < 8 ==> u[i] == g1[i];
    assert forall i :: 9 <= i < 13 ==> u[i] == g2[i - 9];
    assert forall i :: 14 <= i < 18 ==> u[i] == g3[i - 14];
    assert forall i :: 19 <= i < 23 ==> u[i] == g4[i - 19];
    assert forall i :: 24 <= i < 36 ==> u[i] == g5[i - 24];
  }

  function GenerateUuid(random: seq<bv8>): (u: string)
    requires |random| == 16
    ensures |u| == 36
    ensures u[8] == '-' && u[13] == '-' && u[18] == '-' && u[23] == '-'
    ensures u[14] == '4'
    ensures u[19] in {'8', '9', 'a', 'b'}
    ensures forall i :: 0 <= i < 36 && i != 8 && i != 13 && i != 18 && i != 23 ==> IsHexDigit(u[i])
  {
    var b := SetVersionBits(random);
    var g3 := Hex(b[6..8]);
    var g4 := Hex(b[8..10]);
    assert g3[0] == HexDigit(b[6] >> 4) == '4';
    assert g4[0] == HexDigit(b[8] >> 4);
    LayoutShape(Hex(b[0..4]), Hex(b[4..6]), g3, g4, Hex(b[10..16]));
    Layout(Hex(b[0..4]), Hex(b[4..6]), g3, g4, Hex(b[10..16]))
  }

  /** The UUID with its hyphens taken out. */
  function Unhyphenate(u: string): string
    requires |u| == 36
  {
    u[0..8] + u[9..13] + u[14..18] + u[19..23] + u[24..36]
  }

  /** Reads hex text back into bytes. */
  function DecodeHex(s: string): (bs: seq<bv8>)
    requires |s| % 2 == 0 && AllHex(s)
    ensures |bs| == |s| / 2
  {
    if |s| == 0 then []
    else [DecodeByte(s[0], s[1])] + DecodeHex(s[2..])
  }

  /** Two hex digits, high nibble first, as one byte. */
  function DecodeByte(hi: char, lo: char): bv8
    requires IsHexDigit(hi) && IsHexDigit(lo)
  {
    (HexValue(hi) << 4) | HexValue(lo)
  }

  lemma HexDigitValue(n: bv8)
    requires n < 16
    ensures HexValue(HexDigit(n)) == n
  {
  }

  lemma ByteFromNibbles(x: bv8)
    ensures DecodeByte(HexDigit(x >> 4), HexDigit(x & 0x0f)) == x
  {
    HexDigitValue(x >> 4);
    HexDigitValue(x & 0x0f);
  }

  /** Hex text decodes back to the bytes it was printed from. */
  lemma {:induction false} HexRoundTrip(bs: seq<bv8>)
    ensures DecodeHex(Hex(bs)) == bs
  {
    if |bs| > 0 {
      var s := Hex(bs);
      var hi, lo := HexDigit(bs[0] >> 4), HexDigit(bs[0] & 0x0f);
      var rest := Hex(bs[1..]);
      assert s == [hi, lo] + rest;
      assert s[0] == hi && s[1] == lo && s[2..] == rest;
      assert DecodeHex(s) == [DecodeByte(hi, lo)] + DecodeHex(rest);
      ByteFromNibbles(bs[0]);
      HexRoundTrip(bs[1..]);
    }
  }

  lemma {:induction false} HexAppend(a: seq<bv8>, b: seq<bv8>)
    ensures Hex(a + b) == Hex(a) + Hex(b)
  {
    if |a| > 0 {
      assert (a + b)[1..] == a[1..] + b;
      HexAppend(a[1..], b);
    } else {
      assert a + b == b;
    }
  }

  lemma UnhyphenateLayout(g1: string, g2: string, g3: string, g4: string, g5: string)
    requires |g1| == 8 && |g2| == 4 && |g3| == 4 && |g4| == 4 && |g5| == 12
    ensures Unhyphenate(g1 + "-" + g2 + "-" + g3 + "-" + g4 + "-" + g5) == g1 + g2 + g3 + g4 + g5
  {
    var u := g1 + "-" + g2 + "-" + g3 + "-" + g4 + "-" + g5;
    assert u[0..8] == g1;
    assert u[9..13] == g2;
    assert u[14..18] == g3;
    assert u[19..23] == g4;
    assert u[24..36] == g5;
  }

  lemma HexSplit(b: seq<bv8>, i: nat, j: nat, k: nat)
    requires i <= j <= k <= |b|
    ensures Hex(b[i..j]) + Hex(b[j..k]) == Hex(b[i..k])
  {
    assert b[i..j] + b[j..k] == b[i..k];
    HexAppend(b[i..j], b[j..k]);
  }

  lemma HexGroups(b: seq<bv8>)
    requires |b| == 16
    ensures Hex(b[0..4]) + Hex(b[4..6]) + Hex(b[6..8]) + Hex(b[8..10]) + Hex(b[10..16]) == Hex(b)
  {
    HexSplit(b, 0, 4, 6);
    HexSplit(b, 0, 6, 8);
    HexSplit(b, 0, 8, 10);
    HexSplit(b, 0, 10, 16);
    assert b[0..16] == b;
  }

  /** Taking the hyphens out of a generated UUID and decoding the hex gives
      back the random bytes with exactly the version and variant bits forced. */
  lemma UuidDecodes(random: seq<bv8>)
    requires |random| == 16
    ensures DecodeHex(Unhyphenate(GenerateUuid(random))) == SetVersionBits(random)
  {
    var b := SetVersionBits(random);
    assert GenerateUuid(random) == Layout(Hex(b[0..4]), Hex(b[4..6]), Hex(b[6..8]), Hex(b[8..10]), Hex(b[10..16]));
    UnhyphenateLayout(Hex(b[0..4]), Hex(b[4..6]), Hex(b[6..8]), Hex(b[8..10]), Hex(b[10..16]));
    HexGroups(b);
    HexRoundTrip(b);
  }
}
