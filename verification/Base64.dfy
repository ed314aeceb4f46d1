// Base64 with the URL-safe alphabet (section 5 of RFC 4648). The decoder is the
// lenient one of the Python standard library: it accepts both alphabets, skips
// other ASCII characters, and stops at a complete padding.
module Base64 {
  import opened Basics
  import opened Utf8

  type Sextet = v: int | 0 <= v < 64

  function Letter(v: Sextet): char {
    if v < 26 then 'A' + v as char
    else if v < 52 then 'a' + (v - 26) as char
    else if v < 62 then '0' + (v - 52) as char
    else if v == 62 then '-' else '_'
  }

  function Value(c: char): Option<Sextet> {
    if 'A' <= c <= 'Z' then Some(c as int - 'A' as int)
    else if 'a' <= c <= 'z' then Some(c as int - 'a' as int + 26)
    else if '0' <= c <= '9' then Some(c as int - '0' as int + 52)
    else if c == '-' || c == '+' then Some(62)
    else if c == '_' || c == '/' then Some(63)
    else None
  }

  /** The encoding without its padding. */
  function Encode(bytes: seq<Byte>): string {
    if |bytes| == 0 then ""
    else if |bytes| == 1 then [Letter(bytes[0] / 4), Letter(bytes[0] % 4 * 16)]
    else if |bytes| == 2 then
      [Letter(bytes[0] / 4), Letter(bytes[0] % 4 * 16 + bytes[1] / 16), Letter(bytes[1] % 16 * 4)]
    else
      [Letter(bytes[0] / 4), Letter(bytes[0] % 4 * 16 + bytes[1] / 16),
       Letter(bytes[1] % 16 * 4 + bytes[2] / 64), Letter(bytes[2] % 64)]
      + Encode(bytes[3..])
  }

  /** As many '=' as bring a length to the next multiple of four. */
  function Padding(length: nat): string {
    seq((4 - length % 4) % 4, _ => '=')
  }

  function EncodePadded(bytes: seq<Byte>): string {
    var text := Encode(bytes);
    text + Padding(|text|)
  }

  /** The decoding loop: position in the current group of four, bits carried over, padding seen. */
  function Scan(s: string, position: nat, carry: nat, pads: nat): Option<seq<Byte>>
    requires position < 4 && (position == 1 ==> carry < 64) && (position == 2 ==> carry < 16)
    requires position == 3 ==> carry < 4
  {
    if s == "" then (if position == 0 then Some([]) else None)
    else if s[0] == '=' then
      if position >= 2 && position + pads + 1 >= 4 then Some([])
      else Scan(s[1..], position, carry, if position >= 2 then pads + 1 else pads)
    else
      match Value(s[0])
      case None => Scan(s[1..], position, carry, pads)
      case Some(v) =>
        if position == 0 then Scan(s[1..], 1, v, 0)
        else if position == 1 then Emit(carry * 4 + v / 16, Scan(s[1..], 2, v % 16, 0))
        else if position == 2 then Emit(carry * 16 + v / 4, Scan(s[1..], 3, v % 4, 0))
        else Emit(carry * 64 + v, Scan(s[1..], 0, 0, 0))
  }

  function Emit(b: Byte, rest: Option<seq<Byte>>): Option<seq<Byte>> {
    if rest.None? then None else Some([b] + rest.value)
  }

  function Decode(s: string): Option<seq<Byte>> {
    if Ascii(s) then Scan(s, 0, 0, 0) else None
  }

  /** The number of a character in the alphabet of section 5 of RFC 4648, -1 for all others. */
  function Rank(c: char): int {
    if 'A' <= c <= 'Z' then c as int - 65
    else if 'a' <= c <= 'z' then c as int - 71
    else if '0' <= c <= '9' then c as int + 4
    else if c == '-' then 62 else if c == '_' then 63 else -1
  }

  /** Four characters hold the bits of three bytes, the highest first. */
  lemma GroupWritten(a: Byte, b: Byte, c: Byte, rest: seq<Byte>)
    ensures var s := Encode([a, b, c] + rest);
            && |s| >= 4 && s[4..] == Encode(rest)
            && 262_144 * Rank(s[0]) + 4096 * Rank(s[1]) + 64 * Rank(s[2]) + Rank(s[3]) == 65_536 * a + 256 * b + c
  {
    assert ([a, b, c] + rest)[3..] == rest;
    RankOfLetter(a / 4);
    RankOfLetter(a % 4 * 16 + b / 16);
    RankOfLetter(b % 16 * 4 + c / 64);
    RankOfLetter(c % 64);
  }

  lemma RankOfLetter(v: Sextet)
    ensures Rank(Letter(v)) == v
  {
  }

  /** A last group of one or two bytes is filled up with zero bits. */
  lemma LastGroupWritten(a: Byte, b: Byte)
    ensures var one := Encode([a]); |one| == 2 && 64 * Rank(one[0]) + Rank(one[1]) == 16 * a
    ensures var two := Encode([a, b]);
            |two| == 3 && 4096 * Rank(two[0]) + 64 * Rank(two[1]) + Rank(two[2]) == 4 * (256 * a + b)
  {
    RankOfLetter(a / 4);
    RankOfLetter(a % 4 * 16);
    RankOfLetter(a % 4 * 16 + b / 16);
    RankOfLetter(b % 16 * 4);
  }

  /** Padding is the fewest '=' that make the length a multiple of four. */
  lemma PaddingWritten(n: nat)
    ensures (n + |Padding(n)|) % 4 == 0 && |Padding(n)| < 4
    ensures forall c :: c in Padding(n) ==> c == '='
  {
  }

  /** Encoded text uses the letters of the alphabet only. */
  lemma {:induction false} EncodeLetters(bytes: seq<Byte>)
    ensures forall c :: c in Encode(bytes) ==> Rank(c) >= 0
  {
    if |bytes| >= 3 {
      EncodeLetters(bytes[3..]);
    }
  }

  lemma ValueOfLetter(v: Sextet)
    ensures Value(Letter(v)) == Some(v) && Letter(v) != '=' && Letter(v) as int < 0x80
  {
  }

  lemma ScanLetter(v: Sextet, rest: string, position: nat, carry: nat, pads: nat)
    requires position < 4 && (position == 1 ==> carry < 64) && (position == 2 ==> carry < 16)
    requires position == 3 ==> carry < 4
    ensures Scan([Letter(v)] + rest, position, carry, pads)
            == (if position == 0 then Scan(rest, 1, v, 0)
                else if position == 1 then Emit(carry * 4 + v / 16, Scan(rest, 2, v % 16, 0))
                else if position == 2 then Emit(carry * 16 + v / 4, Scan(rest, 3, v % 4, 0))
                else Emit(carry * 64 + v, Scan(rest, 0, 0, 0)))
  {
    ValueOfLetter(v);
    assert ([Letter(v)] + rest)[1..] == rest;
  }

  lemma ScanFour(v0: Sextet, v1: Sextet, v2: Sextet, v3: Sextet, rest: string)
    ensures v2 % 4 * 64 + v3 < 256
    ensures Scan([Letter(v0), Letter(v1), Letter(v2), Letter(v3)] + rest, 0, 0, 0)
            == Emit(v0 * 4 + v1 / 16, Emit(v1 % 16 * 16 + v2 / 4, Emit(v2 % 4 * 64 + v3, Scan(rest, 0, 0, 0))))
  {
    var t3 := [Letter(v3)] + rest;
    var t2 := [Letter(v2)] + t3;
    var t1 := [Letter(v1)] + t2;
    assert [Letter(v0), Letter(v1), Letter(v2), Letter(v3)] + rest == [Letter(v0)] + t1;
    ScanLetter(v0, t1, 0, 0, 0);
    ScanLetter(v1, t2, 1, v0, 0);
    ScanLetter(v2, t3, 2, v1 % 16, 0);
    ScanLetter(v3, rest, 3, v2 % 4, 0);
  }

  lemma ScanThree(v0: Sextet, v1: Sextet, v2: Sextet)
    ensures Scan([Letter(v0), Letter(v1), Letter(v2)] + "=", 0, 0, 0)
            == Some([v0 * 4 + v1 / 16, v1 % 16 * 16 + v2 / 4])
  {
    var t2 := [Letter(v2)] + "=";
    var t1 := [Letter(v1)] + t2;
    assert [Letter(v0), Letter(v1), Letter(v2)] + "=" == [Letter(v0)] + t1;
    ScanLetter(v0, t1, 0, 0, 0);
    ScanLetter(v1, t2, 1, v0, 0);
    ScanLetter(v2, "=", 2, v1 % 16, 0);
    assert Scan("=", 3, v2 % 4, 0) == Some([]);
    var x: Byte, y: Byte := v0 * 4 + v1 / 16, v1 % 16 * 16 + v2 / 4;
    assert [x] + ([y] + []) == [x, y];
  }

  lemma ScanTwo(v0: Sextet, v1: Sextet)
    ensures Scan([Letter(v0), Letter(v1)] + "==", 0, 0, 0) == Some([v0 * 4 + v1 / 16])
  {
    var t1 := [Letter(v1)] + "==";
    assert [Letter(v0), Letter(v1)] + "==" == [Letter(v0)] + t1;
    ScanLetter(v0, t1, 0, 0, 0);
    ScanLetter(v1, "==", 1, v0, 0);
    assert "=="[1..] == "=";
    assert Scan("=", 2, v1 % 16, 1) == Some([]);
    assert Scan("==", 2, v1 % 16, 0) == Scan("=", 2, v1 % 16, 1);
    var x: Byte := v0 * 4 + v1 / 16;
    assert [x] + [] == [x];
  }

  lemma JoinFirst(a: Byte, low: int)
    requires 0 <= low < 16
    ensures a / 4 * 4 + (a % 4 * 16 + low) / 16 == a && (a % 4 * 16 + low) % 16 == low
  {
  }

  lemma JoinSecond(b: Byte, low: int)
    requires 0 <= low < 4
    ensures b / 16 * 16 + (b % 16 * 4 + low) / 4 == b && (b % 16 * 4 + low) % 4 == low
  {
  }

  /** A full group of four letters gives back its three bytes. */
  lemma ScanGroup(a: Byte, b: Byte, c: Byte, rest: string)
    ensures Scan([Letter(a / 4), Letter(a % 4 * 16 + b / 16), Letter(b % 16 * 4 + c / 64), Letter(c % 64)] + rest,
                 0, 0, 0)
            == Emit(a, Emit(b, Emit(c, Scan(rest, 0, 0, 0))))
  {
    ScanFour(a / 4, a % 4 * 16 + b / 16, b % 16 * 4 + c / 64, c % 64, rest);
    JoinFirst(a, b / 16);
    JoinSecond(b, c / 64);
  }

  lemma {:induction false} EncodeLength(bytes: seq<Byte>)
    ensures |Encode(bytes)| == (4 * |bytes| + 2) / 3
  {
    if |bytes| >= 3 {
      EncodeLength(bytes[3..]);
    }
  }

  lemma {:induction false} EncodeAscii(bytes: seq<Byte>)
    ensures Ascii(Encode(bytes))
    ensures '=' !in Encode(bytes)
  {
    if |bytes| >= 1 {
      ValueOfLetter(bytes[0] / 4);
      ValueOfLetter(bytes[0] % 4 * 16);
    }
    if |bytes| >= 2 {
      ValueOfLetter(bytes[0] % 4 * 16 + bytes[1] / 16);
      ValueOfLetter(bytes[1] % 16 * 4);
    }
    if |bytes| >= 3 {
      ValueOfLetter(bytes[1] % 16 * 4 + bytes[2] / 64);
      ValueOfLetter(bytes[2] % 64);
      EncodeAscii(bytes[3..]);
    }
  }

  lemma PaddingSteps(n: nat)
    ensures Padding(n + 4) == Padding(n) && Padding(0) == "" && Padding(2) == "==" && Padding(3) == "="
  {
  }

  lemma ScanShort(bytes: seq<Byte>)
    requires |bytes| < 3
    ensures Scan(EncodePadded(bytes), 0, 0, 0) == Some(bytes)
  {
    PaddingSteps(0);
    if |bytes| == 1 {
      ScanTwo(bytes[0] / 4, bytes[0] % 4 * 16);
      JoinFirst(bytes[0], 0);
      assert bytes == [bytes[0]];
    } else if |bytes| == 2 {
      ScanThree(bytes[0] / 4, bytes[0] % 4 * 16 + bytes[1] / 16, bytes[1] % 16 * 4);
      JoinFirst(bytes[0], bytes[1] / 16);
      JoinSecond(bytes[1], 0);
      assert bytes == [bytes[0], bytes[1]];
    } else {
      assert EncodePadded(bytes) == "";
    }
  }

  function Group(a: Byte, b: Byte, c: Byte): string {
    [Letter(a / 4), Letter(a % 4 * 16 + b / 16), Letter(b % 16 * 4 + c / 64), Letter(c % 64)]
  }

  lemma EncodePaddedGroup(bytes: seq<Byte>)
    requires |bytes| >= 3
    ensures EncodePadded(bytes) == Group(bytes[0], bytes[1], bytes[2]) + EncodePadded(bytes[3..])
  {
    PaddingSteps(|Encode(bytes[3..])|);
  }

  lemma {:induction false} ScanEncoded(bytes: seq<Byte>)
    ensures Scan(EncodePadded(bytes), 0, 0, 0) == Some(bytes)
  {
    if |bytes| < 3 {
      ScanShort(bytes);
    } else {
      var rest := bytes[3..];
      EncodePaddedGroup(bytes);
      ScanGroup(bytes[0], bytes[1], bytes[2], EncodePadded(rest));
      ScanEncoded(rest);
      assert bytes == [bytes[0]] + ([bytes[1]] + ([bytes[2]] + rest));
    }
  }

  /** Decoding undoes padded encoding, and the padding can be rebuilt from the length alone. */
  lemma RoundTrip(bytes: seq<Byte>)
    ensures Decode(EncodePadded(bytes)) == Some(bytes)
    ensures Decode(Encode(bytes) + Padding(|Encode(bytes)|)) == Some(bytes)
  {
    ScanEncoded(bytes);
    EncodeAscii(bytes);
  }
}
