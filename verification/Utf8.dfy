// UTF-8 as section 3 of RFC 3629 defines it. A Dafny char is a Unicode scalar
// value, so no string holds a surrogate.
module Utf8 {
  import opened Basics

  type Byte = b: int | 0 <= b < 256

  function EncodeChar(c: char): (r: seq<Byte>)
    ensures 1 <= |r| <= 4
  {
    var n := c as int;
    if n < 0x80 then [n]
    else if n < 0x800 then [0xC0 + n / 0x40, 0x80 + n % 0x40]
    else if n < 0x1_0000 then [0xE0 + n / 0x1000, 0x80 + n / 0x40 % 0x40, 0x80 + n % 0x40]
    else [0xF0 + n / 0x4_0000, 0x80 + n / 0x1000 % 0x40, 0x80 + n / 0x40 % 0x40, 0x80 + n % 0x40]
  }

  function Encode(s: string): seq<Byte> {
    if s == "" then [] else EncodeChar(s[0]) + Encode(s[1..])
  }

  predicate Continues(bytes: seq<Byte>, n: nat) {
    |bytes| >= n && forall i :: 1 <= i < n ==> 0x80 <= bytes[i] < 0xC0
  }

  predicate Scalar(n: int) {
    0 <= n < 0xD800 || 0xE000 <= n < 0x11_0000
  }

  /** The character that starts the bytes and the number of bytes it takes; None for a byte
      sequence that is truncated, overlong, a surrogate or out of range. */
  function DecodeChar(bytes: seq<Byte>): (r: Option<(char, nat)>)
    ensures r.Some? ==> 1 <= r.value.1 <= |bytes|
  {
    if bytes == [] then None
    else
      var b: int := bytes[0];
      if b < 0x80 then Some((b as char, 1))
      else if b < 0xC2 then None
      else if b < 0xE0 then
        if Continues(bytes, 2) then Some((((b - 0xC0) * 0x40 + Low(bytes[1])) as char, 2)) else None
      else if b < 0xF0 then
        if !Continues(bytes, 3) then None
        else
          var n := (b - 0xE0) * 0x1000 + Low(bytes[1]) * 0x40 + Low(bytes[2]);
          if n >= 0x800 && Scalar(n) then Some((n as char, 3)) else None
      else if !Continues(bytes, 4) then None
      else
        var n := (b - 0xF0) * 0x4_0000 + Low(bytes[1]) * 0x1000 + Low(bytes[2]) * 0x40 + Low(bytes[3]);
        if n >= 0x1_0000 && Scalar(n) then Some((n as char, 4)) else None
  }

  /** The six payload bits of a continuation byte. */
  function Low(b: int): int {
    b - 0x80
  }

  function Decode(bytes: seq<Byte>): Option<string>
    decreases |bytes|
  {
    if bytes == [] then Some("")
    else
      match DecodeChar(bytes)
      case None => None
      case Some((c, n)) =>
        match Decode(bytes[n..])
        case None => None
        case Some(s) => Some([c] + s)
  }

  /** The bit patterns of section 3 of RFC 3629: the range of the first byte tells the length, every
      further byte carries six bits, and the bits together are the character number. */
  lemma CharWritten(c: char)
    ensures var n, b := c as int, EncodeChar(c);
            && (n < 0x80 ==> |b| == 1 && b[0] == n)
            && (0x80 <= n < 0x800 ==> |b| == 2 && 0xC2 <= b[0] < 0xE0 && (b[0] as int - 0xC0) * 64 + (b[1] as int - 0x80) == n)
            && (0x800 <= n < 0x1_0000 ==>
                  |b| == 3 && 0xE0 <= b[0] < 0xF0
                  && (b[0] as int - 0xE0) * 4096 + (b[1] as int - 0x80) * 64 + (b[2] as int - 0x80) == n)
            && (0x1_0000 <= n ==>
                  |b| == 4 && 0xF0 <= b[0] < 0xF5
                  && (b[0] as int - 0xF0) * 262_144 + (b[1] as int - 0x80) * 4096 + (b[2] as int - 0x80) * 64 + (b[3] as int - 0x80) == n)
            && forall i :: 1 <= i < |b| ==> 0x80 <= b[i] < 0xC0
  {
    var n := c as int;
    if 0x800 <= n < 0x1_0000 {
      ThreeDigits(n);
    } else if 0x1_0000 <= n {
      FourDigits(n);
    }
  }

  lemma ThreeDigits(n: int)
    requires 0x800 <= n < 0x1_0000
    ensures n == n / 0x1000 * 0x1000 + n / 0x40 % 0x40 * 0x40 + n % 0x40
    ensures 0 <= n / 0x1000 < 16
  {
  }

  lemma FourDigits(n: int)
    requires 0x1_0000 <= n < 0x11_0000
    ensures n == n / 0x4_0000 * 0x4_0000 + n / 0x1000 % 0x40 * 0x1000 + n / 0x40 % 0x40 * 0x40 + n % 0x40
    ensures 0 <= n / 0x4_0000 < 5
  {
  }

  lemma DecodeShort(c: char, rest: seq<Byte>)
    requires c as int < 0x800
    ensures DecodeChar(EncodeChar(c) + rest) == Some((c, |EncodeChar(c)|))
  {
  }

  lemma DecodeThree(c: char, rest: seq<Byte>)
    requires 0x800 <= c as int < 0x1_0000
    ensures DecodeChar(EncodeChar(c) + rest) == Some((c, |EncodeChar(c)|))
  {
    var n := c as int;
    var bytes := EncodeChar(c) + rest;
    ThreeDigits(n);
    assert bytes[0] == 0xE0 + n / 0x1000 && bytes[1] == 0x80 + n / 0x40 % 0x40 && bytes[2] == 0x80 + n % 0x40;
    assert Continues(bytes, 3);
  }

  lemma DecodeFour(c: char, rest: seq<Byte>)
    requires 0x1_0000 <= c as int
    ensures DecodeChar(EncodeChar(c) + rest) == Some((c, |EncodeChar(c)|))
  {
    var n := c as int;
    var bytes := EncodeChar(c) + rest;
    FourDigits(n);
    assert bytes[0] == 0xF0 + n / 0x4_0000 && bytes[1] == 0x80 + n / 0x1000 % 0x40;
    assert bytes[2] == 0x80 + n / 0x40 % 0x40 && bytes[3] == 0x80 + n % 0x40;
    assert Continues(bytes, 4);
  }

  lemma DecodeEncodedChar(c: char, rest: seq<Byte>)
    ensures DecodeChar(EncodeChar(c) + rest) == Some((c, |EncodeChar(c)|))
  {
    if c as int < 0x800 {
      DecodeShort(c, rest);
    } else if c as int < 0x1_0000 {
      DecodeThree(c, rest);
    } else {
      DecodeFour(c, rest);
    }
  }

  /** Decoding undoes encoding, for every string. */
  lemma {:induction false} RoundTrip(s: string)
    ensures Decode(Encode(s)) == Some(s)
  {
    if s != "" {
      var head, rest := EncodeChar(s[0]), Encode(s[1..]);
      DecodeEncodedChar(s[0], rest);
      RoundTrip(s[1..]);
      assert (head + rest)[|head|..] == rest;
      assert s == [s[0]] + s[1..];
    }
  }

  lemma {:induction false} EncodeAppend(a: string, b: string)
    ensures Encode(a + b) == Encode(a) + Encode(b)
  {
    if a == "" {
      assert a + b == b;
    } else {
      assert (a + b)[1..] == a[1..] + b;
      EncodeAppend(a[1..], b);
    }
  }

  predicate Ascii(s: string) {
    forall i :: 0 <= i < |s| ==> s[i] as int < 0x80
  }

  lemma {:induction false} AsciiLength(s: string)
    requires Ascii(s)
    ensures |Encode(s)| == |s|
  {
    if s != "" {
      AsciiLength(s[1..]);
    }
  }
}
