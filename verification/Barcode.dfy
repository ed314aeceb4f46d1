// FOBOS barcodes: "F." and the unpadded base64url form of a JSON object with
// the shortened name, the price text and the product id.
module Barcode {
  import opened Basics
  import opened Utf8
  import Base64
  import Json

  // Product ids as text.

  function Pow16(n: nat): (r: nat)
    ensures r > 0
  {
    if n == 0 then 1 else 16 * Pow16(n - 1)
  }

  /** A 128-bit identifier. */
  type Uuid = n: nat | n < Pow16(32) witness 0

  function Hex(n: nat, width: nat): (r: string)
    ensures |r| == width
  {
    if width == 0 then "" else Hex(n / 16, width - 1) + [Json.HexDigit(n % 16)]
  }

  function UuidText(id: Uuid): string {
    var h := Hex(id, 32);
    h[..8] + "-" + h[8..12] + "-" + h[12..16] + "-" + h[16..20] + "-" + h[20..]
  }

  function WithoutDashes(s: string): string {
    if s == "" then ""
    else WithoutDashes(s[..|s| - 1]) + if s[|s| - 1] == '-' then "" else [s[|s| - 1]]
  }

  /** The text names an identifier: 32 hexadecimal digits once the dashes are dropped. */
  predicate IsUuid(s: string) {
    var h := WithoutDashes(s);
    |h| == 32 && forall i :: 0 <= i < 32 ==> Json.HexValue(h[i]).Some?
  }

  // Barcodes.

  const PREFIX := "F."
  const MAX_NAME_CHARS := 24

  function Shortened(name: string): string {
    if |name| <= MAX_NAME_CHARS then name else name[..MAX_NAME_CHARS]
  }

  function Payload(name: string, price: string, id: string): string {
    Json.PrintObject([("n", Shortened(name)), ("p", price), ("i", id)])
  }

  /** price is the printed price. */
  function Build(name: string, price: string, id: Uuid): string {
    PREFIX + Base64.Encode(Encode(Payload(name, price, UuidText(id))))
  }

  datatype Scanned = Scanned(name: string, price: string, id: string)

  /** The payload of a FOBOS barcode; None for any other code. */
  function Parse(barcode: string): Option<Scanned> {
    if !(PREFIX <= barcode) then None
    else
      var body := barcode[|PREFIX|..];
      match Base64.Decode(body + Base64.Padding(|body|))
      case None => None
      case Some(bytes) =>
        match Decode(bytes)
        case None => None
        case Some(text) =>
          match Json.ParseObject(text)
          case None => None
          case Some(members) =>
            var id := Json.Lookup(members, "i");
            if id.None? || !IsUuid(id.value) then None
            else Some(Scanned(OrElse(Json.Lookup(members, "n"), ""), OrElse(Json.Lookup(members, "p"), ""),
                              id.value))
  }

  lemma {:induction false} HexIsHex(n: nat, width: nat)
    ensures forall c :: c in Hex(n, width) ==> Json.HexValue(c).Some? && c != '-'
  {
    if width > 0 {
      HexIsHex(n / 16, width - 1);
    }
  }

  lemma {:induction false} WithoutDashesAppend(a: string, b: string)
    ensures WithoutDashes(a + b) == WithoutDashes(a) + WithoutDashes(b)
  {
    if b == "" {
      assert a + b == a;
    } else {
      assert (a + b)[..|a + b| - 1] == a + b[..|b| - 1];
      WithoutDashesAppend(a, b[..|b| - 1]);
    }
  }

  lemma {:induction false} NoDashes(s: string)
    requires '-' !in s
    ensures WithoutDashes(s) == s
  {
    if s != "" {
      assert s[|s| - 1] in s;
      NoDashes(s[..|s| - 1]);
      assert s == s[..|s| - 1] + [s[|s| - 1]];
    }
  }

  lemma DashedPart(a: string, b: string)
    requires '-' !in b
    ensures WithoutDashes(a + "-" + b) == WithoutDashes(a) + b
  {
    assert WithoutDashes(a + "-") == WithoutDashes(a) by {
      assert (a + "-")[..|a|] == a;
    }
    WithoutDashesAppend(a + "-", b);
    NoDashes(b);
  }

  lemma UuidTextDigits(id: Uuid)
    ensures WithoutDashes(UuidText(id)) == Hex(id, 32)
    ensures |UuidText(id)| == 36 && IsUuid(UuidText(id))
  {
    var h := Hex(id, 32);
    HexIsHex(id, 32);
    WithoutDashesOfDashed(h);
  }

  lemma WithoutDashesOfDashed(h: string)
    requires |h| == 32 && '-' !in h
    ensures WithoutDashes(h[..8] + "-" + h[8..12] + "-" + h[12..16] + "-" + h[16..20] + "-" + h[20..]) == h
  {
    assert forall i :: 0 <= i < 32 ==> h[i] in h;
    assert h == h[..8] + h[8..12] + h[12..16] + h[16..20] + h[20..];
    var t1 := h[..8];
    var t2 := t1 + "-" + h[8..12];
    var t3 := t2 + "-" + h[12..16];
    var t4 := t3 + "-" + h[16..20];
    NoDashes(t1);
    DashedPart(t1, h[8..12]);
    DashedPart(t2, h[12..16]);
    DashedPart(t3, h[16..20]);
    DashedPart(t4, h[20..]);
  }

  lemma {:induction false} HexInjective(m: nat, n: nat, width: nat)
    requires m < Pow16(width) && n < Pow16(width) && Hex(m, width) == Hex(n, width)
    ensures m == n
  {
    if width > 0 {
      var a, b := Hex(m, width), Hex(n, width);
      assert a[..width - 1] == Hex(m / 16, width - 1) && b[..width - 1] == Hex(n / 16, width - 1);
      assert a[width - 1] == Json.HexDigit(m % 16) && b[width - 1] == Json.HexDigit(n % 16);
      Json.HexDigitValue(m % 16);
      Json.HexDigitValue(n % 16);
      HexInjective(m / 16, n / 16, width - 1);
    }
  }

  lemma UuidTextInjective(a: Uuid, b: Uuid)
    requires UuidText(a) == UuidText(b)
    ensures a == b
  {
    UuidTextDigits(a);
    UuidTextDigits(b);
    HexInjective(a, b, 32);
  }

  lemma BodyDecodes(text: string)
    ensures var body := Base64.Encode(Encode(text));
            && Base64.Decode(body + Base64.Padding(|body|)) == Some(Encode(text))
            && Decode(Encode(text)) == Some(text)
  {
    Base64.RoundTrip(Encode(text));
    Utf8.RoundTrip(text);
  }

  lemma MembersFound(name: string, price: string, id: string)
    ensures var members := [("n", name), ("p", price), ("i", id)];
            && Json.Lookup(members, "i") == Some(id)
            && Json.Lookup(members, "p") == Some(price)
            && Json.Lookup(members, "n") == Some(name)
  {
    var members := [("n", name), ("p", price), ("i", id)];
    var two, one := [("n", name), ("p", price)], [("n", name)];
    assert members[..2] == two && two[..1] == one;
    assert Json.Lookup(one, "n") == Some(name);
    assert Json.Lookup(two, "n") == Json.Lookup(one, "n");
  }

  /** Reading a generated barcode gives back the first 24 characters of the name, the price text and
      the id, for every name, price and id. */
  lemma RoundTrip(name: string, price: string, id: Uuid)
    ensures Parse(Build(name, price, id))
            == Some(Scanned(if |name| <= 24 then name else name[..24], price, UuidText(id)))
  {
    var text := Payload(name, price, UuidText(id));
    BodyDecodes(text);
    assert Build(name, price, id)[|PREFIX|..] == Base64.Encode(Encode(text));
    Json.RoundTrip([("n", Shortened(name)), ("p", price), ("i", UuidText(id))]);
    MembersFound(Shortened(name), price, UuidText(id));
    UuidTextDigits(id);
  }

  /** A member of a JSON object: quoted key, colon, quoted and escaped text. */
  function Member(key: string, text: string): string {
    "\"" + key + "\":\"" + Json.Escape(text) + "\""
  }

  /** What a generated barcode looks like: "F." and base64url of the UTF-8 text of the object with
      the members n, p and i, whatever the name holds. */
  lemma BarcodeWritten(name: string, price: string, id: Uuid)
    ensures var code := Build(name, price, id);
            && |code| >= 2 && code[..2] == "F."
            && (forall i :: 2 <= i < |code| ==>
                  'A' <= code[i] <= 'Z' || 'a' <= code[i] <= 'z' || '0' <= code[i] <= '9' || code[i] in "-_")
    ensures var short := if |name| <= 24 then name else name[..24];
            Build(name, price, id)[2..]
            == Base64.Encode(Encode("{" + Member("n", short) + "," + Member("p", price) + ","
                                    + Member("i", UuidText(id)) + "}"))
  {
    var body := Base64.Encode(Encode(Payload(name, price, UuidText(id))));
    Base64.EncodeLetters(Encode(Payload(name, price, UuidText(id))));
    forall i | 0 <= i < |body| ensures Base64.Rank(body[i]) >= 0 {
      assert body[i] in body;
    }
    PayloadWritten(Shortened(name), price, UuidText(id));
  }

  lemma MemberWritten(key: string, text: string)
    requires Plain(key)
    ensures Json.PrintMember(key, text) == Member(key, text)
  {
    EscapePlain(key);
  }

  lemma PayloadWritten(n: string, p: string, i: string)
    ensures Json.PrintObject([("n", n), ("p", p), ("i", i)])
            == "{" + Member("n", n) + "," + Member("p", p) + "," + Member("i", i) + "}"
  {
    var all := [("n", n), ("p", p), ("i", i)];
    assert all[1..] == [("p", p), ("i", i)] && all[1..][1..] == [("i", i)];
    MemberWritten("n", n);
    MemberWritten("p", p);
    MemberWritten("i", i);
    assert Json.PrintMembers([("i", i)]) == Member("i", i);
    assert Json.PrintMembers(all[1..]) == Member("p", p) + "," + Json.PrintMembers(all[1..][1..]);
    assert Json.PrintMembers(all) == Member("n", n) + "," + Json.PrintMembers(all[1..]);
    Regrouped(Member("n", n), Member("p", p), Member("i", i));
  }

  lemma Regrouped(a: string, b: string, c: string)
    ensures "{" + (a + "," + (b + "," + c)) + "}" == "{" + a + "," + b + "," + c + "}"
  {
  }

  /** A code without the prefix, or whose id is no identifier, is no generated barcode. */
  lemma ParseRefuses(code: string)
    ensures Parse(code).Some? ==> |code| >= 2 && code[..2] == "F." && IsUuid(Parse(code).value.id)
  {
  }

  /** The number that hexadecimal digits stand for. */
  function HexNumber(s: string): nat {
    if s == "" then 0
    else
      var c := s[|s| - 1];
      16 * HexNumber(s[..|s| - 1])
      + if '0' <= c <= '9' then c as int - 48 else if 'a' <= c <= 'f' then c as int - 87 else 0
  }

  lemma {:induction false} HexNumberOf(n: nat, width: nat)
    requires n < Pow16(width)
    ensures HexNumber(Hex(n, width)) == n
    ensures forall c :: c in Hex(n, width) ==> '0' <= c <= '9' || 'a' <= c <= 'f'
  {
    if width > 0 {
      HexNumberOf(n / 16, width - 1);
      assert Hex(n, width)[..width - 1] == Hex(n / 16, width - 1);
    }
  }

  /** An identifier is printed as its lower-case hexadecimal digits in groups of 8, 4, 4, 4 and 12. */
  lemma UuidWritten(id: Uuid)
    ensures var t := UuidText(id);
            && |t| == 36 && t[8] == '-' && t[13] == '-' && t[18] == '-' && t[23] == '-'
            && HexNumber(t[..8] + t[9..13] + t[14..18] + t[19..23] + t[24..]) == id
            && (forall i :: 0 <= i < 36 && i !in {8, 13, 18, 23} ==> '0' <= t[i] <= '9' || 'a' <= t[i] <= 'f')
  {
    var h := Hex(id, 32);
    HexNumberOf(id, 32);
    assert forall i :: 0 <= i < 32 ==> h[i] in h;
    DashedWritten(h, UuidText(id));
  }

  lemma DashedWritten(h: string, t: string)
    requires |h| == 32 && t == h[..8] + "-" + h[8..12] + "-" + h[12..16] + "-" + h[16..20] + "-" + h[20..]
    ensures |t| == 36 && t[8] == '-' && t[13] == '-' && t[18] == '-' && t[23] == '-'
    ensures t[..8] + t[9..13] + t[14..18] + t[19..23] + t[24..] == h
    ensures forall i :: 0 <= i < 36 && i !in {8, 13, 18, 23} ==> t[i] in h
  {
    assert t[..8] == h[..8] && t[9..13] == h[8..12] && t[14..18] == h[12..16];
    assert t[19..23] == h[16..20] && t[24..] == h[20..];
    assert h[..8] + h[8..12] + h[12..16] + h[16..20] + h[20..] == h;
    forall i | 0 <= i < 36 && i !in {8, 13, 18, 23} ensures t[i] in h {
      var k := if i < 8 then i else if i < 13 then i - 1 else if i < 18 then i - 2 else if i < 23 then i - 3 else i - 4;
      assert t[i] == h[k];
    }
  }

  /** Products with different ids never share a generated barcode. */
  lemma BarcodesDiffer(name: string, price: string, a: Uuid, name': string, price': string, b: Uuid)
    requires a != b
    ensures Build(name, price, a) != Build(name', price', b)
  {
    RoundTrip(name, price, a);
    RoundTrip(name', price', b);
    if UuidText(a) == UuidText(b) {
      UuidTextInjective(a, b);
    }
  }

  // Length.

  /** Text that JSON prints unchanged, as every printed price is. */
  predicate Plain(s: string) {
    forall i :: 0 <= i < |s| ==> ' ' <= s[i] < '\U{80}' && s[i] != '"' && s[i] != '\\'
  }

  lemma {:induction false} EscapePlain(s: string)
    requires Plain(s)
    ensures Json.Escape(s) == s
  {
    if s != "" {
      EscapePlain(s[1..]);
      assert s == [s[0]] + s[1..];
    }
  }

  /** The number of bytes that the shortened name takes, escaped. */
  function NameBytes(name: string): nat {
    |Encode(Json.Escape(Shortened(name)))|
  }

  function PayloadBytes(name: string, price: string): nat {
    58 + NameBytes(name) + |price|
  }

  lemma {:induction false} HexPlain(n: nat, width: nat)
    ensures Plain(Hex(n, width))
  {
    if width > 0 {
      HexPlain(n / 16, width - 1);
    }
  }

  lemma UuidPlain(id: Uuid)
    ensures Plain(UuidText(id))
  {
    HexPlain(id, 32);
  }

  /** The number of UTF-8 bytes of a text. */
  function Size(s: string): nat {
    |Encode(s)|
  }

  lemma SizeAppend(a: string, b: string)
    ensures Size(a + b) == Size(a) + Size(b)
  {
    EncodeAppend(a, b);
  }

  lemma QuoteSize(s: string)
    ensures Size(Json.Quote(s)) == 2 + Size(Json.Escape(s))
  {
    SizeAppend("\"" + Json.Escape(s), "\"");
    SizeAppend("\"", Json.Escape(s));
    AsciiLength("\"");
  }

  lemma MemberSize(key: string, text: string)
    requires Plain(key) && |key| == 1
    ensures Size(Json.PrintMember(key, text)) == 6 + Size(Json.Escape(text))
  {
    SizeAppend(Json.Quote(key) + ":", Json.Quote(text));
    SizeAppend(Json.Quote(key), ":");
    QuoteSize(key);
    QuoteSize(text);
    EscapePlain(key);
    AsciiLength(key);
    AsciiLength(":");
  }

  lemma MembersSize(a: (string, string), b: (string, string), c: (string, string))
    ensures Size(Json.PrintObject([a, b, c]))
            == 4 + Size(Json.PrintMember(a.0, a.1)) + Size(Json.PrintMember(b.0, b.1)) + Size(Json.PrintMember(c.0, c.1))
  {
    var pa, pb, pc := Json.PrintMember(a.0, a.1), Json.PrintMember(b.0, b.1), Json.PrintMember(c.0, c.1);
    assert [a, b, c][1..] == [b, c];
    assert [b, c][1..] == [c];
    assert Json.PrintMembers([c]) == pc;
    assert Json.PrintMembers([b, c]) == pb + "," + pc;
    assert Json.PrintMembers([a, b, c]) == pa + "," + (pb + "," + pc);
    SizeAppend("{" + (pa + "," + (pb + "," + pc)), "}");
    SizeAppend("{", pa + "," + (pb + "," + pc));
    SizeAppend(pa + ",", pb + "," + pc);
    SizeAppend(pa, ",");
    SizeAppend(pb + ",", pc);
    SizeAppend(pb, ",");
    AsciiLength(",");
    AsciiLength("{");
    AsciiLength("}");
  }

  lemma PayloadSize(name: string, price: string, id: Uuid)
    requires Plain(price)
    ensures Size(Payload(name, price, UuidText(id))) == PayloadBytes(name, price)
  {
    MembersSize(("n", Shortened(name)), ("p", price), ("i", UuidText(id)));
    MemberSize("n", Shortened(name));
    MemberSize("p", price);
    MemberSize("i", UuidText(id));
    UuidPlain(id);
    UuidTextDigits(id);
    EscapePlain(price);
    EscapePlain(UuidText(id));
    AsciiLength(price);
    AsciiLength(UuidText(id));
  }

  /** A generated barcode has 2 + ceil(4m/3) characters for m payload bytes, its unpadded body is
      never one more than a multiple of four, and it fits the 128-character column exactly when
      m is at most 94. */
  lemma Length(name: string, price: string, id: Uuid)
    requires Plain(price)
    ensures var m := PayloadBytes(name, price);
            var body := |Build(name, price, id)| - 2;
            && body == (4 * m + 2) / 3
            && body % 4 != 1
            && (|Build(name, price, id)| <= 128 <==> m <= 94)
  {
    PayloadSize(name, price, id);
    Base64.EncodeLength(Encode(Payload(name, price, UuidText(id))));
  }

  /** n grinning faces, four UTF-8 bytes each. */
  function Faces(n: nat): string {
    if n == 0 then "" else ['\U{1F600}'] + Faces(n - 1)
  }

  lemma {:induction false} FacesSize(n: nat)
    ensures |Faces(n)| == n && Size(Json.Escape(Faces(n))) == 4 * n
  {
    if n > 0 {
      FacesSize(n - 1);
      assert Faces(n)[1..] == Faces(n - 1);
      SizeAppend(['\U{1F600}'], Json.Escape(Faces(n - 1)));
      assert ['\U{1F600}'][1..] == "";
    }
  }

  /** A 24-character name can overflow the column: the documented bound of 120 is no bound. */
  lemma WideNameOverflows(id: Uuid)
    ensures |Build(Faces(24), "1.00", id)| > 128
  {
    FacesSize(24);
    Length(Faces(24), "1.00", id);
  }
}
