// JSON strings (section 7 of RFC 8259) as the Python standard library prints
// and reads them, and flat objects whose members are all strings.
module Json {
  import opened Basics

  function HexDigit(n: nat): char
    requires n < 16
  {
    if n < 10 then '0' + n as char else 'a' + (n - 10) as char
  }

  function HexValue(c: char): Option<nat> {
    if '0' <= c <= '9' then Some(c as int - '0' as int)
    else if 'a' <= c <= 'f' then Some(c as int - 'a' as int + 10)
    else if 'A' <= c <= 'F' then Some(c as int - 'A' as int + 10)
    else None
  }

  /** One character inside a string, with non-ASCII characters left as they are. */
  function EscapeChar(c: char): string {
    if c == '"' then "\\\""
    else if c == '\\' then "\\\\"
    else if c == '\n' then "\\n"
    else if c == '\r' then "\\r"
    else if c == '\t' then "\\t"
    else if c == '\U{08}' then "\\b"
    else if c == '\U{0c}' then "\\f"
    else if c < ' ' then "\\u00" + [HexDigit(c as int / 16), HexDigit(c as int % 16)]
    else [c]
  }

  function Escape(s: string): string {
    if s == "" then "" else EscapeChar(s[0]) + Escape(s[1..])
  }

  function Quote(s: string): string {
    "\"" + Escape(s) + "\""
  }

  /** The character named by a one-letter escape. */
  function Unescape(c: char): Option<char> {
    if c == '"' || c == '\\' || c == '/' then Some(c)
    else if c == 'n' then Some('\n')
    else if c == 'r' then Some('\r')
    else if c == 't' then Some('\t')
    else if c == 'b' then Some('\U{08}')
    else if c == 'f' then Some('\U{0c}')
    else None
  }

  function Hex4(s: string): Option<nat>
    requires |s| >= 4
  {
    var a, b, c, d := HexValue(s[0]), HexValue(s[1]), HexValue(s[2]), HexValue(s[3]);
    if a.Some? && b.Some? && c.Some? && d.Some?
    then Some(a.value * 0x1000 + b.value * 0x100 + c.value * 0x10 + d.value) else None
  }

  /** The next character of a string body and the number of characters it takes; None where the
      body is malformed (an escape of a surrogate is not modelled and counts as malformed). */
  function ScanChar(s: string): (r: Option<(char, nat)>)
    requires s != "" && s[0] != '"'
    ensures r.Some? ==> 1 <= r.value.1 <= |s|
  {
    if s[0] == '\\' then
      if |s| < 2 then None
      else if s[1] == 'u' then
        if |s| < 6 then None
        else
          var n := Hex4(s[2..6]);
          if n.Some? && (n.value < 0xD800 || 0xE000 <= n.value < 0x1_0000) then Some((n.value as char, 6)) else None
      else
        var c := Unescape(s[1]);
        if c.Some? then Some((c.value, 2)) else None
    else if s[0] < ' ' then None
    else Some((s[0], 1))
  }

  /** Read up to the closing quote: the text and what follows the quote. */
  function ScanString(s: string): (r: Option<(string, string)>)
    ensures r.Some? ==> |r.value.1| < |s|
    decreases |s|
  {
    if s == "" then None
    else if s[0] == '"' then Some(("", s[1..]))
    else
      match ScanChar(s)
      case None => None
      case Some((c, n)) =>
        match ScanString(s[n..])
        case None => None
        case Some((text, rest)) => Some(([c] + text, rest))
  }

  function SkipSpace(s: string): (r: string)
    ensures |r| <= |s|
  {
    if s != "" && s[0] in " \t\n\r" then SkipSpace(s[1..]) else s
  }

  /** A token that starts with the given character, after white space. */
  function Expect(s: string, c: char): (r: Option<string>)
    ensures r.Some? ==> |r.value| < |s|
  {
    var t := SkipSpace(s);
    if t != "" && t[0] == c then Some(t[1..]) else None
  }

  function ParseString(s: string): (r: Option<(string, string)>)
    ensures r.Some? ==> |r.value.1| < |s|
  {
    match Expect(s, '"')
    case None => None
    case Some(body) => ScanString(body)
  }

  type Members = seq<(string, string)>

  /** The members up to and including the closing brace, and what follows it. */
  function ParseMembers(s: string): Option<(Members, string)>
    decreases |s|
  {
    match ParseString(s)
    case None => None
    case Some((key, afterKey)) =>
      match Expect(afterKey, ':')
      case None => None
      case Some(value) =>
        match ParseString(value)
        case None => None
        case Some((text, tail)) =>
          match Expect(tail, '}')
          case Some(rest) => Some(([(key, text)], rest))
          case None =>
            match Expect(tail, ',')
            case None => None
            case Some(more) =>
              match ParseMembers(more)
              case None => None
              case Some((members, rest)) => Some(([(key, text)] + members, rest))
  }

  /** The members of an object that makes up the whole text. */
  function ParseObject(s: string): Option<Members> {
    match Expect(s, '{')
    case None => None
    case Some(body) =>
      match Expect(body, '}')
      case Some(rest) => if SkipSpace(rest) == "" then Some([]) else None
      case None =>
        match ParseMembers(body)
        case None => None
        case Some((members, rest)) => if SkipSpace(rest) == "" then Some(members) else None
  }

  /** The last member with the key wins. */
  function Lookup(members: Members, key: string): Option<string> {
    if members == [] then None
    else
      var n := |members| - 1;
      if members[n].0 == key then Some(members[n].1) else Lookup(members[..n], key)
  }

  /** Section 7 of RFC 8259: quotation mark, reverse solidus and control characters are escaped, five
      of them by a letter and the others by their number; nothing else is. */
  lemma EscapeWritten(c: char)
    ensures var e := EscapeChar(c);
            && (c == '"' ==> e == "\\\"") && (c == '\\' ==> e == "\\\\")
            && (c == '\U{08}' ==> e == "\\b") && (c == '\U{09}' ==> e == "\\t") && (c == '\U{0a}' ==> e == "\\n")
            && (c == '\U{0c}' ==> e == "\\f") && (c == '\U{0d}' ==> e == "\\r")
            && (c >= '\U{20}' && c != '"' && c != '\\' ==> e == [c])
            && (c < '\U{20}' && c !in "\U{08}\t\n\U{0c}\r" ==>
                  && |e| == 6 && e[..5] == (if c < '\U{10}' then "\\u000" else "\\u001")
                  && e[5] == "0123456789abcdef"[c as int % 16])
  {
  }

  lemma EscapeNotQuote(c: char)
    ensures EscapeChar(c) != "" && EscapeChar(c)[0] != '"'
  {
  }

  lemma HexDigitValue(n: nat)
    requires n < 16
    ensures HexValue(HexDigit(n)) == Some(n)
  {
  }

  lemma ScanControl(c: char, rest: string)
    requires c < ' '
    ensures ScanChar("\\u00" + [HexDigit(c as int / 16), HexDigit(c as int % 16)] + rest) == Some((c, 6))
  {
    var n := c as int;
    var s := "\\u00" + [HexDigit(n / 16), HexDigit(n % 16)] + rest;
    HexDigitValue(n / 16);
    HexDigitValue(n % 16);
    assert s[2..6] == ['0', '0', HexDigit(n / 16), HexDigit(n % 16)];
    assert Hex4(s[2..6]) == Some(n);
  }

  /** Scanning an escaped character gives it back. */
  lemma ScanEscaped(c: char, rest: string)
    ensures EscapeChar(c) != "" && EscapeChar(c)[0] != '"'
    ensures ScanChar(EscapeChar(c) + rest) == Some((c, |EscapeChar(c)|))
  {
    EscapeNotQuote(c);
    var e := EscapeChar(c);
    if |e| == 6 {
      ScanControl(c, rest);
    } else if |e| == 2 {
      assert (e + rest)[1] == e[1];
      assert Unescape(e[1]) == Some(c);
    } else {
      assert (e + rest)[0] == c;
    }
  }

  /** Scanning an escaped text followed by a quote gives the text back. */
  lemma {:induction false} ScanQuoted(s: string, rest: string)
    ensures ScanString(Escape(s) + "\"" + rest) == Some((s, rest))
  {
    if s == "" {
      assert (Escape(s) + "\"" + rest)[1..] == rest;
    } else {
      var head := EscapeChar(s[0]);
      var tail := Escape(s[1..]) + "\"" + rest;
      assert Escape(s) + "\"" + rest == head + tail;
      ScanQuoted(s[1..], rest);
      ScanNext(s[0], tail, s[1..], rest);
      assert s == [s[0]] + s[1..];
    }
  }

  lemma ScanNext(c: char, tail: string, s: string, rest: string)
    requires ScanString(tail) == Some((s, rest))
    ensures ScanString(EscapeChar(c) + tail) == Some(([c] + s, rest))
  {
    ScanEscaped(c, tail);
    var head := EscapeChar(c);
    assert (head + tail)[|head|..] == tail;
  }

  lemma ExpectAt(c: char, rest: string)
    requires c !in " \t\n\r"
    ensures Expect([c] + rest, c) == Some(rest)
  {
    assert ([c] + rest)[1..] == rest;
  }

  lemma ExpectOther(c: char, d: char, rest: string)
    requires c !in " \t\n\r" && c != d
    ensures Expect([c] + rest, d) == None
  {
  }

  lemma ParseQuoted(s: string, rest: string)
    ensures ParseString(Quote(s) + rest) == Some((s, rest))
  {
    var body := Escape(s) + "\"" + rest;
    assert Quote(s) + rest == ['"'] + body;
    ExpectAt('"', body);
    ScanQuoted(s, rest);
  }

  function PrintMember(key: string, text: string): string {
    Quote(key) + ":" + Quote(text)
  }

  lemma ParseMember(key: string, text: string, rest: string)
    ensures ParseString(PrintMember(key, text) + rest) == Some((key, ":" + Quote(text) + rest))
    ensures Expect(":" + Quote(text) + rest, ':') == Some(Quote(text) + rest)
    ensures ParseString(Quote(text) + rest) == Some((text, rest))
  {
    assert PrintMember(key, text) + rest == Quote(key) + (":" + Quote(text) + rest);
    ParseQuoted(key, ":" + Quote(text) + rest);
    assert ":" + Quote(text) + rest == [':'] + (Quote(text) + rest);
    ExpectAt(':', Quote(text) + rest);
    ParseQuoted(text, rest);
  }

  function PrintMembers(members: Members): string
    requires members != []
  {
    if |members| == 1 then PrintMember(members[0].0, members[0].1)
    else PrintMember(members[0].0, members[0].1) + "," + PrintMembers(members[1..])
  }

  /** An object of string members, without white space. */
  function PrintObject(members: Members): string
    requires members != []
  {
    "{" + PrintMembers(members) + "}"
  }

  lemma LastMember(key: string, text: string, rest: string)
    ensures ParseMembers(PrintMember(key, text) + ("}" + rest)) == Some(([(key, text)], rest))
  {
    ParseMember(key, text, "}" + rest);
    ExpectAt('}', rest);
    assert "}" + rest == ['}'] + rest;
  }

  lemma NextMember(key: string, text: string, more: string, members: Members, rest: string)
    requires ParseMembers(more) == Some((members, rest))
    ensures ParseMembers(PrintMember(key, text) + ("," + more)) == Some(([(key, text)] + members, rest))
  {
    ParseMember(key, text, "," + more);
    ExpectOther(',', '}', more);
    ExpectAt(',', more);
    assert "," + more == [','] + more;
  }

  lemma Regroup(a: string, b: string, c: string)
    ensures a + "," + b + c == a + ("," + (b + c))
  {
  }

  lemma {:induction false} ParsePrintedMembers(members: Members, rest: string)
    requires members != []
    ensures ParseMembers(PrintMembers(members) + ("}" + rest)) == Some((members, rest))
  {
    var (key, text) := members[0];
    if |members| == 1 {
      LastMember(key, text, rest);
      assert members == [(key, text)];
    } else {
      var more := PrintMembers(members[1..]) + ("}" + rest);
      ParsePrintedMembers(members[1..], rest);
      NextMember(key, text, more, members[1..], rest);
      Regroup(PrintMember(key, text), PrintMembers(members[1..]), "}" + rest);
      assert members == [(key, text)] + members[1..];
    }
  }

  /** Reading a printed object gives its members back, whatever the strings hold. */
  lemma RoundTrip(members: Members)
    requires members != []
    ensures ParseObject(PrintObject(members)) == Some(members)
  {
    var body := PrintMembers(members) + "}";
    assert PrintObject(members) == ['{'] + body;
    ExpectAt('{', body);
    MembersStart(members);
    assert body == ['"'] + body[1..];
    ExpectOther('"', '}', body[1..]);
    ParsePrintedMembers(members, "");
    assert body == PrintMembers(members) + ("}" + "");
  }

  lemma MembersStart(members: Members)
    requires members != []
    ensures PrintMembers(members) != "" && PrintMembers(members)[0] == '"'
  {
    assert PrintMember(members[0].0, members[0].1)[0] == '"';
  }
}
