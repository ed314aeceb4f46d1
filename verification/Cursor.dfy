// The opaque page cursor: base64url of "<created_at in ISO format>|<id>".
// Stored timestamps are aware UTC datetimes with microseconds.
module Cursor {
  import opened Basics
  import opened Utf8
  import opened Tables
  import Base64
  import Barcode

  datatype Stamp = Stamp(year: nat, month: nat, day: nat, hour: nat, minute: nat, second: nat, micro: nat)

  predicate Leap(y: nat) {
    y % 4 == 0 && (y % 100 != 0 || y % 400 == 0)
  }

  function DaysIn(year: nat, month: nat): nat {
    if month == 2 then (if Leap(year) then 29 else 28)
    else if month in {4, 6, 9, 11} then 30 else 31
  }

  /** The timestamps that exist. */
  predicate Real(t: Stamp) {
    && 1 <= t.year <= 9999 && 1 <= t.month <= 12 && 1 <= t.day <= DaysIn(t.year, t.month)
    && t.hour < 24 && t.minute < 60 && t.second < 60 && t.micro < 1_000_000
  }

  function Pow10(n: nat): nat {
    if n == 0 then 1 else 10 * Pow10(n - 1)
  }

  function Digits(n: nat, width: nat): (r: string)
    ensures |r| == width
  {
    if width == 0 then "" else Digits(n / 10, width - 1) + ['0' + (n % 10) as char]
  }

  function Number(s: string): Option<nat> {
    if s == "" then Some(0)
    else
      var head, last := Number(s[..|s| - 1]), s[|s| - 1];
      if head.Some? && '0' <= last <= '9' then Some(10 * head.value + (last as int - '0' as int)) else None
  }

  function DateText(t: Stamp): (r: string)
    ensures |r| == 10
  {
    Digits(t.year, 4) + "-" + Digits(t.month, 2) + "-" + Digits(t.day, 2)
  }

  function TimeText(t: Stamp): (r: string)
    ensures |r| == 8
  {
    Digits(t.hour, 2) + ":" + Digits(t.minute, 2) + ":" + Digits(t.second, 2)
  }

  /** isoformat() leaves out a zero fraction. */
  function IsoText(t: Stamp): string {
    DateText(t) + "T" + TimeText(t) + (if t.micro == 0 then "" else "." + Digits(t.micro, 6)) + "+00:00"
  }

  function Three(s: string, width: nat, mark: char): Option<(nat, nat, nat)>
    requires |s| == width + 6
  {
    var a, b, c := Number(s[..width]), Number(s[width + 1..width + 3]), Number(s[width + 4..]);
    if a.Some? && b.Some? && c.Some? && s[width] == mark && s[width + 3] == mark
    then Some((a.value, b.value, c.value)) else None
  }

  /** The reader for the form that is printed. */
  function ParseIso(s: string): Option<Stamp> {
    if |s| != 25 && |s| != 32 then None
    else if s[10] != 'T' || s[|s| - 6..] != "+00:00" || (|s| == 32 && s[19] != '.') then None
    else
      var date, time := Three(s[..10], 4, '-'), Three(s[11..19], 2, ':');
      var micro := if |s| == 32 then Number(s[20..26]) else Some(0);
      if date.None? || time.None? || micro.None? then None
      else
        var t := Stamp(date.value.0, date.value.1, date.value.2, time.value.0, time.value.1, time.value.2,
                       micro.value);
        if Real(t) then Some(t) else None
  }

  /** rsplit("|", 1). */
  function SplitLast(s: string): Option<(string, string)> {
    if s == "" then None
    else
      var n := |s| - 1;
      if s[n] == '|' then Some((s[..n], ""))
      else
        match SplitLast(s[..n])
        case None => None
        case Some((a, b)) => Some((a, b + [s[n]]))
  }

  function EncodeCursor(t: Stamp, id: Barcode.Uuid): string {
    Base64.EncodePadded(Encode(IsoText(t) + "|" + Barcode.UuidText(id)))
  }

  datatype Position = Position(createdAt: Stamp, pk: string)

  /** No cursor for an absent or empty parameter; an error for one that cannot be read. */
  function DecodeCursor(raw: Option<string>): Result<Option<Position>, Error> {
    if raw.None? || raw.value == "" then Ok(None)
    else
      match Base64.Decode(raw.value)
      case None => Err(InvalidRequest)
      case Some(bytes) =>
        match Decode(bytes)
        case None => Err(InvalidRequest)
        case Some(text) =>
          match SplitLast(text)
          case None => Err(InvalidRequest)
          case Some((iso, pk)) =>
            match ParseIso(iso)
            case None => Err(InvalidRequest)
            case Some(t) => Ok(Some(Position(t, pk)))
  }

  lemma {:induction false} NumberOfDigits(n: nat, width: nat)
    requires n < Pow10(width)
    ensures Number(Digits(n, width)) == Some(n)
  {
    if width > 0 {
      NumberOfDigits(n / 10, width - 1);
      assert Digits(n, width)[..width - 1] == Digits(n / 10, width - 1);
    }
  }

  lemma Powers()
    ensures Pow10(2) == 100 && Pow10(4) == 10_000 && Pow10(6) == 1_000_000
  {
    assert Pow10(1) == 10 && Pow10(3) == 1000 && Pow10(5) == 100_000;
  }

  lemma ThreeOfText(a: nat, b: nat, c: nat, width: nat, mark: char)
    requires a < Pow10(width) && b < 100 && c < 100
    ensures Three(Digits(a, width) + [mark] + Digits(b, 2) + [mark] + Digits(c, 2), width, mark) == Some((a, b, c))
  {
    Powers();
    NumberOfDigits(a, width);
    NumberOfDigits(b, 2);
    NumberOfDigits(c, 2);
    var s := Digits(a, width) + [mark] + Digits(b, 2) + [mark] + Digits(c, 2);
    assert s[..width] == Digits(a, width);
    assert s[width + 1..width + 3] == Digits(b, 2);
    assert s[width + 4..] == Digits(c, 2);
  }

  lemma DateOfText(t: Stamp)
    requires Real(t)
    ensures Three(DateText(t), 4, '-') == Some((t.year, t.month, t.day))
    ensures Three(TimeText(t), 2, ':') == Some((t.hour, t.minute, t.second))
  {
    Powers();
    ThreeOfText(t.year, t.month, t.day, 4, '-');
    ThreeOfText(t.hour, t.minute, t.second, 2, ':');
  }

  lemma IsoParts(t: Stamp)
    ensures var s := IsoText(t);
            && |s| == (if t.micro == 0 then 25 else 32)
            && s[..10] == DateText(t) && s[10] == 'T' && s[11..19] == TimeText(t)
            && s[|s| - 6..] == "+00:00"
            && (t.micro != 0 ==> s[19] == '.' && s[20..26] == Digits(t.micro, 6))
  {
    var s := IsoText(t);
    var front := DateText(t) + "T" + TimeText(t);
    assert front[..10] == DateText(t) && front[10] == 'T' && front[11..19] == TimeText(t);
    if t.micro == 0 {
      assert s == front + "+00:00";
    } else {
      assert s == front + ("." + Digits(t.micro, 6) + "+00:00");
      assert ("." + Digits(t.micro, 6) + "+00:00")[1..7] == Digits(t.micro, 6);
    }
  }

  /** Reading a printed timestamp gives it back. */
  lemma IsoRoundTrip(t: Stamp)
    requires Real(t)
    ensures ParseIso(IsoText(t)) == Some(t)
  {
    IsoParts(t);
    DateOfText(t);
    Powers();
    if t.micro != 0 {
      NumberOfDigits(t.micro, 6);
    }
  }

  lemma {:induction false} SplitAtLast(a: string, b: string)
    requires '|' !in b
    ensures SplitLast(a + "|" + b) == Some((a, b))
  {
    var s := a + "|" + b;
    if b == "" {
      assert s[..|s| - 1] == a;
    } else {
      var n := |b| - 1;
      assert b[n] in b;
      assert s[..|s| - 1] == a + "|" + b[..n];
      SplitAtLast(a, b[..n]);
      assert b == b[..n] + [b[n]];
    }
  }

  lemma UuidHasNoBar(id: Barcode.Uuid)
    ensures '|' !in Barcode.UuidText(id)
  {
    var h := Barcode.Hex(id, 32);
    Barcode.HexIsHex(id, 32);
    assert '|' !in h;
  }

  /** Decoding a cursor gives back the timestamp and the key of the row it was made for. */
  lemma CursorRoundTrip(t: Stamp, id: Barcode.Uuid)
    requires Real(t)
    ensures DecodeCursor(Some(EncodeCursor(t, id))) == Ok(Some(Position(t, Barcode.UuidText(id))))
  {
    var text := IsoText(t) + "|" + Barcode.UuidText(id);
    Base64.RoundTrip(Encode(text));
    Utf8.RoundTrip(text);
    UuidHasNoBar(id);
    SplitAtLast(IsoText(t), Barcode.UuidText(id));
    IsoRoundTrip(t);
    CursorNotEmpty(text);
  }

  /** The cursor is padded base64url of the ISO timestamp, a bar, and the identifier. */
  lemma CursorWritten(t: Stamp, id: Barcode.Uuid)
    ensures Base64.Decode(EncodeCursor(t, id)) == Some(Encode(IsoText(t) + "|" + Barcode.UuidText(id)))
    ensures |EncodeCursor(t, id)| % 4 == 0
  {
    var bytes := Encode(IsoText(t) + "|" + Barcode.UuidText(id));
    Base64.RoundTrip(bytes);
    Base64.PaddingWritten(|Base64.Encode(bytes)|);
  }

  function D2(s: string, i: nat): int
    requires i + 2 <= |s|
  {
    10 * (s[i] as int - 48) + (s[i + 1] as int - 48)
  }

  lemma TwoDigits(n: nat)
    requires n < 100
    ensures D2(Digits(n, 2), 0) == n
  {
  }

  lemma FourDigits(n: nat)
    requires n < 10_000
    ensures var s := Digits(n, 4); 100 * D2(s, 0) + D2(s, 2) == n
  {
    assert Digits(n, 4)[..2] == Digits(n / 100, 2);
  }

  lemma SixDigits(n: nat)
    requires n < 1_000_000
    ensures var s := Digits(n, 6); 10_000 * D2(s, 0) + 100 * D2(s, 2) + D2(s, 4) == n
  {
    FourDigits(n / 100);
    assert Digits(n, 6)[..4] == Digits(n / 100, 4);
  }

  /** The ISO form, position by position: year, month, day, hour, minute, second, the microseconds
      unless there are none, and the offset of UTC. */
  lemma IsoWritten(t: Stamp)
    requires Real(t)
    ensures var s := IsoText(t);
            && |s| == (if t.micro == 0 then 25 else 32)
            && 100 * D2(s, 0) + D2(s, 2) == t.year && D2(s, 5) == t.month && D2(s, 8) == t.day
            && D2(s, 11) == t.hour && D2(s, 14) == t.minute && D2(s, 17) == t.second
            && s[4] == '-' && s[7] == '-' && s[10] == 'T' && s[13] == ':' && s[16] == ':'
            && s[|s| - 6..] == "+00:00"
            && (t.micro != 0 ==>
                  s[19] == '.' && 10_000 * D2(s, 20) + 100 * D2(s, 22) + D2(s, 24) == t.micro)
  {
    IsoParts(t);
    DateWritten(t);
    TimeWritten(t);
    var s := IsoText(t);
    SameDigits(s[..10], s, 0);
    SameDigits(s[11..19], s, 11);
    if t.micro != 0 {
      SixDigits(t.micro);
      SameDigits(s[20..26], s, 20);
    }
  }

  lemma SameDigits(part: string, s: string, k: nat)
    requires k + |part| <= |s| && part == s[k..k + |part|]
    ensures forall i :: 0 <= i < |part| ==> part[i] == s[k + i]
    ensures forall i :: 0 <= i && i + 2 <= |part| ==> D2(part, i) == D2(s, k + i)
  {
  }

  lemma DateWritten(t: Stamp)
    requires Real(t)
    ensures var s := DateText(t);
            100 * D2(s, 0) + D2(s, 2) == t.year && s[4] == '-' && D2(s, 5) == t.month && s[7] == '-' && D2(s, 8) == t.day
  {
    FourDigits(t.year);
    TwoDigits(t.month);
    TwoDigits(t.day);
    var s := DateText(t);
    assert s[..4] == Digits(t.year, 4) && s[5..7] == Digits(t.month, 2) && s[8..10] == Digits(t.day, 2);
    SameDigits(Digits(t.year, 4), s, 0);
    SameDigits(Digits(t.month, 2), s, 5);
    SameDigits(Digits(t.day, 2), s, 8);
  }

  lemma TimeWritten(t: Stamp)
    requires Real(t)
    ensures var s := TimeText(t);
            D2(s, 0) == t.hour && s[2] == ':' && D2(s, 3) == t.minute && s[5] == ':' && D2(s, 6) == t.second
  {
    TwoDigits(t.hour);
    TwoDigits(t.minute);
    TwoDigits(t.second);
    var s := TimeText(t);
    assert s[..2] == Digits(t.hour, 2) && s[3..5] == Digits(t.minute, 2) && s[6..8] == Digits(t.second, 2);
    SameDigits(Digits(t.hour, 2), s, 0);
    SameDigits(Digits(t.minute, 2), s, 3);
    SameDigits(Digits(t.second, 2), s, 6);
  }

  lemma CursorNotEmpty(text: string)
    requires text != ""
    ensures Base64.EncodePadded(Encode(text)) != ""
  {
    Base64.EncodeLength(Encode(text));
  }
}
