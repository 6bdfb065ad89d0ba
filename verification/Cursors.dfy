/** The opaque pagination cursors of app/ids.py. */
module Cursors {
  import opened Basics
  import opened Clock
  import opened Numerals
  import opened Uuids
  import Base64Url

  // ---- `datetime.isoformat()` and `datetime.fromisoformat()` for UTC

  function DateText(t: Timestamp): (s: string)
    ensures |s| == 19
  {
    Digits(t.year, 10, 4) + "-" + Digits(t.month, 10, 2) + "-" + Digits(t.day, 10, 2) + "T"
    + Digits(t.hour, 10, 2) + ":" + Digits(t.minute, 10, 2) + ":" + Digits(t.second, 10, 2)
  }

  /** The fraction is left out when it is zero. */
  function IsoFormat(t: Timestamp): string {
    DateText(t) + (if t.micro == 0 then "" else "." + Digits(t.micro, 10, 6)) + "+00:00"
  }

  function ParseIso(s: string): Option<Timestamp> {
    if |s| == 25 && s[19..] == "+00:00" then ParseDate(s[..19], 0)
    else if |s| == 32 && s[19] == '.' && s[26..] == "+00:00" then
      match ParseDigits(s[20..26], 10)
      case None => None
      case Some(micro) => ParseDate(s[..19], micro)
    else None
  }

  function ParseDate(s: string, micro: nat): Option<Timestamp>
    requires |s| == 19
  {
    if s[4] != '-' || s[7] != '-' || s[10] != 'T' || s[13] != ':' || s[16] != ':' then None
    else
      match (ParseDigits(s[..4], 10), ParseDigits(s[5..7], 10), ParseDigits(s[8..10], 10),
             ParseDigits(s[11..13], 10), ParseDigits(s[14..16], 10), ParseDigits(s[17..], 10))
      case (Some(year), Some(month), Some(day), Some(hour), Some(minute), Some(second)) =>
        var t := DateTime(year, month, day, hour, minute, second, micro);
        if ValidDateTime(t) then Some(t) else None
      case _ => None
  }

  lemma SmallPowers()
    ensures Power(10, 2) == 100
    ensures Power(10, 4) == 10_000
    ensures Power(10, 6) == 1_000_000
  {
  }

  lemma DateTextParses(t: Timestamp)
    ensures ParseDate(DateText(t), t.micro) == Some(t)
  {
    var s := DateText(t);
    SmallPowers();
    assert s[..4] == Digits(t.year, 10, 4);
    assert s[5..7] == Digits(t.month, 10, 2);
    assert s[8..10] == Digits(t.day, 10, 2);
    assert s[11..13] == Digits(t.hour, 10, 2);
    assert s[14..16] == Digits(t.minute, 10, 2);
    assert s[17..] == Digits(t.second, 10, 2);
    DigitsParse(t.year, 10, 4);
    DigitsParse(t.month, 10, 2);
    DigitsParse(t.day, 10, 2);
    DigitsParse(t.hour, 10, 2);
    DigitsParse(t.minute, 10, 2);
    DigitsParse(t.second, 10, 2);
  }

  lemma IsoFormatParses(t: Timestamp)
    ensures ParseIso(IsoFormat(t)) == Some(t)
  {
    var s := IsoFormat(t);
    DateTextParses(t);
    assert s[..19] == DateText(t);
    if t.micro == 0 {
      assert s[19..] == "+00:00";
    } else {
      SmallPowers();
      assert s[20..26] == Digits(t.micro, 10, 6);
      assert s[26..] == "+00:00";
      DigitsParse(t.micro, 10, 6);
    }
  }

  // ---- text and bytes: UTF-8 restricted to the ASCII characters a cursor holds

  predicate IsAscii(s: string) {
    forall i | 0 <= i < |s| :: s[i] < 128 as char
  }

  lemma AsciiCharacters(s: string)
    requires forall c <- s :: c < 128 as char
    ensures IsAscii(s)
  {
    assert forall i | 0 <= i < |s| :: s[i] in s;
  }

  function ToBytes(s: string): (bytes: seq<Base64Url.Byte>)
    requires IsAscii(s)
    ensures |bytes| == |s|
  {
    if s == "" then [] else [s[0] as Base64Url.Byte] + ToBytes(s[1..])
  }

  function FromBytes(bytes: seq<Base64Url.Byte>): Option<string> {
    if bytes == [] then Some("")
    else if bytes[0] >= 128 then None
    else match FromBytes(bytes[1..])
      case None => None
      case Some(s) => Some([bytes[0] as char] + s)
  }

  lemma {:induction false} BytesRoundTrip(s: string)
    requires IsAscii(s)
    ensures FromBytes(ToBytes(s)) == Some(s)
  {
    if s != "" {
      BytesRoundTrip(s[1..]);
      assert [s[0]] + s[1..] == s;
    }
  }

  lemma DigitIsAscii(d: nat)
    requires d < 16
    ensures DigitChar(d) < 128 as char && DigitChar(d) != '|'
  {
  }

  lemma {:induction false} DigitsAreAscii(n: nat, base: nat, width: nat)
    requires 2 <= base <= 16
    ensures forall c <- Digits(n, base, width) :: c < 128 as char && c != '|'
    decreases width
  {
    hide DigitChar, Digits;
    if width == 0 {
      assert Digits(n, base, width) == "";
    } else {
      var rest, digit := DigitsSplit(n, base, width);
      DigitsAreAscii(rest, base, width - 1);
      DigitIsAscii(digit);
      var front := Digits(rest, base, width - 1);
      assert forall c <- front + [DigitChar(digit)] :: c in front || c == DigitChar(digit);
    }
  }

  lemma IsoFormatIsAscii(t: Timestamp)
    ensures forall c <- IsoFormat(t) :: c < 128 as char && c != '|'
    ensures |IsoFormat(t)| == 25 || |IsoFormat(t)| == 32
  {
    DigitsAreAscii(t.year, 10, 4);
    DigitsAreAscii(t.month, 10, 2);
    DigitsAreAscii(t.day, 10, 2);
    DigitsAreAscii(t.hour, 10, 2);
    DigitsAreAscii(t.minute, 10, 2);
    DigitsAreAscii(t.second, 10, 2);
    DigitsAreAscii(t.micro, 10, 6);
  }

  lemma UuidTextIsAscii(id: Uuid)
    ensures forall c <- UuidText(id) :: c < 128 as char
  {
    var h := Digits(id, 16, 32);
    DigitsAreAscii(id, 16, 32);
    assert forall c <- UuidText(id) :: c in h || c == '-';
  }

  // ---- cursors

  /** `f"{created_at.isoformat()}|{message_id}"`. */
  function CursorText(at: Timestamp, id: Uuid): (s: string)
    ensures IsAscii(s)
  {
    IsoFormatIsAscii(at);
    UuidTextIsAscii(id);
    AsciiCharacters(IsoFormat(at) + "|" + UuidText(id));
    IsoFormat(at) + "|" + UuidText(id)
  }

  function EncodeCursor(at: Timestamp, id: Uuid): string {
    Base64Url.Encode(ToBytes(CursorText(at, id)))
  }

  /** The text before and after the first bar. */
  function SplitAtBar(s: string): Option<(string, string)> {
    if s == "" then None
    else if s[0] == '|' then Some(("", s[1..]))
    else match SplitAtBar(s[1..])
      case None => None
      case Some((left, right)) => Some(([s[0]] + left, right))
  }

  function ParseCursorText(s: string): Option<(Timestamp, Uuid)> {
    match SplitAtBar(s)
    case None => None
    case Some((left, right)) =>
      match (ParseIso(left), ParseUuid(right))
      case (Some(at), Some(id)) => Some((at, id))
      case _ => None
  }

  function DecodeCursor(cursor: string): Option<(Timestamp, Uuid)> {
    match Base64Url.Decode(Base64Url.Pad(cursor))
    case None => None
    case Some(bytes) =>
      match FromBytes(bytes)
      case None => None
      case Some(text) => ParseCursorText(text)
  }

  lemma {:induction false} SplitFindsBar(left: string, right: string)
    requires '|' !in left
    ensures SplitAtBar(left + "|" + right) == Some((left, right))
  {
    var s := left + "|" + right;
    if left == "" {
      assert s[1..] == right;
    } else {
      assert s[1..] == left[1..] + "|" + right;
      SplitFindsBar(left[1..], right);
      assert [left[0]] + left[1..] == left;
    }
  }

  /** A cursor decodes to the key it was made from, for every timestamp and every id. */
  lemma CursorRoundTrip(at: Timestamp, id: Uuid)
    ensures DecodeCursor(EncodeCursor(at, id)) == Some((at, id))
  {
    var text := CursorText(at, id);
    Base64Url.RoundTrip(ToBytes(text));
    BytesRoundTrip(text);
    IsoFormatIsAscii(at);
    SplitFindsBar(IsoFormat(at), UuidText(id));
    IsoFormatParses(at);
    UuidTextParses(id);
  }

  /** Every cursor is non-empty, so it is never mistaken for "no cursor", and it fits the
      200 characters that the query parameter allows. */
  lemma CursorLength(at: Timestamp, id: Uuid)
    ensures |EncodeCursor(at, id)| == if at.micro == 0 then 83 else 92
  {
    IsoFormatIsAscii(at);
    var bytes := ToBytes(CursorText(at, id));
    if at.micro == 0 {
      Base64Url.EncodedLength(bytes, 20, 2);
    } else {
      Base64Url.EncodedLength(bytes, 23, 0);
    }
  }

  // ---- what is accepted

  /** The texts that stand for a timestamp: Python also reads a fraction of zero. */
  predicate IsoTextOf(s: string, t: Timestamp) {
    s == IsoFormat(t) || (t.micro == 0 && s == DateText(t) + ".000000+00:00")
  }

  lemma DateParsesExactly(s: string, t: Timestamp)
    requires |s| == 19 && ParseDate(s, t.micro) == Some(t)
    ensures s == DateText(t)
  {
    hide ParseDigits, Digits;
    ParsePrints(s[..4], 10);
    ParsePrints(s[5..7], 10);
    ParsePrints(s[8..10], 10);
    ParsePrints(s[11..13], 10);
    ParsePrints(s[14..16], 10);
    ParsePrints(s[17..], 10);
    assert s == s[..4] + [s[4]] + s[5..7] + [s[7]] + s[8..10] + [s[10]] + s[11..13] + [s[13]] + s[14..16] + [s[16]] + s[17..];
  }

  lemma MicroOfDate(s: string, micro: nat)
    requires |s| == 19 && ParseDate(s, micro).Some?
    ensures ParseDate(s, micro).value.micro == micro
  {
  }

  lemma FractionParts(date: string, digits: string)
    requires |date| == 19 && |digits| == 6
    ensures var s := date + "." + digits + "+00:00";
            |s| == 32 && s[..19] == date && s[19] == '.' && s[20..26] == digits && s[26..] == "+00:00"
  {
  }

  lemma ZeroFraction(t: Timestamp)
    requires t.micro == 0
    ensures ParseIso(DateText(t) + ".000000+00:00") == Some(t)
  {
    hide DateText, ParseDate, ParseDigits;
    var zeros := "000000";
    assert DateText(t) + ".000000+00:00" == DateText(t) + "." + zeros + "+00:00" by {
      assert ".000000+00:00" == "." + zeros + "+00:00";
    }
    FractionParts(DateText(t), zeros);
    SixZeros();
    DateTextParses(t);
  }

  lemma {:induction false} ZeroDigits(width: nat)
    ensures forall i | 0 <= i < width :: Digits(0, 10, width)[i] == '0'
  {
    if width > 0 {
      ZeroDigits(width - 1);
    }
  }

  lemma SixZeros()
    ensures ParseDigits("000000", 10) == Some(0) && Digits(0, 10, 6) == "000000"
  {
    hide ParseDigits;
    ZeroDigits(6);
    SmallPowers();
    hide Power, Digits;
    assert Digits(0, 10, 6) == "000000";
    DigitsParse(0, 10, 6);
  }

  lemma IsoParsesExactly(s: string, t: Timestamp)
    ensures ParseIso(s) == Some(t) <==> IsoTextOf(s, t)
  {
    hide ParseDate, DateText, ParseDigits, Digits;
    IsoFormatParses(t);
    if t.micro == 0 {
      ZeroFraction(t);
    }
    if ParseIso(s) == Some(t) {
      if |s| == 25 {
        MicroOfDate(s[..19], 0);
        DateParsesExactly(s[..19], t);
        assert s == s[..19] + s[19..];
      } else {
        ParsePrints(s[20..26], 10);
        MicroOfDate(s[..19], ParseDigits(s[20..26], 10).value);
        DateParsesExactly(s[..19], t);
        SixZeros();
        assert s == s[..19] + [s[19]] + s[20..26] + s[26..];
      }
    }
  }

  lemma {:induction false} SplitIsExact(s: string)
    requires SplitAtBar(s).Some?
    ensures s == SplitAtBar(s).value.0 + "|" + SplitAtBar(s).value.1
  {
    if s[0] == '|' {
      assert s == "" + "|" + s[1..];
    } else {
      SplitIsExact(s[1..]);
      assert s == [s[0]] + s[1..];
    }
  }

  lemma {:induction false} BytesAreText(bytes: seq<Base64Url.Byte>)
    requires FromBytes(bytes).Some?
    ensures IsAscii(FromBytes(bytes).value) && ToBytes(FromBytes(bytes).value) == bytes
  {
    if bytes != [] {
      BytesAreText(bytes[1..]);
      var s, rest := FromBytes(bytes).value, FromBytes(bytes[1..]).value;
      assert s[1..] == rest;
      assert bytes == [bytes[0]] + bytes[1..];
    }
  }

  /** The texts that stand for a key. */
  predicate CursorTextOf(s: string, at: Timestamp, id: Uuid) {
    s == IsoFormat(at) + "|" + UuidText(id) || (at.micro == 0 && s == DateText(at) + ".000000+00:00" + "|" + UuidText(id))
  }

  lemma IsoTextHasNoBar(s: string, t: Timestamp)
    requires IsoTextOf(s, t)
    ensures '|' !in s
  {
    IsoFormatIsAscii(t);
    DigitsAreAscii(t.year, 10, 4);
    DigitsAreAscii(t.month, 10, 2);
    DigitsAreAscii(t.day, 10, 2);
    DigitsAreAscii(t.hour, 10, 2);
    DigitsAreAscii(t.minute, 10, 2);
    DigitsAreAscii(t.second, 10, 2);
  }

  lemma CursorTextParsesExactly(s: string, at: Timestamp, id: Uuid)
    ensures ParseCursorText(s) == Some((at, id)) <==> CursorTextOf(s, at, id)
  {
    hide IsoFormat, UuidText, ParseIso, ParseUuid, DateText;
    if ParseCursorText(s) == Some((at, id)) {
      SplitIsExact(s);
      IsoParsesExactly(SplitAtBar(s).value.0, at);
      UuidParsesExactly(SplitAtBar(s).value.1, id);
    }
    if CursorTextOf(s, at, id) {
      var left := if s == IsoFormat(at) + "|" + UuidText(id) then IsoFormat(at) else DateText(at) + ".000000+00:00";
      IsoTextHasNoBar(left, at);
      SplitFindsBar(left, UuidText(id));
      IsoParsesExactly(left, at);
      UuidParsesExactly(UuidText(id), id);
    }
  }

  /** A cursor is accepted exactly if it is base64url for the text of a key; everything else is refused. */
  lemma CursorDecodesExactly(cursor: string, at: Timestamp, id: Uuid)
    ensures DecodeCursor(cursor) == Some((at, id))
            <==> exists text | CursorTextOf(text, at, id) && IsAscii(text) :: Base64Url.Decode(Base64Url.Pad(cursor)) == Some(ToBytes(text))
  {
    hide CursorTextOf, ParseCursorText, Base64Url.Decode, Base64Url.Pad;
    if DecodeCursor(cursor) == Some((at, id)) {
      var bytes := Base64Url.Decode(Base64Url.Pad(cursor)).value;
      BytesAreText(bytes);
      CursorTextParsesExactly(FromBytes(bytes).value, at, id);
    }
    if text :| CursorTextOf(text, at, id) && IsAscii(text) && Base64Url.Decode(Base64Url.Pad(cursor)) == Some(ToBytes(text)) {
      BytesRoundTrip(text);
      CursorTextParsesExactly(text, at, id);
    }
  }

  lemma TwoDigits(n: nat)
    requires n < 100
    ensures Digits(n, 10, 2) == ["0123456789"[n / 10], "0123456789"[n % 10]]
  {
    assert Digits(n / 10, 10, 1) == [DigitChar(n / 10)];
    DigitsAreHex(n / 10);
    DigitsAreHex(n % 10);
  }

  lemma DigitsInTwo(n: nat, width: nat)
    ensures Digits(n, 10, width + 2) == Digits(n / 100, 10, width) + Digits(n % 100, 10, 2)
  {
    hide DigitChar;
    assert n / 10 / 10 == n / 100 && n % 100 / 10 == n / 10 % 10 && n % 100 % 10 == n % 10;
    assert Digits(n % 100, 10, 2) == Digits(n % 100 / 10, 10, 1) + [DigitChar(n % 10)];
  }

  lemma DateSample(micro: nat)
    requires micro < 1_000_000
    ensures DateText(DateTime(2026, 1, 31, 9, 5, 7, micro)) == "2026-01-31T09:05:07"
  {
    hide Digits;
    DigitsInTwo(2026, 2);
    TwoDigits(20);
    TwoDigits(26);
    TwoDigits(1);
    TwoDigits(31);
    TwoDigits(9);
    TwoDigits(5);
    TwoDigits(7);
  }

  /** Times are written year first, every field padded with zeros, and without a fraction of zero. */
  lemma IsoSamples()
    ensures IsoFormat(DateTime(2026, 1, 31, 9, 5, 7, 0)) == "2026-01-31T09:05:07+00:00"
    ensures IsoFormat(DateTime(2026, 1, 31, 9, 5, 7, 42)) == "2026-01-31T09:05:07.000042+00:00"
  {
    hide Digits, DateText;
    DateSample(0);
    DateSample(42);
    DigitsInTwo(42, 4);
    DigitsInTwo(0, 2);
    TwoDigits(42);
    TwoDigits(0);
  }
}
