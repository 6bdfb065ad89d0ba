/** base64url of section 5 of RFC 4648, with the padding handling of app/ids.py. */
module Base64Url {
  import opened Basics

  type Byte = b: nat | b < 256

  function Symbol(v: nat): (c: char)
    requires v < 64
  {
    if v < 26 then ('A' as nat + v) as char
    else if v < 52 then ('a' as nat + (v - 26)) as char
    else if v < 62 then ('0' as nat + (v - 52)) as char
    else if v == 62 then '-'
    else '_'
  }

  /** The value of a data symbol. The standard alphabet's `+` and `/` are accepted too. */
  function Value(c: char): (v: Option<nat>)
    ensures v.Some? ==> v.value < 64
  {
    if 'A' <= c <= 'Z' then Some(c as nat - 'A' as nat)
    else if 'a' <= c <= 'z' then Some(c as nat - 'a' as nat + 26)
    else if '0' <= c <= '9' then Some(c as nat - '0' as nat + 52)
    else if c == '-' || c == '+' then Some(62)
    else if c == '_' || c == '/' then Some(63)
    else None
  }

  lemma SymbolHasItsValue(v: nat)
    requires v < 64
    ensures Value(Symbol(v)) == Some(v)
    ensures Symbol(v) != '=' && Symbol(v) < 128 as char
  {
  }

  /** The four symbols of three bytes. */
  function Quartet(a: Byte, b: Byte, c: Byte): (s: string)
    ensures |s| == 4
  {
    [Symbol(a / 4), Symbol(a % 4 * 16 + b / 16), Symbol(b % 16 * 4 + c / 64), Symbol(c % 64)]
  }

  /** `urlsafe_b64encode(bytes).rstrip("=")`. */
  function Encode(bytes: seq<Byte>): (s: string)
  {
    if |bytes| == 0 then ""
    else if |bytes| == 1 then
      [Symbol(bytes[0] / 4), Symbol(bytes[0] % 4 * 16)]
    else if |bytes| == 2 then
      [Symbol(bytes[0] / 4), Symbol(bytes[0] % 4 * 16 + bytes[1] / 16), Symbol(bytes[1] % 16 * 4)]
    else
      Quartet(bytes[0], bytes[1], bytes[2]) + Encode(bytes[3..])
  }

  /** `cursor + "=" * (-len(cursor) % 4)`. */
  function Pad(s: string): string {
    s + Equals((4 - |s| % 4) % 4)
  }

  function Equals(n: nat): string {
    seq(n, _ => '=')
  }

  /** The lenient decoder between two characters: how many symbols of the current quadruple it
      has read, the bits not yet written out, and how many pads it has just seen. */
  datatype Quad = Quad(position: nat, carry: nat, pads: nat)

  predicate ValidQuad(q: Quad) {
    match q.position
    case 0 => q.carry == 0
    case 1 => q.carry < 64
    case 2 => q.carry < 16
    case 3 => q.carry < 4
    case _ => false
  }

  type DecoderState = q: Quad | ValidQuad(q) witness Quad(0, 0, 0)

  const START: DecoderState := Quad(0, 0, 0)

  /** One data symbol: the bytes it completes and the next state. */
  function Feed(q: DecoderState, v: nat): (r: (seq<Byte>, DecoderState))
    requires v < 64
  {
    match q.position
    case 0 => ([], Quad(1, v, 0))
    case 1 => ([q.carry * 4 + v / 16], Quad(2, v % 16, 0))
    case 2 => ([q.carry * 16 + v / 4], Quad(3, v % 4, 0))
    case _ => ([q.carry * 64 + v], START)
  }

  /** `base64.urlsafe_b64decode`: foreign characters are skipped, and a pad that completes a
      quadruple ends the data. Non-ASCII input and truncated data are errors. */
  function Decode(s: string): Option<seq<Byte>> {
    if exists c <- s :: c >= 128 as char then None else DecodeFrom(s, START, [])
  }

  function DecodeFrom(s: string, q: DecoderState, out: seq<Byte>): Option<seq<Byte>> {
    if s == "" then
      if q.position == 0 then Some(out) else None
    else if s[0] == '=' then
      if q.position >= 2 && q.position + q.pads + 1 >= 4 then Some(out)
      else DecodeFrom(s[1..], if q.position >= 2 then q.(pads := q.pads + 1) else q, out)
    else
      match Value(s[0])
      case None => DecodeFrom(s[1..], q, out)
      case Some(v) =>
        var (bytes, next) := Feed(q, v);
        DecodeFrom(s[1..], next, out + bytes)
  }

  // ---- the round trip

  lemma FeedSymbol(v: nat, rest: string, q: DecoderState, out: seq<Byte>)
    requires v < 64
    ensures DecodeFrom([Symbol(v)] + rest, q, out) == DecodeFrom(rest, Feed(q, v).1, out + Feed(q, v).0)
  {
    SymbolHasItsValue(v);
    assert ([Symbol(v)] + rest)[1..] == rest;
  }

  /** The sextets of one group of bytes bring those bytes back. */
  lemma FeedGroup(a: Byte, b: Byte, c: Byte)
    ensures Feed(START, a / 4) == ([], Quad(1, a / 4, 0))
    ensures Feed(Quad(1, a / 4, 0), a % 4 * 16 + b / 16) == ([a], Quad(2, b / 16, 0))
    ensures Feed(Quad(2, b / 16, 0), b % 16 * 4 + c / 64) == ([b], Quad(3, c / 64, 0))
    ensures Feed(Quad(3, c / 64, 0), c % 64) == ([c], START)
  {
    assert (a % 4 * 16 + b / 16) / 16 == a % 4;
    assert (b % 16 * 4 + c / 64) / 4 == b % 16;
  }

  lemma DecodeFirst(a: Byte, b: Byte, rest: string, out: seq<Byte>)
    ensures DecodeFrom([Symbol(a / 4)] + ([Symbol(a % 4 * 16 + b / 16)] + rest), START, out)
         == DecodeFrom(rest, Quad(2, b / 16, 0), out + [a])
  {
    FeedGroup(a, b, 0);
    FeedSymbol(a / 4, [Symbol(a % 4 * 16 + b / 16)] + rest, START, out);
    assert out + [] == out;
    FeedSymbol(a % 4 * 16 + b / 16, rest, Quad(1, a / 4, 0), out);
  }

  lemma DecodeTriple(a: Byte, b: Byte, c: Byte, rest: string, out: seq<Byte>)
    ensures DecodeFrom(Quartet(a, b, c) + rest, START, out) == DecodeFrom(rest, START, out + [a, b, c])
  {
    var s3 := [Symbol(c % 64)] + rest;
    var s2 := [Symbol(b % 16 * 4 + c / 64)] + s3;
    assert Quartet(a, b, c) + rest == [Symbol(a / 4)] + ([Symbol(a % 4 * 16 + b / 16)] + s2);
    DecodeFirst(a, b, s2, out);
    FeedGroup(a, b, c);
    FeedSymbol(b % 16 * 4 + c / 64, s3, Quad(2, b / 16, 0), out + [a]);
    FeedSymbol(c % 64, rest, Quad(3, c / 64, 0), out + [a] + [b]);
    assert out + [a] + [b] + [c] == out + [a, b, c];
  }

  lemma DecodePair(a: Byte, b: Byte, out: seq<Byte>)
    ensures DecodeFrom(Encode([a, b]) + "=", START, out) == Some(out + [a, b])
  {
    var s2 := [Symbol(b % 16 * 4 + 0 / 64)] + "=";
    assert Encode([a, b]) + "=" == [Symbol(a / 4)] + ([Symbol(a % 4 * 16 + b / 16)] + s2);
    DecodeFirst(a, b, s2, out);
    FeedGroup(a, b, 0);
    FeedSymbol(b % 16 * 4 + 0 / 64, "=", Quad(2, b / 16, 0), out + [a]);
    assert out + [a] + [b] == out + [a, b];
  }

  lemma DecodeSingle(a: Byte, out: seq<Byte>)
    ensures DecodeFrom(Encode([a]) + "==", START, out) == Some(out + [a])
  {
    assert Encode([a]) + "==" == [Symbol(a / 4)] + ([Symbol(a % 4 * 16 + 0 / 16)] + "==");
    DecodeFirst(a, 0, "==", out);
    assert "=="[1..] == "=";
    var q: DecoderState := Quad(2, 0, 0);
    assert DecodeFrom("==", q, out + [a]) == DecodeFrom("=", q.(pads := 1), out + [a]);
  }

  /** The padding that Encode leaves out. */
  function Pads(bytes: seq<Byte>): string {
    if |bytes| == 0 then "" else if |bytes| == 1 then "==" else if |bytes| == 2 then "=" else Pads(bytes[3..])
  }

  lemma EncodeUnfolds(bytes: seq<Byte>)
    requires |bytes| > 2
    ensures Encode(bytes) + Pads(bytes)
         == Quartet(bytes[0], bytes[1], bytes[2]) + (Encode(bytes[3..]) + Pads(bytes[3..]))
  {
  }

  lemma {:induction false} DecodeFromEncoded(bytes: seq<Byte>, out: seq<Byte>)
    ensures DecodeFrom(Encode(bytes) + Pads(bytes), START, out) == Some(out + bytes)
    decreases |bytes|, 1
  {
    if bytes == [] {
      assert out + bytes == out;
    } else if |bytes| == 1 {
      var a := bytes[0];
      assert bytes == [a];
      DecodeSingle(a, out);
    } else if |bytes| == 2 {
      var a, b := bytes[0], bytes[1];
      assert bytes == [a, b];
      DecodePair(a, b, out);
    } else {
      DecodeGroups(bytes, out);
    }
  }

  lemma {:induction false} DecodeGroups(bytes: seq<Byte>, out: seq<Byte>)
    requires |bytes| > 2
    ensures DecodeFrom(Encode(bytes) + Pads(bytes), START, out) == Some(out + bytes)
    decreases |bytes|, 0
  {
    var a, b, c, rest := bytes[0], bytes[1], bytes[2], bytes[3..];
    EncodeUnfolds(bytes);
    DecodeTriple(a, b, c, Encode(rest) + Pads(rest), out);
    DecodeFromEncoded(rest, out + [a, b, c]);
    assert out + [a, b, c] + rest == out + bytes;
  }

  /** Length of the encoding of `3 * k + r` bytes. */
  function Length(k: nat, r: nat): nat {
    4 * k + if r == 0 then 0 else r + 1
  }

  lemma {:induction false} EncodedLength(bytes: seq<Byte>, k: nat, r: nat)
    requires |bytes| == 3 * k + r && r < 3
    ensures |Encode(bytes)| == Length(k, r)
    ensures Pads(bytes) == Equals((3 - r) % 3)
  {
    if k > 0 {
      EncodedLength(bytes[3..], k - 1, r);
    }
  }

  lemma LengthMod(k: nat, r: nat)
    requires r < 3
    ensures (4 - Length(k, r) % 4) % 4 == (3 - r) % 3
  {
  }

  lemma PadsRestored(bytes: seq<Byte>)
    ensures Pad(Encode(bytes)) == Encode(bytes) + Pads(bytes)
  {
    hide Encode, Pads, Length;
    var k, r := |bytes| / 3, |bytes| % 3;
    EncodedLength(bytes, k, r);
    LengthMod(k, r);
  }

  lemma {:induction false} EncodedIsAscii(bytes: seq<Byte>)
    ensures forall c <- Encode(bytes) :: c < 128 as char
  {
    if |bytes| > 2 {
      EncodedIsAscii(bytes[3..]);
      assert forall c <- Quartet(bytes[0], bytes[1], bytes[2]) :: c < 128 as char;
    }
  }

  /** Encoding strips the padding, decoding restores it, and nothing is lost. */
  lemma RoundTrip(bytes: seq<Byte>)
    ensures Decode(Pad(Encode(bytes))) == Some(bytes)
  {
    EncodedIsAscii(bytes);
    DecodeFromEncoded(bytes, []);
    PadsRestored(bytes);
    assert forall c <- Encode(bytes) + Pads(bytes) :: c < 128 as char;
    assert [] + bytes == bytes;
  }

  /** Two test vectors of section 10 of RFC 4648, without their padding, and the two last symbols. */
  lemma TestVectors()
    ensures Encode([0x66, 0x6f, 0x6f, 0x62, 0x61]) == "Zm9vYmE"
    ensures Encode([0x66, 0x6f, 0x6f, 0x62]) == "Zm9vYg"
    ensures Encode([0xfb, 0xff, 0xbf]) == "-_-_"
  {
    assert [0x66, 0x6f, 0x6f, 0x62, 0x61][3..] == [0x62, 0x61];
    assert [0x66, 0x6f, 0x6f, 0x62][3..] == [0x62];
    assert [0xfb, 0xff, 0xbf][3..] == [];
  }

  predicate AreSymbols(s: string) {
    forall i | 0 <= i < |s| :: Value(s[i]).Some?
  }

  lemma PadStep(q: DecoderState, k: nat, out: seq<Byte>)
    ensures DecodeFrom(Equals(k + 1), q, out)
         == if q.position >= 2 && q.position + q.pads + 1 >= 4 then Some(out)
            else DecodeFrom(Equals(k), if q.position >= 2 then q.(pads := q.pads + 1) else q, out)
  {
    assert Equals(k + 1)[1..] == Equals(k);
  }

  lemma DecodePads(q: DecoderState, k: nat, out: seq<Byte>)
    requires q.pads == 0 && k < 4 && (q.position + k) % 4 == 0
    ensures DecodeFrom(Equals(k), q, out).Some? <==> q.position != 1
  {
    if k == 1 {
      PadStep(q, 0, out);
    } else if k == 2 {
      PadStep(q, 1, out);
      PadStep(q.(pads := 1), 0, out);
    } else if k == 3 {
      PadStep(q, 2, out);
      PadStep(q, 1, out);
      PadStep(q, 0, out);
      assert Equals(0) == "";
    }
  }

  lemma FeedMoves(q: DecoderState, v: nat)
    requires v < 64
    ensures Feed(q, v).1.position == (q.position + 1) % 4 && Feed(q, v).1.pads == 0
  {
  }

  lemma DecodeStep(s: string, q: DecoderState, out: seq<Byte>)
    requires s != "" && Value(s[0]).Some?
    ensures DecodeFrom(s, q, out) == DecodeFrom(s[1..], Feed(q, Value(s[0]).value).1, out + Feed(q, Value(s[0]).value).0)
  {
  }

  lemma {:induction false} DecodeSymbols(s: string, q: DecoderState, k: nat, out: seq<Byte>)
    requires AreSymbols(s) && q.pads == 0 && k < 4 && (q.position + |s| + k) % 4 == 0
    ensures DecodeFrom(s + Equals(k), q, out).Some? <==> (q.position + |s|) % 4 != 1
    decreases |s|
  {
    hide DecodeFrom, Feed, Value, Equals;
    if s == "" {
      assert s + Equals(k) == Equals(k);
      DecodePads(q, k, out);
    } else {
      var v := Value(s[0]).value;
      assert (s + Equals(k))[1..] == s[1..] + Equals(k) && (s + Equals(k))[0] == s[0];
      DecodeStep(s + Equals(k), q, out);
      FeedMoves(q, v);
      DecodeSymbols(s[1..], Feed(q, v).1, k, out + Feed(q, v).0);
    }
  }

  /** A text of data symbols is refused exactly when its last symbol stands alone. */
  lemma SymbolsDecode(s: string)
    requires AreSymbols(s)
    ensures Decode(Pad(s)).Some? <==> |s| % 4 != 1
  {
    hide DecodeFrom, Value;
    DecodeSymbols(s, START, (4 - |s| % 4) % 4, []);
    forall c | c in Pad(s) ensures c < 128 as char {
      if c in s {
        var i :| 0 <= i < |s| && s[i] == c;
        SymbolIsAscii(c);
      }
    }
  }

  lemma SymbolIsAscii(c: char)
    requires Value(c).Some?
    ensures c < 128 as char
  {
  }
}
