/** Identifiers: the UUIDv7 layout of app/ids.py and the text form of a UUID. */
module Uuids {
  import opened Basics
  import opened Numerals

  const UUID_LIMIT := 0x1_0000_0000_0000_0000_0000_0000_0000_0000

  /** A UUID, ordered as PostgreSQL orders it: as an unsigned 128-bit number. */
  type Uuid = n: nat | n < UUID_LIMIT witness 0

  const MILLIS_MASK: bv128 := 0xFFFF_FFFF_FFFF
  const RANDOM_MASK: bv128 := 0x3FF_FFFF_FFFF_FFFF_FFFF

  /** `uuid7()` for a clock reading in milliseconds and ten random bytes. */
  function Uuid7(millis: bv128, random: bv128): bv128 {
    var randA := (random >> 62) & 0xFFF;
    var randB := random & 0x3FFF_FFFF_FFFF_FFFF;
    ((millis & MILLIS_MASK) << 80) | ((0x7 as bv128) << 76) | (randA << 64) | ((2 as bv128) << 62) | randB
  }

  /** The fields of section 5.7 of RFC 9562: unix_ts_ms, ver, rand_a, var and rand_b. */
  lemma Uuid7Fields(millis: bv128, random: bv128)
    ensures Uuid7(millis, random) >> 80 == millis & MILLIS_MASK
    ensures (Uuid7(millis, random) >> 76) & 0xF == 7
    ensures (Uuid7(millis, random) >> 64) & 0xFFF == (random >> 62) & 0xFFF
    ensures (Uuid7(millis, random) >> 62) & 3 == 2
    ensures Uuid7(millis, random) & 0x3FFF_FFFF_FFFF_FFFF == random & 0x3FFF_FFFF_FFFF_FFFF
  {
  }

  /** An earlier millisecond gives a smaller id, whatever the random bits are. */
  lemma Uuid7Order(m: bv128, r: bv128, n: bv128, q: bv128)
    requires m <= MILLIS_MASK && n <= MILLIS_MASK
    ensures m < n ==> Uuid7(m, r) < Uuid7(n, q)
  {
  }

  lemma SameFields(m: bv128, r: bv128, n: bv128, q: bv128)
    requires Uuid7(m, r) == Uuid7(n, q)
    ensures m & MILLIS_MASK == n & MILLIS_MASK && r & RANDOM_MASK == q & RANDOM_MASK
  {
    hide Uuid7;
    Uuid7Fields(m, r);
    Uuid7Fields(n, q);
    RandomBitsRecombine(r);
    RandomBitsRecombine(q);
  }

  /** Two ids are equal exactly when the milliseconds agree in their 48 bits and the random bytes in
      the 74 bits that are used. Of the ten random bytes, six bits are dropped. */
  lemma Uuid7IsInjective(m: bv128, r: bv128, n: bv128, q: bv128)
    ensures Uuid7(m, r) == Uuid7(n, q) <==> m & MILLIS_MASK == n & MILLIS_MASK && r & RANDOM_MASK == q & RANDOM_MASK
  {
    hide Uuid7;
    if Uuid7(m, r) == Uuid7(n, q) {
      SameFields(m, r, n, q);
    }
    if m & MILLIS_MASK == n & MILLIS_MASK && r & RANDOM_MASK == q & RANDOM_MASK {
      UnusedBits(m, r);
      UnusedBits(n, q);
    }
  }

  lemma UnusedBits(m: bv128, r: bv128)
    ensures Uuid7(m, r) == Uuid7(m & MILLIS_MASK, r & RANDOM_MASK)
  {
  }

  lemma RandomBitsRecombine(r: bv128)
    ensures (((r >> 62) & 0xFFF) << 62) | (r & 0x3FFF_FFFF_FFFF_FFFF) == r & RANDOM_MASK
  {
  }

  // ---- the text form: 8-4-4-4-12 lower-case hexadecimal digits

  const UUID_TEXT_LENGTH := 36

  function UuidText(id: Uuid): (s: string)
    ensures |s| == UUID_TEXT_LENGTH
  {
    var h := Digits(id, 16, 32);
    h[..8] + "-" + h[8..12] + "-" + h[12..16] + "-" + h[16..20] + "-" + h[20..]
  }

  /** `uuid.UUID(text)` on the text form above. */
  function ParseUuid(s: string): Option<Uuid> {
    if |s| != UUID_TEXT_LENGTH || s[8] != '-' || s[13] != '-' || s[18] != '-' || s[23] != '-' then None
    else
      var h := s[..8] + s[9..13] + s[14..18] + s[19..23] + s[24..];
      match ParseDigits(h, 16)
      case None => None
      case Some(n) => if n < UUID_LIMIT then Some(n) else None
  }

  lemma UuidTextParses(id: Uuid)
    ensures ParseUuid(UuidText(id)) == Some(id)
  {
    var h := Digits(id, 16, 32);
    var s := UuidText(id);
    assert s[..8] == h[..8] && s[9..13] == h[8..12] && s[14..18] == h[12..16];
    assert s[19..23] == h[16..20] && s[24..] == h[20..];
    assert h[..8] + h[8..12] + h[12..16] + h[16..20] + h[20..] == h;
    assert Power(16, 32) == UUID_LIMIT by { PowerOf16(); }
    DigitsParse(id, 16, 32);
  }

  lemma PowerOf16()
    ensures Power(16, 32) == UUID_LIMIT
  {
    assert Power(16, 8) == 0x1_0000_0000;
    PowerAdds(16, 8, 8);
    PowerAdds(16, 16, 16);
  }

  /** `uuid.UUID` in this model accepts the text form and nothing else. */
  lemma UuidParsesExactly(s: string, id: Uuid)
    ensures ParseUuid(s) == Some(id) <==> s == UuidText(id)
  {
    UuidTextParses(id);
    if ParseUuid(s) == Some(id) {
      var h := s[..8] + s[9..13] + s[14..18] + s[19..23] + s[24..];
      ParsePrints(h, 16);
      assert h[..8] == s[..8] && h[8..12] == s[9..13] && h[12..16] == s[14..18] && h[16..20] == s[19..23] && h[20..] == s[24..];
      assert s == s[..8] + [s[8]] + s[9..13] + [s[13]] + s[14..18] + [s[18]] + s[19..23] + [s[23]] + s[24..];
    }
  }
}
