/** Fixed-width numerals, printed and parsed. */
module Numerals {
  import opened Basics

  function Power(base: nat, width: nat): nat {
    if width == 0 then 1 else base * Power(base, width - 1)
  }

  lemma MulIsAssociative(a: nat, b: nat, c: nat)
    ensures a * (b * c) == (a * b) * c
  {
  }

  lemma {:induction false} PowerAdds(base: nat, m: nat, n: nat)
    ensures Power(base, m + n) == Power(base, m) * Power(base, n)
  {
    if m > 0 {
      PowerAdds(base, m - 1, n);
      MulIsAssociative(base, Power(base, m - 1), Power(base, n));
    }
  }

  function DigitChar(d: nat): char
    requires d < 16
  {
    if d < 10 then ('0' as nat + d) as char else ('a' as nat + (d - 10)) as char
  }

  function DigitValue(c: char): (v: Option<nat>)
    ensures v.Some? ==> v.value < 16
  {
    if '0' <= c <= '9' then Some(c as nat - '0' as nat)
    else if 'a' <= c <= 'f' then Some(c as nat - 'a' as nat + 10)
    else None
  }

  /** The last `width` digits of `n`, most significant first. */
  function Digits(n: nat, base: nat, width: nat): (s: string)
    requires 2 <= base <= 16
    ensures |s| == width
  {
    if width == 0 then "" else Digits(n / base, base, width - 1) + [DigitChar(n % base)]
  }

  function ParseDigits(s: string, base: nat): Option<nat>
    requires 2 <= base <= 16
  {
    if s == "" then Some(0)
    else
      var last := DigitValue(s[|s| - 1]);
      match ParseDigits(s[..|s| - 1], base)
      case None => None
      case Some(n) => if last.Some? && last.value < base then Some(n * base + last.value) else None
  }

  lemma ParseAppend(s: string, n: nat, d: nat, base: nat)
    requires d < base && 2 <= base <= 16
    requires ParseDigits(s, base) == Some(n)
    ensures ParseDigits(s + [DigitChar(d)], base) == Some(n * base + d)
  {
    assert (s + [DigitChar(d)])[..|s|] == s;
  }

  /** The last digit apart from the others. */
  lemma DigitsSplit(n: nat, base: nat, width: nat) returns (rest: nat, digit: nat)
    requires 2 <= base <= 16 && 0 < width
    ensures n == rest * base + digit && digit < base
    ensures Digits(n, base, width) == Digits(rest, base, width - 1) + [DigitChar(digit)]
    ensures n < Power(base, width) ==> rest < Power(base, width - 1)
  {
    hide DigitChar;
    rest, digit := n / base, n % base;
    Division(n, base);
    if n < Power(base, width) {
      QuotientBelow(n, base, Power(base, width - 1));
    }
  }

  lemma {:induction false} DigitsParse(n: nat, base: nat, width: nat)
    requires 2 <= base <= 16
    requires n < Power(base, width)
    ensures ParseDigits(Digits(n, base, width), base) == Some(n)
    decreases width
  {
    hide ParseDigits, DigitChar, Digits;
    if width == 0 {
      ParseEmpty(base);
      assert Digits(n, base, width) == "";
    } else {
      hide Power;
      var rest, digit := DigitsSplit(n, base, width);
      DigitsParse(rest, base, width - 1);
      ParseAppend(Digits(rest, base, width - 1), rest, digit, base);
    }
  }

  lemma ParseEmpty(base: nat)
    requires 2 <= base <= 16
    ensures ParseDigits("", base) == Some(0)
  {
  }

  lemma Division(n: nat, base: nat)
    requires 0 < base
    ensures n / base * base + n % base == n && n % base < base
  {
  }

  lemma QuotientBelow(n: nat, base: nat, bound: nat)
    requires 0 < base && n < base * bound
    ensures n / base < bound
  {
  }

  lemma DigitsAreHex(d: nat)
    requires d < 16
    ensures DigitChar(d) == "0123456789abcdef"[d]
  {
  }

  lemma ValueOfDigit(c: char)
    requires DigitValue(c).Some?
    ensures DigitChar(DigitValue(c).value) == c
  {
  }

  /** What parses is what is printed. */
  lemma {:induction false} ParsePrints(s: string, base: nat)
    requires 2 <= base <= 16 && ParseDigits(s, base).Some?
    ensures ParseDigits(s, base).value < Power(base, |s|) && s == Digits(ParseDigits(s, base).value, base, |s|)
    decreases |s|
  {
    hide DigitChar, DigitValue;
    if s != "" {
      var front, c := s[..|s| - 1], s[|s| - 1];
      ParsePrints(front, base);
      var m, v, n := ParseDigits(front, base).value, DigitValue(c).value, ParseDigits(s, base).value;
      ValueOfDigit(c);
      QuotientOf(m, v, base);
      BelowPower(m, v, base, Power(base, |front|));
      assert s == front + [c];
    }
  }

  lemma QuotientOf(m: nat, v: nat, base: nat)
    requires v < base
    ensures (m * base + v) / base == m && (m * base + v) % base == v
  {
    Division(m * base + v, base);
    var q := (m * base + v) / base;
    assert q < m ==> (q + 1) * base <= m * base;
    assert m < q ==> (m + 1) * base <= q * base;
  }

  lemma BelowPower(m: nat, v: nat, base: nat, bound: nat)
    requires v < base && m < bound
    ensures m * base + v < base * bound
  {
    assert (m + 1) * base <= bound * base;
  }
}
