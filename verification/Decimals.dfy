/** Decimal numerals, as Java prints and parses its identifiers. */
module Decimals {
  import opened Bytes
  import opened Options
  import opened Text

  const ZERO: byte := 0x30
  const PLUS: byte := 0x2B

  predicate IsDigit(b: byte) { 0x30 <= b <= 0x39 }

  predicate AllDigits(s: seq<byte>) { forall i :: 0 <= i < |s| ==> IsDigit(s[i]) }

  /** The shortest numeral of `n`. */
  function Digits(n: nat): (s: seq<byte>)
    ensures s != [] && AllDigits(s)
  {
    if n < 10 then [ZERO + n] else Digits(n / 10) + [ZERO + n % 10]
  }

  function ValueOf(s: seq<byte>): nat
    requires AllDigits(s)
  {
    if s == [] then 0 else ValueOf(s[..|s| - 1]) * 10 + (s[|s| - 1] - ZERO)
  }

  /** `Long.parseUnsignedLong`: one optional plus sign, then digits of a 64-bit number. */
  function ParseUnsigned(s: seq<byte>): Option<u64> {
    var t := if s != [] && s[0] == PLUS then s[1..] else s;
    if t == [] || !AllDigits(t) || ValueOf(t) > U64_MAX then None else Some(ValueOf(t))
  }

  lemma {:induction false} DigitsDenote(n: nat)
    ensures ValueOf(Digits(n)) == n
  {
    if n >= 10 {
      DigitsDenote(n / 10);
      assert Digits(n)[..|Digits(n)| - 1] == Digits(n / 10);
    } else {
      assert Digits(n)[..0] == [];
    }
  }

  /** Printing and parsing an identifier gives it back. */
  lemma DigitsParse(n: u64)
    ensures ParseUnsigned(Digits(n)) == Some(n)
  {
    DigitsDenote(n);
    assert IsDigit(Digits(n)[0]);
  }

  lemma {:induction false} DigitsAreText(s: seq<byte>)
    requires AllDigits(s)
    ensures ValidUtf8(s)
  {
    if s != [] {
      assert ScalarLength(s) == 1;
      DigitsAreText(s[1..]);
    }
  }

  /** A signed number's text. */
  function Decimal(n: int): Text {
    DigitsAreText(Digits(if n < 0 then -n else n));
    if n < 0 then
      assert ([0x2D] + Digits(-n))[1..] == Digits(-n);
      assert ScalarLength([0x2D] + Digits(-n)) == 1;
      [0x2D] + Digits(-n)
    else Digits(n)
  }
}
