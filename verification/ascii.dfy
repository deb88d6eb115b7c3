/**
 * Bytes, ASCII text and decimal numerals, shared by the server and the client models.
 * A Rust `u8` is a `byte`; a byte-string literal `b"RT"` is `AsciiBytes("RT")`.
 */
module Ascii {
  type byte = b: int | 0 <= b < 256

  /** A Rust `u16`. */
  type u16 = x: int | 0 <= x < 0x1_0000

  const CR: byte := 13
  const LF: byte := 10
  const SPACE: byte := 32
  const COMMA: byte := 44
  const ZERO: byte := 48

  /** The two bytes that end every control line (section 4.1 of RFC 959). */
  const CRLF: seq<byte> := [CR, LF]

  predicate IsAsciiText(s: string)
  {
    forall i | 0 <= i < |s| :: s[i] as int < 128
  }

  /** A text whose characters are all ASCII, such as a reply's fixed message. */
  type AsciiText = s: string | IsAsciiText(s)

  /**
   * Two ASCII texts one after the other. A long message literal is written as two joined halves,
   * because the cost of checking a literal's ASCII constraint grows steeply with its length.
   */
  function Join(a: AsciiText, b: AsciiText): (r: AsciiText)
    ensures r == a + b
  {
    assert IsAsciiText(a + b) by {
      forall i | 0 <= i < |a + b|
        ensures (a + b)[i] as int < 128
      {
        if i >= |a| { assert (a + b)[i] == b[i - |a|]; }
      }
    }
    a + b
  }

  /** The bytes of an ASCII string literal. */
  function AsciiBytes(s: string): (r: seq<byte>)
    requires IsAsciiText(s)
    ensures |r| == |s|
    ensures forall i | 0 <= i < |s| :: r[i] == s[i] as int
  {
    seq(|s|, i requires 0 <= i < |s| => s[i] as int as byte)
  }

  /** The bytes of two texts written one after the other. */
  lemma AsciiBytesConcat(a: string, b: string)
    requires IsAsciiText(a) && IsAsciiText(b)
    ensures IsAsciiText(a + b) && AsciiBytes(a + b) == AsciiBytes(a) + AsciiBytes(b)
  {
    assert Join(a, b) == a + b;
  }

  predicate IsDigit(b: byte)
  {
    48 <= b <= 57
  }

  predicate AllDigits(s: seq<byte>)
  {
    forall i | 0 <= i < |s| :: IsDigit(s[i])
  }

  /** The value of a run of decimal digits, most significant first; the empty run is 0. */
  function DigitsValue(s: seq<byte>): nat
    requires AllDigits(s)
  {
    if s == [] then 0 else DigitsValue(s[..|s| - 1]) * 10 + (s[|s| - 1] - 48)
  }

  /** The decimal numeral of `n` without leading zeros, as Rust's `{}` and Java's `%d` print it. */
  function DecimalBytes(n: nat): (r: seq<byte>)
    ensures 1 <= |r| && AllDigits(r)
    ensures r[0] == ZERO <==> n == 0
    ensures n < 10 <==> |r| == 1
    ensures |r| <= 3 <==> n < 1000
  {
    if n < 10 then [48 + n] else DecimalBytes(n / 10) + [48 + n % 10]
  }

  /** Reading back a rendered numeral gives the number. */
  lemma {:induction false} DecimalBytesValue(n: nat)
    ensures DigitsValue(DecimalBytes(n)) == n
  {
    if n >= 10 {
      var r := DecimalBytes(n);
      DecimalBytesValue(n / 10);
      assert r[..|r| - 1] == DecimalBytes(n / 10);
    }
  }

  /** Distinct numbers render as distinct numerals. */
  lemma DecimalBytesInjective(m: nat, n: nat)
    requires DecimalBytes(m) == DecimalBytes(n)
    ensures m == n
  {
    DecimalBytesValue(m);
    DecimalBytesValue(n);
  }
}
