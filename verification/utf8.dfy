/**
 * UTF-8 as Rust's `String::from_utf8` checks it: it accepts exactly the well-formed byte
 * sequences of section 3 of RFC 3629. A Rust `String` is modelled by its UTF-8 bytes.
 */
module Utf8 {
  import opened Ascii

  predicate IsContinuation(b: byte)
  {
    0x80 <= b <= 0xBF
  }

  /**
   * The length of the well-formed sequence that starts `s`, or 0 when `s` does not start with
   * one (the table of well-formed byte sequences in section 4 of RFC 3629).
   */
  function LeadingSequenceLength(s: seq<byte>): (n: nat)
    requires |s| > 0
    ensures n <= 4 && n <= |s|
  {
    var b0 := s[0];
    if b0 <= 0x7F then 1
    else if 0xC2 <= b0 <= 0xDF then
      if |s| >= 2 && IsContinuation(s[1]) then 2 else 0
    else if 0xE0 <= b0 <= 0xEF then
      if |s| >= 3 && IsContinuation(s[2])
         && (if b0 == 0xE0 then 0xA0 <= s[1] <= 0xBF
             else if b0 == 0xED then 0x80 <= s[1] <= 0x9F
             else IsContinuation(s[1]))
      then 3 else 0
    else if 0xF0 <= b0 <= 0xF4 then
      if |s| >= 4 && IsContinuation(s[2]) && IsContinuation(s[3])
         && (if b0 == 0xF0 then 0x90 <= s[1] <= 0xBF
             else if b0 == 0xF4 then 0x80 <= s[1] <= 0x8F
             else IsContinuation(s[1]))
      then 4 else 0
    else 0
  }

  /** `from_utf8(s)` succeeds exactly when this holds. */
  predicate ValidUtf8(s: seq<byte>)
    decreases |s|
  {
    s == [] || (LeadingSequenceLength(s) > 0 && ValidUtf8(s[LeadingSequenceLength(s)..]))
  }

  /** Bytes below 0x80 are always well-formed on their own. */
  lemma {:induction false} AsciiBytesValid(s: seq<byte>)
    requires forall i | 0 <= i < |s| :: s[i] < 0x80
    ensures ValidUtf8(s)
  {
    if s != [] {
      AsciiBytesValid(s[1..]);
    }
  }

  /** The well-formed sequence that starts a text still starts it when more bytes follow. */
  lemma LeadingSequenceOfLonger(a: seq<byte>, b: seq<byte>)
    requires |a| > 0 && LeadingSequenceLength(a) > 0
    ensures LeadingSequenceLength(a + b) == LeadingSequenceLength(a)
  {
    var s := a + b;
    assert forall i | 0 <= i < |a| :: s[i] == a[i];
  }

  /** Two well-formed texts one after the other are well-formed. */
  lemma {:induction false} ValidUtf8Concat(a: seq<byte>, b: seq<byte>)
    requires ValidUtf8(a) && ValidUtf8(b)
    ensures ValidUtf8(a + b)
    decreases |a|
  {
    if a == [] {
      assert a + b == b;
    } else {
      var n := LeadingSequenceLength(a);
      LeadingSequenceOfLonger(a, b);
      assert (a + b)[n..] == a[n..] + b;
      ValidUtf8Concat(a[n..], b);
    }
  }
}
