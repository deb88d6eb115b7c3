/**
 * The few pieces of the Java and Kotlin string library the client relies on, over `string`:
 * `startsWith`, `split` on one character (Java strips trailing empty pieces, Kotlin does not),
 * `split(".")` read as the regular expression "any character", `trim`, `Integer.parseInt` and
 * the `%s` of a null reference. Only ASCII digits are read as digits.
 */
module JvmText {
  import opened Wrappers

  /** `s.startsWith(p)`. */
  predicate StartsWith(s: string, p: string)
  {
    |p| <= |s| && forall i | 0 <= i < |p| :: s[i] == p[i]
  }

  /** A text starts with `p` exactly when its first `|p|` characters are `p`. */
  lemma StartsWithPrefix(s: string, p: string)
    requires |p| <= |s|
    ensures StartsWith(s, p) <==> s[..|p|] == p
  {
    if StartsWith(s, p) {
      assert forall i | 0 <= i < |p| :: s[..|p|][i] == p[i];
    } else {
      var i :| 0 <= i < |p| && s[i] != p[i];
      assert s[..|p|][i] != p[i];
    }
  }

  /** `String.format("%s", x)`: a null reference prints as `null`. */
  function Shown(x: Option<string>): (r: string)
    ensures x.Some? ==> r == x.value
    ensures x.None? ==> r == "null"
  {
    match x
    case None => "null"
    case Some(s) => s
  }

  /** All the pieces of `s` between occurrences of `c`, empty pieces included: one more than there are `c`. */
  function SplitOn(s: string, c: char): (r: seq<string>)
    ensures |r| >= 1
    ensures forall k | 0 <= k < |r| :: c !in r[k]
  {
    if s == [] then [""]
    else
      var rest := SplitOn(s[1..], c);
      if s[0] == c then [""] + rest else [[s[0]] + rest[0]] + rest[1..]
  }

  /** The pieces glued back with `c` in between. */
  function JoinWith(ps: seq<string>, c: char): string
    requires |ps| >= 1
  {
    if |ps| == 1 then ps[0] else ps[0] + [c] + JoinWith(ps[1..], c)
  }

  /** Splitting loses nothing: gluing the pieces back gives the text. */
  lemma {:induction false} SplitJoin(s: string, c: char)
    ensures JoinWith(SplitOn(s, c), c) == s
  {
    if s != [] {
      var rest := SplitOn(s[1..], c);
      SplitJoin(s[1..], c);
      if s[0] == c {
        assert ([""] + rest)[1..] == rest;
      } else {
        var r := [[s[0]] + rest[0]] + rest[1..];
        if |rest| > 1 {
          assert r[1..] == rest[1..];
          assert JoinWith(rest, c) == rest[0] + [c] + JoinWith(rest[1..], c);
        }
      }
    }
  }

  /** Pieces without `c` come back from splitting their join. */
  lemma {:induction false} JoinSplit(ps: seq<string>, c: char)
    requires |ps| >= 1
    requires forall k | 0 <= k < |ps| :: c !in ps[k]
    ensures SplitOn(JoinWith(ps, c), c) == ps
    decreases |ps|, |ps[0]|
  {
    if |ps| == 1 {
      NoSeparatorOnePiece(ps[0], c);
    } else if ps[0] == [] {
      var s := JoinWith(ps, c);
      assert s == [c] + JoinWith(ps[1..], c);
      assert s[1..] == JoinWith(ps[1..], c);
      JoinSplit(ps[1..], c);
      assert ps == [""] + ps[1..];
    } else {
      var s := JoinWith(ps, c);
      var qs := [ps[0][1..]] + ps[1..];
      assert JoinWith(qs, c) == ps[0][1..] + [c] + JoinWith(ps[1..], c) by {
        assert qs[1..] == ps[1..];
      }
      assert s == [ps[0][0]] + JoinWith(qs, c);
      assert s[1..] == JoinWith(qs, c);
      assert forall k | 0 <= k < |qs| :: c !in qs[k] by {
        assert forall k | 1 <= k < |qs| :: qs[k] == ps[k];
        assert c !in ps[0];
      }
      JoinSplit(qs, c);
      assert ps[0] == [ps[0][0]] + qs[0];
      assert ps == [[ps[0][0]] + qs[0]] + qs[1..];
    }
  }

  /** Text without `c` is a single piece. */
  lemma {:induction false} NoSeparatorOnePiece(s: string, c: char)
    requires c !in s
    ensures SplitOn(s, c) == [s]
  {
    if s != [] {
      NoSeparatorOnePiece(s[1..], c);
      assert s == [s[0]] + s[1..];
    }
  }

  /** Splitting text that holds the separator splits each side. */
  lemma {:induction false} SplitConcat(x: string, y: string, c: char)
    ensures SplitOn(x + [c] + y, c) == SplitOn(x, c) + SplitOn(y, c)
  {
    if x == [] {
      assert x + [c] + y == [c] + y;
      assert ([c] + y)[1..] == y;
    } else {
      assert (x + [c] + y)[1..] == x[1..] + [c] + y;
      SplitConcat(x[1..], y, c);
    }
  }

  /** The trailing empty pieces dropped, as `split` with no limit does. */
  function StripTrailingEmpty(ps: seq<string>): (r: seq<string>)
    ensures |r| <= |ps| && r == ps[..|r|]
    ensures r != [] ==> r[|r| - 1] != ""
    ensures forall k | |r| <= k < |ps| :: ps[k] == ""
  {
    if ps == [] then []
    else if ps[|ps| - 1] == "" then StripTrailingEmpty(ps[..|ps| - 1])
    else ps
  }

  /** Java's `s.split(c)` for a character that is not a regular-expression operator. */
  function JavaSplit(s: string, c: char): seq<string>
  {
    if c !in s then [s] else StripTrailingEmpty(SplitOn(s, c))
  }

  /** Kotlin's `s.split(c)`: a literal delimiter, every piece kept. */
  function KotlinSplit(s: string, c: char): (r: seq<string>)
    ensures |r| >= 1
  {
    SplitOn(s, c)
  }

  /**
   * Java's `s.split(".")`: the pattern matches every character, so every piece is empty and all
   * of them are dropped; only the empty text, which has no match, comes back as itself.
   */
  function SplitAnyCharacter(s: string): (r: seq<string>)
    ensures |r| <= 1
  {
    if s == "" then [s] else StripTrailingEmpty(seq(|s| + 1, _ => ""))
  }

  /** `String.trim`: the characters up to U+0020 dropped from both ends. */
  function Trim(s: string): (r: string)
    ensures r != [] ==> r[0] > ' ' && r[|r| - 1] > ' '
    ensures |r| <= |s|
  {
    if s == [] then s
    else if s[0] <= ' ' then Trim(s[1..])
    else if s[|s| - 1] <= ' ' then Trim(s[..|s| - 1])
    else s
  }

  /** Text whose ends are visible characters is left alone by `trim`. */
  lemma TrimVisible(s: string)
    requires s != [] && s[0] > ' ' && s[|s| - 1] > ' '
    ensures Trim(s) == s
  {
  }

  predicate IsDigit(c: char)
  {
    '0' <= c <= '9'
  }

  predicate AllDigits(s: string)
  {
    forall k | 0 <= k < |s| :: IsDigit(s[k])
  }

  /** The value of a run of decimal digits, most significant first. */
  function DigitsValue(s: string): nat
    requires AllDigits(s)
  {
    if s == [] then 0 else DigitsValue(s[..|s| - 1]) * 10 + (s[|s| - 1] as int - '0' as int)
  }

  const IntMin := -0x8000_0000
  const IntMax := 0x7fff_ffff

  /**
   * `Integer.parseInt` (and Kotlin's `toInt`, which calls it): an optional sign, at least one
   * digit, and a value that fits in `int`; anything else throws `NumberFormatException` (None).
   */
  function ParseInt(s: string): (r: Option<int>)
    ensures r.Some? ==> IntMin <= r.value <= IntMax
  {
    if s == [] then None
    else
      var negative := s[0] == '-';
      var digits := if s[0] == '-' || s[0] == '+' then s[1..] else s;
      if digits == [] || !AllDigits(digits) then None
      else
        var d: int := DigitsValue(digits);
        var v := if negative then -d else d;
        if IntMin <= v <= IntMax then Some(v) else None
  }

  /** `Integer.toString` of a non-negative number: its decimal digits, no sign, no leading zero. */
  function DecimalString(n: nat): (r: string)
    ensures r != [] && AllDigits(r)
    ensures |r| > 1 ==> r[0] != '0'
  {
    if n < 10 then [('0' as int + n) as char]
    else DecimalString(n / 10) + [('0' as int + n % 10) as char]
  }

  /** The digits of a number read back as that number. */
  lemma {:induction false} DecimalStringValue(n: nat)
    ensures DigitsValue(DecimalString(n)) == n
  {
    if n >= 10 {
      var s := DecimalString(n);
      assert s[..|s| - 1] == DecimalString(n / 10);
      DecimalStringValue(n / 10);
    }
  }

  /** `parseInt` reads back what `toString` wrote, for every non-negative `int`. */
  lemma ParseDecimalString(n: nat)
    requires n <= IntMax
    ensures ParseInt(DecimalString(n)) == Some(n)
  {
    DecimalStringValue(n);
  }

  /** Java's `int` arithmetic: the result taken modulo 2^32 into the signed range. */
  function WrapInt(x: int): (r: int)
    ensures IntMin <= r <= IntMax
    ensures IntMin <= x <= IntMax ==> r == x
  {
    (x - IntMin) % 0x1_0000_0000 + IntMin
  }
}
