/**
 * The checks of the connection form
 * (ftp-client-gui/src/main/kotlin/com/example/demo/viewmodels/ConnectionViewModel.kt). A form
 * field is an optional text (null when empty); a check answers a boolean or throws
 * NumberFormatException from `toInt`, which is None here.
 */
module ConnectionValidation {
  import opened Wrappers
  import opened JvmText

  /** `map { it.toInt() }`: every piece as a number, or the exception of the first that is not one. */
  function ToInts(parts: seq<string>): (r: Option<seq<int>>)
    ensures r.Some? <==> forall k | 0 <= k < |parts| :: ParseInt(parts[k]).Some?
    ensures r.Some? ==> |r.value| == |parts| && forall k | 0 <= k < |parts| :: r.value[k] == ParseInt(parts[k]).value
  {
    if parts == [] then Some([])
    else
      match ParseInt(parts[0])
      case None => None
      case Some(n) =>
        match ToInts(parts[1..])
        case None => None
        case Some(rest) => Some([n] + rest)
  }

  /** The number is one octet of an address. */
  predicate Octet(n: int)
  {
    0 <= n <= 255
  }

  /**
   * `validIP`: false for an empty field; otherwise the text is split at every "." and each piece
   * converted, which throws on the first piece that is not a number, before the pieces are
   * counted. Then exactly four pieces, each from 0 to 255.
   */
  function ValidIp(ip: Option<string>): (r: Option<bool>)
    ensures ip.None? ==> r == Some(false)
    ensures r.None? <==> ip.Some? && exists k | 0 <= k < |KotlinSplit(ip.value, '.')| :: ParseInt(KotlinSplit(ip.value, '.')[k]).None?
    ensures r == Some(true) <==> (ip.Some? && |KotlinSplit(ip.value, '.')| == 4 &&
      forall k | 0 <= k < 4 :: ParseInt(KotlinSplit(ip.value, '.')[k]).Some? && Octet(ParseInt(KotlinSplit(ip.value, '.')[k]).value))
  {
    if ip.None? then Some(false)
    else
      match ToInts(KotlinSplit(ip.value, '.'))
      case None => None
      case Some(splitIp) =>
        if |splitIp| != 4 then Some(false)
        else Some(AllOctets(splitIp))
  }

  /** Every number is an octet. */
  predicate AllOctets(xs: seq<int>)
  {
    forall k | 0 <= k < |xs| :: Octet(xs[k])
  }

  /** `validIP` once the pieces are converted: the count, then the range of each. */
  lemma ValidIpOfPieces(ip: string, splitIp: seq<int>)
    requires ToInts(KotlinSplit(ip, '.')) == Some(splitIp)
    ensures ValidIp(Some(ip)) == if |splitIp| != 4 then Some(false) else Some(AllOctets(splitIp))
  {
  }

  /** `validIP` as written: the pieces are converted, counted, then checked one by one until one is out of range. */
  method CheckIp(ip: Option<string>) returns (r: Option<bool>)
    ensures r == ValidIp(ip)
  {
    if ip.None? {
      return Some(false);
    }
    var converted := ToInts(KotlinSplit(ip.value, '.'));
    if converted.None? {
      return None;
    }
    var splitIp := converted.value;
    ValidIpOfPieces(ip.value, splitIp);
    if |splitIp| != 4 {
      return Some(false);
    }
    var inRange := AllInRange(splitIp);
    return Some(inRange);
  }

  /** The `for` loop of `validIP`: false at the first number outside 0..255, true after the last. */
  method AllInRange(splitIp: seq<int>) returns (b: bool)
    ensures b == AllOctets(splitIp)
  {
    var i := 0;
    while i < |splitIp|
      invariant 0 <= i <= |splitIp|
      invariant forall k | 0 <= k < i :: Octet(splitIp[k])
    {
      if !Octet(splitIp[i]) {
        return false;
      }
      i := i + 1;
    }
    return true;
  }

  /** `validPort`: false for an empty field or a negative number, true for any other number; no upper bound. */
  function ValidPort(port: Option<string>): (r: Option<bool>)
    ensures port.None? ==> r == Some(false)
    ensures port.Some? ==> (r.None? <==> ParseInt(port.value).None?)
    ensures r == Some(true) <==> port.Some? && ParseInt(port.value).Some? && ParseInt(port.value).value >= 0
  {
    if port.None? then Some(false)
    else
      match ParseInt(port.value)
      case None => None
      case Some(n) => Some(n >= 0)
  }

  /** `connect`: nothing is connected yet; it always reports success. */
  function Connect(): (r: bool)
    ensures r
  {
    true
  }

  /** The address written as four decimal octets joined by dots. */
  function DottedQuad(a: nat, b: nat, c: nat, d: nat): string
  {
    DecimalString(a) + ['.'] + (DecimalString(b) + ['.'] + (DecimalString(c) + ['.'] + DecimalString(d)))
  }

  /** Four pieces without dots, joined by dots, split back into themselves. */
  lemma FourPieces(p0: string, p1: string, p2: string, p3: string)
    requires '.' !in p0 && '.' !in p1 && '.' !in p2 && '.' !in p3
    ensures KotlinSplit(p0 + ['.'] + (p1 + ['.'] + (p2 + ['.'] + p3)), '.') == [p0, p1, p2, p3]
  {
    NoSeparatorOnePiece(p0, '.');
    NoSeparatorOnePiece(p1, '.');
    NoSeparatorOnePiece(p2, '.');
    NoSeparatorOnePiece(p3, '.');
    SplitConcat(p2, p3, '.');
    SplitConcat(p1, p2 + ['.'] + p3, '.');
    SplitConcat(p0, p1 + ['.'] + (p2 + ['.'] + p3), '.');
  }

  /** The pieces of a dotted quad are its four numerals. */
  lemma QuadPieces(a: nat, b: nat, c: nat, d: nat)
    ensures KotlinSplit(DottedQuad(a, b, c, d), '.') == [DecimalString(a), DecimalString(b), DecimalString(c), DecimalString(d)]
  {
    var ps := [DecimalString(a), DecimalString(b), DecimalString(c), DecimalString(d)];
    forall k | 0 <= k < 4
      ensures '.' !in ps[k]
    {
      assert AllDigits(ps[k]);
    }
    FourPieces(ps[0], ps[1], ps[2], ps[3]);
  }

  /** Every dotted quad of octets, as `toString` writes them, passes `validIP`. */
  lemma DottedQuadValid(a: nat, b: nat, c: nat, d: nat)
    requires a <= 255 && b <= 255 && c <= 255 && d <= 255
    ensures ValidIp(Some(DottedQuad(a, b, c, d))) == Some(true)
  {
    QuadPieces(a, b, c, d);
    ParseDecimalString(a);
    ParseDecimalString(b);
    ParseDecimalString(c);
    ParseDecimalString(d);
  }

  /** A dotted quad with a first number above 255 is refused, not thrown on. */
  lemma OctetTooLarge(a: nat, b: nat, c: nat, d: nat)
    requires 255 < a <= IntMax && b <= 255 && c <= 255 && d <= 255
    ensures ValidIp(Some(DottedQuad(a, b, c, d))) == Some(false)
  {
    QuadPieces(a, b, c, d);
    ParseDecimalString(a);
    ParseDecimalString(b);
    ParseDecimalString(c);
    ParseDecimalString(d);
  }

  /**
   * A text piece that is not a number throws, whatever the number of pieces: "1.2.x" has three
   * pieces, but it throws rather than being refused.
   */
  lemma ThrowsBeforeCounting()
    ensures ValidIp(Some("1.2.x")) == None
    ensures ValidIp(Some("")) == None
  {
    assert JoinWith(["1", "2", "x"], '.') == "1.2.x";
    JoinSplit(["1", "2", "x"], '.');
    assert ParseInt("x") == None by {
      assert !IsDigit("x"[0]);
    }
    assert KotlinSplit("", '.') == [""];
  }

  /** Any non-negative `int` is a valid port, 65536 and above included. */
  lemma PortHasNoUpperBound(n: nat)
    requires n <= IntMax
    ensures ValidPort(Some(DecimalString(n))) == Some(true)
  {
    ParseDecimalString(n);
  }

  /** A minus sign before a positive number makes the port invalid. */
  lemma NegativePortRefused(n: nat)
    requires 0 < n <= IntMax
    ensures ValidPort(Some("-" + DecimalString(n))) == Some(false)
  {
    var s := "-" + DecimalString(n);
    assert s[1..] == DecimalString(n);
    DecimalStringValue(n);
  }
}
