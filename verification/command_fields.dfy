/**
 * The numeric part of both server command parsers (ftp_server/src/ftp/command.rs and the
 * older FTPserver/rust_server copy, which share this code verbatim): the bounded decimal reader
 * `ascii_to_u8` and the loop that walks the six comma-separated fields of
 * `PORT h1,h2,h3,h4,p1,p2` (section 4.1.2 of RFC 959).
 */
module CommandFields {
  import opened Ascii
  import opened Wrappers

  /** What `ascii_to_u8` promises: at most three decimal digits whose value fits a `u8`. */
  function DecimalU8(s: seq<byte>): Option<byte>
  {
    if |s| > 3 || !AllDigits(s) || DigitsValue(s) > 255 then None else Some(DigitsValue(s))
  }

  /**
   * `ascii_to_u8`: accumulates `n: u16` digit by digit, giving up at the first non-digit
   * (`to_digit(10)?`). The loop invariant shows the `u16` never overflows.
   */
  method AsciiToU8(buff: seq<byte>) returns (r: Option<byte>)
    ensures r == DecimalU8(buff)
  {
    if |buff| > 3 {
      return None;
    }
    var n := 0;
    var k := 0;
    while k < |buff|
      invariant 0 <= k <= |buff|
      invariant AllDigits(buff[..k]) && n == DigitsValue(buff[..k])
      invariant n < Pow10(k)
    {
      if n > 0 {
        n := n * 10;
      }
      if !IsDigit(buff[k]) {
        return None;
      }
      n := n + (buff[k] - 48);
      assert n < 65536;
      assert buff[..k + 1][..k] == buff[..k];
      k := k + 1;
    }
    assert buff[..k] == buff;
    if n > 255 {
      return None;
    }
    return Some(n);
  }

  function Pow10(k: nat): (p: nat)
    ensures p >= 1
  {
    if k == 0 then 1 else 10 * Pow10(k - 1)
  }

  /** An empty run reads as 0, which is how an empty PORT field is accepted. */
  lemma DecimalU8Empty()
    ensures DecimalU8([]) == Some(0)
  {
  }

  /** Every byte value written in decimal reads back; leading zeros are tolerated. */
  lemma DecimalU8RoundTrip(v: byte)
    ensures DecimalU8(DecimalBytes(v)) == Some(v)
    ensures DecimalU8([ZERO] + DecimalBytes(v)) == (if v < 100 then Some(v) else None)
  {
    DecimalBytesValue(v);
    var d := DecimalBytes(v);
    var z := [ZERO] + d;
    assert z[..|z| - 1] == [ZERO] + d[..|d| - 1];
    LeadingZeroValue(d);
  }

  lemma {:induction false} LeadingZeroValue(d: seq<byte>)
    requires AllDigits(d)
    ensures AllDigits([ZERO] + d) && DigitsValue([ZERO] + d) == DigitsValue(d)
  {
    var z := [ZERO] + d;
    if d != [] {
      assert z[..|z| - 1] == [ZERO] + d[..|d| - 1];
      LeadingZeroValue(d[..|d| - 1]);
    }
  }

  /** Index of the first comma of `s`, or `|s|` when there is none. */
  function IndexOfComma(s: seq<byte>): (c: nat)
    ensures c <= |s|
    ensures forall k | 0 <= k < c :: s[k] != COMMA
    ensures c < |s| ==> s[c] == COMMA
  {
    if s == [] then 0 else if s[0] == COMMA then 0 else 1 + IndexOfComma(s[1..])
  }

  /** The pieces of `s` between commas; `k` commas give `k + 1` pieces. */
  function SplitOnComma(s: seq<byte>): (r: seq<seq<byte>>)
    ensures |r| >= 1
    decreases |s|
  {
    var c := IndexOfComma(s);
    if c == |s| then [s] else [s[..c]] + SplitOnComma(s[c + 1..])
  }

  /** Pieces joined back with commas. */
  function JoinWithComma(fs: seq<seq<byte>>): seq<byte>
  {
    if |fs| == 0 then [] else if |fs| == 1 then fs[0] else fs[0] + [COMMA] + JoinWithComma(fs[1..])
  }

  predicate NoComma(f: seq<byte>)
  {
    forall k | 0 <= k < |f| :: f[k] != COMMA
  }

  /** Splitting undoes joining when no piece holds a comma. */
  lemma {:induction false} SplitJoin(fs: seq<seq<byte>>)
    requires |fs| >= 1
    requires forall i | 0 <= i < |fs| :: NoComma(fs[i])
    ensures SplitOnComma(JoinWithComma(fs)) == fs
  {
    var s := JoinWithComma(fs);
    if |fs| == 1 {
      assert IndexOfComma(s) == |s| by { NoCommaIndex(s); }
    } else {
      var rest := JoinWithComma(fs[1..]);
      assert s == fs[0] + [COMMA] + rest;
      IndexAfterField(fs[0], rest);
      assert s[..|fs[0]|] == fs[0];
      assert s[|fs[0]| + 1..] == rest;
      SplitJoin(fs[1..]);
      assert SplitOnComma(s) == [fs[0]] + fs[1..];
    }
  }

  lemma {:induction false} NoCommaIndex(s: seq<byte>)
    requires NoComma(s)
    ensures IndexOfComma(s) == |s|
  {
    if s != [] {
      NoCommaIndex(s[1..]);
    }
  }

  lemma {:induction false} IndexAfterField(f: seq<byte>, rest: seq<byte>)
    requires NoComma(f)
    ensures IndexOfComma(f + [COMMA] + rest) == |f|
  {
    if f != [] {
      assert (f + [COMMA] + rest)[1..] == f[1..] + [COMMA] + rest;
      IndexAfterField(f[1..], rest);
    }
  }

  /**
   * The inner `while` of the PORT loop: from `from`, advance to the first comma, stopping at
   * the CR at index `|line| - 2`; a start at or beyond the CR does not move.
   */
  function FieldEnd(line: seq<byte>, from: nat): (e: nat)
    requires |line| >= 2
    ensures from <= e
    ensures from >= |line| - 2 ==> e == from
    ensures from < |line| - 2 ==> e <= |line| - 2
    decreases |line| - from
  {
    if from < |line| - 2 && line[from] != COMMA then FieldEnd(line, from + 1) else from
  }

  /** The inner `while` of the PORT loop, as written. */
  method AdvanceToComma(line: seq<byte>, from: nat) returns (e: nat)
    requires |line| >= 2
    ensures e == FieldEnd(line, from)
  {
    e := from;
    while e < |line| - 2 && line[e] != COMMA
      invariant from <= e
      invariant FieldEnd(line, from) == FieldEnd(line, e)
    {
      e := e + 1;
    }
  }

  /** Where the walk stands: all fields read (and the index after the last one), or why it stopped. */
  datatype FieldWalk =
    | Walked(fields: seq<byte>, next: nat)
    | BadField(index: nat)
    | SliceOutOfBounds

  /**
   * Fields `i..5` of the PORT loop starting at byte `from`. A field whose slice
   * `line[from..end]` would leave the buffer is `SliceOutOfBounds` (a Rust panic); one that
   * `ascii_to_u8` rejects is `BadField(i)`; after each field the index skips one byte.
   */
  function WalkFields(line: seq<byte>, i: nat, from: nat): (w: FieldWalk)
    requires |line| >= 2 && i <= 6
    ensures w.Walked? ==> |w.fields| == 6 - i
    ensures w.BadField? ==> i <= w.index < 6
  {
    WalkWith(DecimalU8, line, i, from)
  }

  /**
   * The walk with `read` in the place of `ascii_to_u8`. The lemmas about how the walk moves
   * through the line hold whatever `read` is, and are stated for any reader.
   */
  function WalkWith(read: seq<byte> -> Option<byte>, line: seq<byte>, i: nat, from: nat): (w: FieldWalk)
    requires |line| >= 2 && i <= 6
    ensures w.Walked? ==> |w.fields| == 6 - i
    ensures w.BadField? ==> i <= w.index < 6
    decreases 6 - i
  {
    if i == 6 then Walked([], from)
    else
      var e := FieldEnd(line, from);
      if e > |line| then SliceOutOfBounds
      else match read(line[from..e])
        case None => BadField(i)
        case Some(v) => Prefixed([v], WalkWith(read, line, i + 1, e + 1))
  }

  /** `w` with `vs` in front of its fields. */
  function Prefixed(vs: seq<byte>, w: FieldWalk): FieldWalk
  {
    if w.Walked? then Walked(vs + w.fields, w.next) else w
  }

  /**
   * The `for i in 0..6` loop of the PORT branch with its inner `while`, as written: `byte_idx`
   * starts at 5, just after "PORT ".
   */
  method WalkPortFields(line: seq<byte>) returns (w: FieldWalk)
    requires |line| >= 7
    ensures w == WalkFields(line, 0, 5)
  {
    var fields: seq<byte> := [];
    var byteIdx := 5;
    var i := 0;
    ghost var whole := WalkFields(line, i, byteIdx);
    PrefixedEmpty(whole);
    while i < 6
      invariant 0 <= i <= 6 && |fields| == i
      invariant whole == Prefixed(fields, WalkFields(line, i, byteIdx))
    {
      var prev := byteIdx;
      byteIdx := AdvanceToComma(line, byteIdx);
      if byteIdx > |line| {
        WalkStops(line, whole, fields, i, prev, byteIdx);
        return SliceOutOfBounds;
      }
      var v := AsciiToU8(line[prev..byteIdx]);
      if v.None? {
        WalkStops(line, whole, fields, i, prev, byteIdx);
        return BadField(i);
      }
      ghost var (fields0, i0, e) := (fields, i, byteIdx);
      fields, byteIdx, i := fields + [v.value], byteIdx + 1, i + 1;
      WalkAdvance(line, whole, fields0, i0, prev, e, v.value, fields, i, byteIdx);
    }
    WalkEnds(line, whole, fields, byteIdx);
    return Walked(fields, byteIdx);
  }

  /** One turn of the PORT loop: the field from `from` to its end `e`, then the rest of the walk. */
  lemma WalkFieldsStep(line: seq<byte>, i: nat, from: nat, e: nat)
    requires |line| >= 2 && i < 6 && e == FieldEnd(line, from)
    ensures e > |line| ==> WalkFields(line, i, from) == SliceOutOfBounds
    ensures e <= |line| && DecimalU8(line[from..e]).None? ==> WalkFields(line, i, from) == BadField(i)
    ensures e <= |line| && DecimalU8(line[from..e]).Some? ==>
      WalkFields(line, i, from) == Prefixed([DecimalU8(line[from..e]).value], WalkFields(line, i + 1, e + 1))
  {
    if e > |line| {
      WalkOffBuffer(DecimalU8, line, i, from, e);
    } else if DecimalU8(line[from..e]).None? {
      WalkBadField(DecimalU8, line, i, from, e);
    } else {
      WalkGoodField(DecimalU8, line, i, from, e, DecimalU8(line[from..e]).value);
    }
  }

  lemma WalkOffBuffer(read: seq<byte> -> Option<byte>, line: seq<byte>, i: nat, from: nat, e: nat)
    requires |line| >= 2 && i < 6 && e == FieldEnd(line, from) && e > |line|
    ensures WalkWith(read, line, i, from) == SliceOutOfBounds
  {
  }

  lemma WalkBadField(read: seq<byte> -> Option<byte>, line: seq<byte>, i: nat, from: nat, e: nat)
    requires |line| >= 2 && i < 6 && e == FieldEnd(line, from) && e <= |line|
    requires read(line[from..e]).None?
    ensures WalkWith(read, line, i, from) == BadField(i)
  {
  }

  lemma WalkGoodField(read: seq<byte> -> Option<byte>, line: seq<byte>, i: nat, from: nat, e: nat, v: byte)
    requires |line| >= 2 && i < 6 && e == FieldEnd(line, from) && e <= |line|
    requires read(line[from..e]) == Some(v)
    ensures WalkWith(read, line, i, from) == Prefixed([v], WalkWith(read, line, i + 1, e + 1))
  {
  }

  /** One good field moves the walk on: `fields'`, `i'` and `next` are the loop's variables after the turn. */
  lemma WalkAdvance(line: seq<byte>, whole: FieldWalk, fields: seq<byte>, i: nat, from: nat, e: nat, v: byte,
                    fields': seq<byte>, i': nat, next: nat)
    requires |line| >= 2 && i < 6 && e == FieldEnd(line, from) && e <= |line|
    requires DecimalU8(line[from..e]) == Some(v)
    requires whole == Prefixed(fields, WalkFields(line, i, from))
    requires fields' == fields + [v] && i' == i + 1 && next == e + 1
    ensures whole == Prefixed(fields', WalkFields(line, i', next))
  {
    WalkFieldsStep(line, i, from, e);
    PrefixedTwice(fields, [v], WalkFields(line, i + 1, e + 1));
  }

  /** A field that leaves the buffer or is not a byte in decimal ends the whole walk. */
  lemma WalkStops(line: seq<byte>, whole: FieldWalk, fields: seq<byte>, i: nat, from: nat, e: nat)
    requires |line| >= 2 && i < 6 && e == FieldEnd(line, from)
    requires whole == Prefixed(fields, WalkFields(line, i, from))
    ensures e > |line| ==> whole == SliceOutOfBounds
    ensures e <= |line| && DecimalU8(line[from..e]).None? ==> whole == BadField(i)
  {
    WalkFieldsStep(line, i, from, e);
  }

  /** After the sixth field the walk has read exactly the fields so far. */
  lemma WalkEnds(line: seq<byte>, whole: FieldWalk, fields: seq<byte>, next: nat)
    requires |line| >= 2 && whole == Prefixed(fields, WalkFields(line, 6, next))
    ensures whole == Walked(fields, next)
  {
    assert fields + [] == fields;
  }

  lemma PrefixedEmpty(w: FieldWalk)
    ensures Prefixed([], w) == w
  {
    if w.Walked? {
      assert [] + w.fields == w.fields;
    }
  }

  lemma PrefixedTwice(us: seq<byte>, vs: seq<byte>, w: FieldWalk)
    ensures Prefixed(us, Prefixed(vs, w)) == Prefixed(us + vs, w)
  {
    if w.Walked? {
      assert us + (vs + w.fields) == (us + vs) + w.fields;
    }
  }

  /** What reading fields from comma-separated pieces gives, independently of byte indices. */
  datatype PieceRead =
    | Read(values: seq<byte>, atEnd: bool)
    | Bad(index: nat)
    | RanOff

  /**
   * Reference for the PORT field walk: read `n` fields, numbered from `i`, from the pieces `fs`.
   * A piece that is not a byte in decimal stops the read with its number. Once the pieces are
   * used up the walk is past the CR and reads empty fields (value 0), running off the buffer
   * when three or more are still missing. The read ends just before the LF exactly when the
   * pieces and the fields run out together.
   */
  function ReadPieces(fs: seq<seq<byte>>, n: nat, i: nat): (r: PieceRead)
    ensures r.Read? ==> |r.values| == n
    ensures r.Bad? ==> i <= r.index < i + n
  {
    ReadWith(DecimalU8, fs, n, i)
  }

  /** The reference read with `read` in the place of `ascii_to_u8`, as for `WalkWith`. */
  function ReadWith(read: seq<byte> -> Option<byte>, fs: seq<seq<byte>>, n: nat, i: nat): (r: PieceRead)
    ensures r.Read? ==> |r.values| == n
    ensures r.Bad? ==> i <= r.index < i + n
    decreases n
  {
    if n == 0 then Read([], fs == [])
    else if fs == [] then (if n >= 3 then RanOff else Read(seq(n, _ => 0), false))
    else match read(fs[0])
      case None => Bad(i)
      case Some(v) => ReadPrefixed(v, ReadWith(read, fs[1..], n - 1, i + 1))
  }

  /**
   * The walk `w` on a line of length `len` seen as a reference read: its fields, and whether it
   * stopped just before the LF.
   */
  function AsRead(w: FieldWalk, len: nat): PieceRead
  {
    match w
    case Walked(vs, next) => Read(vs, next == len - 1)
    case BadField(j) => Bad(j)
    case SliceOutOfBounds => RanOff
  }

  /** Past the CR only empty fields (value 0) remain, and two bytes later the slice leaves the buffer. */
  lemma {:induction false} WalkPastEnd(read: seq<byte> -> Option<byte>, line: seq<byte>, i: nat, n: nat, next: nat, fs: seq<seq<byte>>)
    requires |line| >= 2 && i <= 6 && n == 6 - i && read([]) == Some(0) && next == |line| - 1 && fs == []
    ensures AsRead(WalkWith(read, line, i, next), |line|) == ReadWith(read, fs, n, i)
  {
    var L := |line|;
    assert line[L - 1..L - 1] == [] && line[L..L] == [];
    if i == 5 {
      assert WalkWith(read, line, 6, L) == Walked([], L);
      assert WalkWith(read, line, 5, L - 1) == Walked([0], L);
    } else if i == 4 {
      assert WalkWith(read, line, 6, L + 1) == Walked([], L + 1);
      assert WalkWith(read, line, 5, L) == Walked([0], L + 1);
      assert WalkWith(read, line, 4, L - 1) == Walked([0, 0], L + 1);
    } else if i < 4 {
      assert WalkWith(read, line, i + 2, L + 1) == SliceOutOfBounds;
    }
  }

  lemma ReadBadPiece(read: seq<byte> -> Option<byte>, fs: seq<seq<byte>>, n: nat, i: nat)
    requires n > 0 && fs != [] && read(fs[0]).None?
    ensures ReadWith(read, fs, n, i) == Bad(i)
  {
  }

  lemma ReadGoodPiece(read: seq<byte> -> Option<byte>, fs: seq<seq<byte>>, n: nat, i: nat, v: byte)
    requires n > 0 && fs != [] && read(fs[0]) == Some(v)
    ensures ReadWith(read, fs, n, i) == ReadPrefixed(v, ReadWith(read, fs[1..], n - 1, i + 1))
  {
  }

  /** `r` with `v` read in front of it. */
  function ReadPrefixed(v: byte, r: PieceRead): PieceRead
  {
    if r.Read? then Read([v] + r.values, r.atEnd) else r
  }

  /** Reading one more good field in front of the walk reads it in front of the reference read. */
  lemma AsReadPrefixed(v: byte, w: FieldWalk, r: PieceRead, len: nat)
    requires AsRead(w, len) == r
    ensures AsRead(Prefixed([v], w), len) == ReadPrefixed(v, r)
  {
  }

  /**
   * The walk from `from` (at or before the CR) agrees with the reference read of the pieces of
   * `line[from..|line| - 2]`, for any reader that reads the empty field as 0. `n` is the number
   * of fields still to read, `6 - i`.
   */
  lemma {:induction false} WalkBySplit(read: seq<byte> -> Option<byte>, line: seq<byte>, i: nat, n: nat, from: nat,
                                        fs: seq<seq<byte>>)
    requires |line| >= 2 && i <= 6 && n == 6 - i && from <= |line| - 2 && read([]) == Some(0)
    requires fs == SplitOnComma(line[from..|line| - 2])
    ensures AsRead(WalkWith(read, line, i, from), |line|) == ReadWith(read, fs, n, i)
    decreases n, 2
  {
    var rest := line[from..|line| - 2];
    if i == 6 {
      assert WalkWith(read, line, i, from) == Walked([], from);
      return;
    }
    var c := IndexOfComma(rest);
    FieldEndBySplit(line, from, from);
    var e := from + c;
    assert line[from..e] == rest[..c] == fs[0];
    match read(fs[0])
    case None =>
      WalkBadField(read, line, i, from, e);
      ReadBadPiece(read, fs, n, i);
    case Some(v) =>
      WalkGoodField(read, line, i, from, e, v);
      ReadGoodPiece(read, fs, n, i, v);
      WalkRest(read, line, i, n, from, c, e, fs);
      AsReadPrefixed(v, WalkWith(read, line, i + 1, e + 1), ReadWith(read, fs[1..], n - 1, i + 1), |line|);
  }

  /** After the first piece, the walk goes on at the byte after its end and agrees with the read of the other pieces. */
  lemma {:induction false} WalkRest(read: seq<byte> -> Option<byte>, line: seq<byte>, i: nat, n: nat, from: nat, c: nat,
                                     e: nat, fs: seq<seq<byte>>)
    requires |line| >= 2 && i < 6 && n == 6 - i && from <= |line| - 2 && read([]) == Some(0)
    requires c == IndexOfComma(line[from..|line| - 2]) && e == from + c
    requires fs == SplitOnComma(line[from..|line| - 2])
    ensures AsRead(WalkWith(read, line, i + 1, e + 1), |line|) == ReadWith(read, fs[1..], n - 1, i + 1)
    decreases n, 1
  {
    if c < |line| - 2 - from {
      WalkRestComma(read, line, i, n, from, c, e, fs);
    } else {
      WalkRestLast(read, line, i, n, from, c, e, fs);
    }
  }

  /** `WalkRest` when a comma ends the first piece: the walk goes on over the pieces after it. */
  lemma {:induction false} WalkRestComma(read: seq<byte> -> Option<byte>, line: seq<byte>, i: nat, n: nat, from: nat, c: nat,
                                          e: nat, fs: seq<seq<byte>>)
    requires |line| >= 2 && i < 6 && n == 6 - i && from <= |line| - 2 && read([]) == Some(0)
    requires c == IndexOfComma(line[from..|line| - 2]) < |line| - 2 - from && e == from + c
    requires fs == SplitOnComma(line[from..|line| - 2])
    ensures AsRead(WalkWith(read, line, i + 1, e + 1), |line|) == ReadWith(read, fs[1..], n - 1, i + 1)
    decreases n, 0
  {
    SplitAfterComma(line, from, c, e, fs);
    WalkBySplit(read, line, i + 1, n - 1, e + 1, fs[1..]);
  }

  /** `WalkRest` when the first piece is the last: the walk goes on past the CR with no pieces left. */
  lemma WalkRestLast(read: seq<byte> -> Option<byte>, line: seq<byte>, i: nat, n: nat, from: nat, c: nat,
                     e: nat, fs: seq<seq<byte>>)
    requires |line| >= 2 && i < 6 && n == 6 - i && from <= |line| - 2 && read([]) == Some(0)
    requires c == IndexOfComma(line[from..|line| - 2]) == |line| - 2 - from && e == from + c
    requires fs == SplitOnComma(line[from..|line| - 2])
    ensures AsRead(WalkWith(read, line, i + 1, e + 1), |line|) == ReadWith(read, fs[1..], n - 1, i + 1)
  {
    LastPiece(line, from, c, fs);
    WalkPastEnd(read, line, i + 1, n - 1, e + 1, fs[1..]);
  }

  /** A first piece without a comma after it is the only piece. */
  lemma LastPiece(line: seq<byte>, from: nat, c: nat, fs: seq<seq<byte>>)
    requires |line| >= 2 && from <= |line| - 2
    requires c == IndexOfComma(line[from..|line| - 2]) == |line| - 2 - from
    requires fs == SplitOnComma(line[from..|line| - 2])
    ensures |fs| == 1 && fs[1..] == []
  {
  }

  /** After the first comma of `line[from..|line| - 2]`, the remaining pieces are those of the rest of the line. */
  lemma SplitAfterComma(line: seq<byte>, from: nat, c: nat, e: nat, fs: seq<seq<byte>>)
    requires |line| >= 2 && from <= |line| - 2
    requires c == IndexOfComma(line[from..|line| - 2]) < |line| - 2 - from && e == from + c
    requires fs == SplitOnComma(line[from..|line| - 2])
    ensures fs[1..] == SplitOnComma(line[e + 1..|line| - 2])
  {
    var rest := line[from..|line| - 2];
    assert rest[c + 1..] == line[e + 1..|line| - 2];
  }

  lemma FieldEndBySplit(line: seq<byte>, from: nat, j: nat)
    requires |line| >= 2 && from <= j <= |line| - 2
    requires forall m | from <= m < j :: line[m] != COMMA
    ensures FieldEnd(line, j) == from + IndexOfComma(line[from..|line| - 2])
    decreases |line| - j
  {
    var rest := line[from..|line| - 2];
    if j < |line| - 2 && line[j] != COMMA {
      FieldEndBySplit(line, from, j + 1);
    } else {
      assert forall k | 0 <= k < j - from :: rest[k] != COMMA;
      assert j < |line| - 2 ==> rest[j - from] == COMMA;
    }
  }

  /** Every piece of `fs` is a byte in decimal. */
  predicate AllBytes(fs: seq<seq<byte>>)
  {
    forall k | 0 <= k < |fs| :: DecimalU8(fs[k]).Some?
  }

  /** The values of pieces that are all bytes in decimal. */
  function ByteValues(fs: seq<seq<byte>>): (vs: seq<byte>)
    requires AllBytes(fs)
    ensures |vs| == |fs|
    ensures forall k | 0 <= k < |fs| :: Some(vs[k]) == DecimalU8(fs[k])
  {
    if fs == [] then [] else [DecimalU8(fs[0]).value] + ByteValues(fs[1..])
  }

  /** Byte values written as decimal numerals without leading zeros. */
  function Numerals(vs: seq<byte>): (fs: seq<seq<byte>>)
    ensures |fs| == |vs|
  {
    seq(|vs|, k requires 0 <= k < |vs| => DecimalBytes(vs[k]))
  }

  /** Numerals hold no comma and read back as their values. */
  lemma NumeralsRead(vs: seq<byte>)
    ensures AllBytes(Numerals(vs))
    ensures ByteValues(Numerals(vs)) == vs
    ensures forall k | 0 <= k < |vs| :: NoComma(Numerals(vs)[k])
  {
    var fs := Numerals(vs);
    forall k | 0 <= k < |vs| ensures DecimalU8(fs[k]) == Some(vs[k]) && NoComma(fs[k]) {
      DecimalU8RoundTrip(vs[k]);
      assert AllDigits(fs[k]);
    }
  }

  /** The read ends exactly at the LF if and only if there are exactly `n` pieces, all of them bytes; their values are then the fields. */
  lemma {:induction false} ReadExact(fs: seq<seq<byte>>, n: nat, i: nat)
    ensures (ReadPieces(fs, n, i).Read? && ReadPieces(fs, n, i).atEnd) <==> (|fs| == n && AllBytes(fs))
    ensures |fs| == n && AllBytes(fs) ==> ReadPieces(fs, n, i) == Read(ByteValues(fs), true)
    decreases n
  {
    if n > 0 && fs != [] {
      ReadExact(fs[1..], n - 1, i + 1);
      if DecimalU8(fs[0]).Some? {
        assert AllBytes(fs) <==> AllBytes(fs[1..]) by {
          assert forall k | 1 <= k < |fs| :: fs[k] == fs[1..][k - 1];
        }
      }
    }
  }

  /** The read runs off the buffer if and only if all pieces are bytes and three or more fields are missing. */
  lemma {:induction false} ReadRunsOff(fs: seq<seq<byte>>, n: nat, i: nat)
    ensures ReadPieces(fs, n, i).RanOff? <==> (|fs| + 3 <= n && AllBytes(fs))
    decreases n
  {
    if n > 0 && fs != [] {
      ReadRunsOff(fs[1..], n - 1, i + 1);
      if DecimalU8(fs[0]).Some? {
        assert AllBytes(fs) <==> AllBytes(fs[1..]) by {
          assert forall k | 1 <= k < |fs| :: fs[k] == fs[1..][k - 1];
        }
      }
    }
  }

  /** The read stops at a bad piece if and only if one of the first `n` pieces is not a byte. */
  lemma {:induction false} ReadBad(fs: seq<seq<byte>>, n: nat, i: nat)
    ensures ReadPieces(fs, n, i).Bad? <==> !AllBytes(fs[..if |fs| < n then |fs| else n])
    decreases n
  {
    if n > 0 && fs != [] {
      var k := if |fs| < n then |fs| else n;
      ReadBad(fs[1..], n - 1, i + 1);
      var t := fs[1..][..k - 1];
      assert fs[..k] == [fs[0]] + t;
      assert AllBytes(fs[..k]) <==> DecimalU8(fs[0]).Some? && AllBytes(t) by {
        assert forall j | 0 <= j < |t| :: t[j] == fs[..k][j + 1];
        assert fs[..k][0] == fs[0];
        if DecimalU8(fs[0]).Some? && AllBytes(t) {
          forall j | 0 <= j < k
            ensures DecimalU8(fs[..k][j]).Some?
          {
            if j > 0 { assert fs[..k][j] == t[j - 1]; }
          }
        }
      }
    }
  }

  /** The read stops at field `i + b` if and only if piece `b` is the first of the first `n` that is not a byte. */
  lemma {:induction false} ReadStopsAt(fs: seq<seq<byte>>, n: nat, i: nat, b: nat)
    ensures ReadPieces(fs, n, i) == Bad(i + b) <==>
      (b < n && b < |fs| && DecimalU8(fs[b]).None? && AllBytes(fs[..b]))
    decreases n
  {
    if n > 0 && fs != [] {
      if DecimalU8(fs[0]).Some? {
        if b > 0 {
          ReadStopsAt(fs[1..], n - 1, i + 1, b - 1);
          if b < |fs| {
            assert fs[1..][b - 1] == fs[b];
            assert AllBytes(fs[..b]) <==> AllBytes(fs[1..][..b - 1]) by {
              assert forall k | 1 <= k < b :: fs[..b][k] == fs[1..][..b - 1][k - 1];
            }
          }
        }
      } else if 0 < b < |fs| {
        assert !AllBytes(fs[..b]) by {
          assert fs[..b][0] == fs[0];
        }
      }
    }
  }
}
