/**
 * The client's data connection (FTPclient/src/r0p3/FileTransfer.java): the port argument it
 * announces, the port it reads from a PASV reply, the framing of uploads and downloads, and the
 * text of a listing. Sockets are left out: what the streams carry is given as values.
 */
module ClientTransfer {
  import opened Wrappers
  import Ascii
  import opened JvmText

  /** The numeral of the high byte of a port, `port / 256`. */
  function HighNumeral(port: nat): string
  {
    DecimalString(port / 256)
  }

  /** The numeral of the low byte of a port, `port - (port / 256) * 256`. */
  function LowNumeral(port: nat): string
  {
    DecimalString(port - port / 256 * 256)
  }

  /** The PORT argument for the local address 0.0.0.0 and a listening port: `0,0,0,0,p1,p2`. */
  function PortArgument(boundPort: nat): string
  {
    "0,0,0,0," + HighNumeral(boundPort) + "," + LowNumeral(boundPort)
  }

  /**
   * The port announced in a PASV reply: the last two comma-separated numbers of the reply's last
   * word, the second cut at `)`, combined as `p1 * 256 + p2` in `int` arithmetic. None is one of
   * the exceptions the parse can throw (null reply, index out of bounds, bad number).
   */
  function PasvPort(reply: Option<string>): Option<int>
  {
    if reply.None? then None
    else
      var words := JavaSplit(reply.value, ' ');
      if |words| == 0 then None else PortOfWord(Trim(words[|words| - 1]))
  }

  /** The port in the last word of a PASV reply: its last two comma-separated pieces. */
  function PortOfWord(word: string): Option<int>
  {
    var parts := JavaSplit(word, ',');
    if |parts| < 2 then None else PortOfNumbers(parts[|parts| - 2], parts[|parts| - 1])
  }

  /** `p1 * 256 + p2` from the two pieces, the second cut at `)`. */
  function PortOfNumbers(first: string, last: string): Option<int>
  {
    match ParseInt(first)
    case None => None
    case Some(firstPart) =>
      var cut := JavaSplit(last, ')');
      if |cut| == 0 then None
      else
        match ParseInt(cut[0])
        case None => None
        case Some(secondPart) => Some(WrapInt(WrapInt(firstPart * 256) + secondPart))
  }

  /** The ports `new Socket(host, port)` takes; for any other it throws IllegalArgumentException. */
  predicate SocketPort(port: int)
  {
    0 <= port <= 0xFFFF
  }

  class FileTransfer {
    var address: Option<string>
    var port: int
    var ipPortNumber: Option<string>

    /** The constructor for "localhost": the local address becomes 0.0.0.0, and `port` keeps Java's default 0. */
    constructor Localhost(boundPort: nat)
      ensures address == Some("0.0.0.0") && port == 0
      ensures ipPortNumber == Some(PortArgument(boundPort))
    {
      address := Some("0.0.0.0");
      port := 0;
      ipPortNumber := Some(PortArgument(boundPort));
    }

    /**
     * `new FileTransfer(address)` with the port the listening socket was given. Any address but
     * "localhost" is split with the pattern ".", which leaves fewer than four pieces, and the
     * indexing throws: null stands for that exception.
     */
    static method New(address: string, boundPort: nat) returns (ft: FileTransfer?)
      ensures ft == null <==> address != "localhost"
      ensures ft != null ==> fresh(ft) && ft.address == Some("0.0.0.0") && ft.port == 0
      ensures ft != null ==> ft.ipPortNumber == Some(PortArgument(boundPort))
    {
      if address == "localhost" {
        ft := new FileTransfer.Localhost(boundPort);
      } else {
        var parseAddress := SplitAnyCharacter(address);
        assert |parseAddress| < 4;
        ft := null;
      }
    }

    /** `getPortPasive`: only `port` changes, and only when the reply parses. */
    method GetPortPasive(reply: Option<string>) returns (parsed: bool)
      modifies this
      ensures parsed <==> PasvPort(reply).Some?
      ensures parsed ==> port == PasvPort(reply).value
      ensures !parsed ==> port == old(port)
      ensures address == old(address) && ipPortNumber == old(ipPortNumber)
    {
      var p := PasvPort(reply);
      if p.Some? {
        port := p.value;
      }
      parsed := p.Some?;
    }

    /** `getIpPort`. */
    function GetIpPort(): (r: Option<string>)
      reads this
    {
      ipPortNumber
    }
  }

  /** Java's `split(".")` leaves at most one piece, so the four address pieces are never there. */
  lemma OtherAddressesThrow(address: string)
    ensures |SplitAnyCharacter(address)| < 4
  {
  }

  /** The last word of a reply, when it holds no space and is not empty. */
  lemma LastWord(prefix: string, token: string)
    requires token != [] && ' ' !in token
    ensures var w := JavaSplit(prefix + [' '] + token, ' '); w != [] && w[|w| - 1] == token
  {
    var s := prefix + [' '] + token;
    assert s[|prefix|] == ' ';
    SplitConcat(prefix, token, ' ');
    NoSeparatorOnePiece(token, ' ');
  }

  /** The last two comma-separated pieces of a word ending in `,a,rest`. */
  lemma LastTwoPieces(lead: string, a: string, rest: string)
    requires ',' !in a && ',' !in rest && rest != []
    ensures var parts := JavaSplit(lead + [','] + a + [','] + rest, ',');
      |parts| >= 2 && parts[|parts| - 2] == a && parts[|parts| - 1] == rest
  {
    var t := a + [','] + rest;
    SplitConcat(a, rest, ',');
    NoSeparatorOnePiece(a, ',');
    NoSeparatorOnePiece(rest, ',');
    var s := lead + [','] + a + [','] + rest;
    assert s == lead + [','] + t;
    SplitConcat(lead, t, ',');
    assert s[|lead|] == ',';
  }

  /** The text before the first `)` is the first piece of splitting at `)`. */
  lemma CutAtParen(b: string, tail: string)
    requires b != [] && ')' !in b
    ensures var cut := JavaSplit(b + [')'] + tail, ')'); cut != [] && cut[0] == b
  {
    var s := b + [')'] + tail;
    assert s[|b|] == ')';
    SplitConcat(b, tail, ')');
    NoSeparatorOnePiece(b, ')');
    assert SplitOn(s, ')')[0] == b;
  }

  /** A PASV reply: some words, then a last word ending in `,a,b)` and a tail. */
  function PasvReply(prefix: string, lead: string, a: string, b: string, tail: string): string
  {
    prefix + [' '] + (lead + [','] + a + [','] + (b + [')'] + tail))
  }

  /**
   * A PASV reply whose last word ends in the two numbers of a port, as the client writes them in
   * its own PORT argument, then `)` and anything without a comma, gives that port back.
   */
  lemma PasvPortRoundTrip(prefix: string, lead: string, port: nat, tail: string)
    requires port < 0x1_0000
    requires forall k | 0 <= k < |lead| :: lead[k] > ' '
    requires forall k | 0 <= k < |tail| :: tail[k] > ' ' && tail[k] != ','
    ensures PasvPort(Some(PasvReply(prefix, lead, HighNumeral(port), LowNumeral(port), tail))) == Some(port)
  {
    var x, y := PortBytes(port);
    PasvNumbersRead(prefix, lead, x, y, tail);
  }

  /** The high and low byte of a port, whose numerals the client writes. */
  lemma PortBytes(port: nat) returns (x: nat, y: nat)
    requires port < 0x1_0000
    ensures x * 256 + y == port && x < 256 && y < 256
    ensures HighNumeral(port) == DecimalString(x) && LowNumeral(port) == DecimalString(y)
  {
    x, y := port / 256, port - port / 256 * 256;
  }

  /**
   * A PASV reply whose last word ends in any two decimal numbers `x` and `y`, then `)`, gives
   * `x * 256 + y`, whether or not that is a port.
   */
  lemma PasvNumbersRead(prefix: string, lead: string, x: nat, y: nat, tail: string)
    requires x * 256 + y <= IntMax
    requires forall k | 0 <= k < |lead| :: lead[k] > ' '
    requires forall k | 0 <= k < |tail| :: tail[k] > ' ' && tail[k] != ','
    ensures PasvPort(Some(PasvReply(prefix, lead, DecimalString(x), DecimalString(y), tail))) == Some(x * 256 + y)
  {
    ParseDecimalString(x);
    ParseDecimalString(y);
    PasvPiecesRead(prefix, lead, DecimalString(x), DecimalString(y), tail, x, y);
  }

  /** A PASV reply whose last word ends in two digit runs that read as `x` and `y` gives `x * 256 + y`. */
  lemma PasvPiecesRead(prefix: string, lead: string, a: string, b: string, tail: string, x: nat, y: nat)
    requires ParseInt(a) == Some(x) && ParseInt(b) == Some(y) && AllDigits(a) && AllDigits(b) && b != []
    requires x * 256 + y <= IntMax
    requires forall k | 0 <= k < |lead| :: lead[k] > ' '
    requires forall k | 0 <= k < |tail| :: tail[k] > ' ' && tail[k] != ','
    ensures PasvPort(Some(PasvReply(prefix, lead, a, b, tail))) == Some(x * 256 + y)
  {
    var rest := b + [')'] + tail;
    var token := lead + [','] + a + [','] + rest;
    assert PasvReply(prefix, lead, a, b, tail) == prefix + [' '] + token;
    Visible(lead, a, b, tail);
    ReplyLastWord(prefix, token);
    NoCommaAfter(b, tail);
    WordLastPieces(lead, a, rest);
    NumeralsRead(a, b, tail, x, y);
  }

  /** Digits, `)` and a tail without commas hold no comma. */
  lemma NoCommaAfter(b: string, tail: string)
    requires AllDigits(b)
    requires forall k | 0 <= k < |tail| :: tail[k] != ','
    ensures ',' !in b + [')'] + tail
  {
    var rest := b + [')'] + tail;
    forall k | 0 <= k < |rest|
      ensures rest[k] != ','
    {
      if k < |b| {
        assert rest[k] == b[k];
      } else if k > |b| {
        assert rest[k] == tail[k - |b| - 1];
      }
    }
  }

  /** Two decimal numbers, the second followed by `)`, give `x * 256 + y` when that fits an `int`. */
  lemma NumbersRead(x: nat, y: nat, tail: string)
    requires x * 256 + y <= IntMax
    ensures PortOfNumbers(DecimalString(x), DecimalString(y) + [')'] + tail) == Some(x * 256 + y)
  {
    ParseDecimalString(x);
    ParseDecimalString(y);
    NumeralsRead(DecimalString(x), DecimalString(y), tail, x, y);
  }

  /** Two pieces that read as `x` and `y`, the second followed by `)`, give `x * 256 + y`. */
  lemma NumeralsRead(a: string, b: string, tail: string, x: nat, y: nat)
    requires ParseInt(a) == Some(x) && ParseInt(b) == Some(y) && AllDigits(b) && b != []
    requires x * 256 + y <= IntMax
    ensures PortOfNumbers(a, b + [')'] + tail) == Some(x * 256 + y)
  {
    CutAtParen(b, tail);
    var cut := JavaSplit(b + [')'] + tail, ')');
    assert ParseInt(cut[0]) == Some(y);
    var high := WrapInt(x * 256);
    assert high == x * 256;
    assert PortOfNumbers(a, b + [')'] + tail) == Some(WrapInt(high + y));
  }

  /** The port of a reply is the port of its last word. */
  lemma ReplyLastWord(prefix: string, token: string)
    requires token != [] && ' ' !in token && token[0] > ' ' && token[|token| - 1] > ' '
    ensures PasvPort(Some(prefix + [' '] + token)) == PortOfWord(token)
  {
    var w := JavaSplit(prefix + [' '] + token, ' ');
    LastWord(prefix, token);
    assert w != [] && w[|w| - 1] == token;
    TrimVisible(token);
    assert Trim(w[|w| - 1]) == token;
  }

  /** The port of a word is read from its last two comma-separated pieces. */
  lemma WordLastPieces(lead: string, a: string, rest: string)
    requires ',' !in a && ',' !in rest && rest != []
    ensures PortOfWord(lead + [','] + a + [','] + rest) == PortOfNumbers(a, rest)
  {
    LastTwoPieces(lead, a, rest);
  }

  /** The two numbers of a port, as `Integer.toString` writes them, give the port back. */
  lemma NumbersRoundTrip(port: nat, tail: string)
    requires port < 0x1_0000
    ensures PortOfNumbers(HighNumeral(port), LowNumeral(port) + [')'] + tail) == Some(port)
  {
    var x, y := PortBytes(port);
    NumbersRead(x, y, tail);
  }

  /** The last word of a PASV reply has no space and visible ends. */
  lemma Visible(lead: string, a: string, b: string, tail: string)
    requires forall k | 0 <= k < |lead| :: lead[k] > ' '
    requires forall k | 0 <= k < |tail| :: tail[k] > ' '
    requires AllDigits(a) && AllDigits(b)
    ensures var token := lead + [','] + a + [','] + (b + [')'] + tail);
      ' ' !in token && token[0] > ' ' && token[|token| - 1] > ' '
  {
    var token := lead + [','] + a + [','] + (b + [')'] + tail);
    forall k | 0 <= k < |token|
      ensures token[k] > ' '
    {
      if k < |lead| {
        assert token[k] == lead[k];
      } else if k == |lead| || k == |lead| + |a| + 1 || k == |lead| + |a| + |b| + 2 {
      } else if k < |lead| + |a| + 1 {
        assert token[k] == a[k - |lead| - 1];
      } else if k < |lead| + |a| + |b| + 2 {
        assert token[k] == b[k - |lead| - |a| - 2];
      } else {
        assert token[k] == tail[k - |lead| - |a| - |b| - 3];
      }
    }
  }

  /** The client's own PORT argument, fed back as the end of a PASV reply, gives its port. */
  lemma PortArgumentRoundTrip(prefix: string, boundPort: nat)
    requires boundPort < 0x1_0000
    ensures PasvPort(Some(prefix + " (" + PortArgument(boundPort) + ")")) == Some(boundPort)
  {
    assert prefix + " (" + PortArgument(boundPort) + ")" == PasvReply(prefix, "(0,0,0,0", HighNumeral(boundPort), LowNumeral(boundPort), "");
    PasvPortRoundTrip(prefix, "(0,0,0,0", boundPort, "");
  }

  /** The reply of the example: `227 Entering Passive Mode (127,0,0,1,4,1).` announces port 1025. */
  lemma PasvExample()
    ensures PasvPort(Some("227 Entering Passive Mode (127,0,0,1,4,1).")) == Some(1025)
  {
    var reply := PasvReply("227 Entering Passive Mode", "(127,0,0,1", HighNumeral(1025), LowNumeral(1025), ".");
    assert HighNumeral(1025) == "4" && LowNumeral(1025) == "1";
    assert reply == "227 Entering Passive Mode (127,0,0,1,4,1).";
    PasvPortRoundTrip("227 Entering Passive Mode", "(127,0,0,1", 1025, ".");
  }

  /** DataOutputStream.writeInt: the four bytes of the `int`, most significant first. */
  function IntBytes(n: int): (r: seq<Ascii.byte>)
    requires IntMin <= n <= IntMax
    ensures |r| == 4
  {
    var u := if n < 0 then n + 0x1_0000_0000 else n;
    var q1 := u / 256;
    var q2 := q1 / 256;
    [q2 / 256, q2 % 256, q1 % 256, u % 256]
  }

  /** DataInputStream.readInt: four bytes, most significant first, as a signed `int`. */
  function ReadInt(b: seq<Ascii.byte>): (n: int)
    requires |b| == 4
    ensures IntMin <= n <= IntMax
  {
    var u := ((b[0] as int * 256 + b[1]) * 256 + b[2]) * 256 + b[3];
    if u > IntMax then u - 0x1_0000_0000 else u
  }

  /** readInt reads back what writeInt wrote. */
  lemma ReadIntBytes(n: int)
    requires IntMin <= n <= IntMax
    ensures ReadInt(IntBytes(n)) == n
  {
    var u := if n < 0 then n + 0x1_0000_0000 else n;
    var q1 := u / 256;
    var q2 := q1 / 256;
    assert u == q1 * 256 + u % 256;
    assert q1 == q2 * 256 + q1 % 256;
    assert q2 == q2 / 256 * 256 + q2 % 256;
    var b := IntBytes(n);
    assert ((b[0] as int * 256 + b[1]) * 256 + b[2]) * 256 + b[3] == u;
  }

  /** `uploadFile`: the length as an `int`, then the bytes. */
  function Upload(data: seq<Ascii.byte>): (r: seq<Ascii.byte>)
    requires |data| <= IntMax
    ensures |r| == |data| + 4 && r[4..] == data
  {
    IntBytes(|data|) + data
  }

  /** What `downloadFile` ends in: the bytes and what follows them, or the exception it throws. */
  datatype Download = Downloaded(data: seq<Ascii.byte>, rest: seq<Ascii.byte>) | EndOfStream | NegativeSize

  /**
   * `downloadFile`: a length, then exactly that many bytes. A stream that ends early throws
   * EOFException, a negative length NegativeArraySizeException.
   */
  function DownloadFile(stream: seq<Ascii.byte>): (r: Download)
    ensures r.Downloaded? ==> |stream| >= 4 && stream == stream[..4] + r.data + r.rest && |r.data| == ReadInt(stream[..4])
    ensures r == NegativeSize ==> |stream| >= 4 && ReadInt(stream[..4]) < 0
    ensures r == EndOfStream ==> |stream| < 4 || |stream| - 4 < ReadInt(stream[..4])
  {
    if |stream| < 4 then EndOfStream
    else
      var len := ReadInt(stream[..4]);
      if len < 0 then NegativeSize
      else if |stream| - 4 < len then EndOfStream
      else Downloaded(stream[4..4 + len], stream[4 + len..])
  }

  /** Downloading what was uploaded gives the same bytes, and leaves what followed them. */
  lemma DownloadUpload(data: seq<Ascii.byte>, rest: seq<Ascii.byte>)
    requires |data| <= IntMax
    ensures DownloadFile(Upload(data) + rest) == Downloaded(data, rest)
  {
    var stream := Upload(data) + rest;
    assert stream[..4] == IntBytes(|data|);
    ReadIntBytes(|data|);
    assert stream[4..4 + |data|] == data;
    assert stream[4 + |data|..] == rest;
  }

  /** What `listFile` returns for the lines it reads: each line followed by a newline. */
  function ListText(lines: seq<string>): string
  {
    if lines == [] then "" else lines[0] + "\n" + ListText(lines[1..])
  }

  /** One more line adds itself and a newline at the end. */
  lemma {:induction false} ListTextSnoc(lines: seq<string>, line: string)
    ensures ListText(lines + [line]) == ListText(lines) + line + "\n"
  {
    if lines != [] {
      assert (lines + [line])[1..] == lines[1..] + [line];
      ListTextSnoc(lines[1..], line);
    }
  }

  /**
   * `listFile`: the lines of the data connection, until its end or a read error, each followed
   * by a newline. The lines are what `readLine` returns before the stream ends.
   */
  method ListFile(lines: seq<string>) returns (data: string)
    ensures data == ListText(lines)
  {
    data := "";
    var i := 0;
    while i < |lines|
      invariant 0 <= i <= |lines|
      invariant data == ListText(lines[..i])
    {
      assert lines[..i + 1] == lines[..i] + [lines[i]];
      ListTextSnoc(lines[..i], lines[i]);
      data := data + lines[i] + "\n";
      i := i + 1;
    }
    assert lines[..i] == lines;
  }

  /** The listing is the lines joined by newlines, with one more at the end. */
  lemma {:induction false} ListTextJoin(lines: seq<string>)
    ensures ListText(lines) == JoinWith(lines + [""], '\n')
  {
    if lines != [] {
      ListTextJoin(lines[1..]);
      assert (lines + [""])[1..] == lines[1..] + [""];
    }
  }

  /** Lines without newlines come back from splitting the listing at newlines, with an empty last piece. */
  lemma ListTextSplit(lines: seq<string>)
    requires forall k | 0 <= k < |lines| :: '\n' !in lines[k]
    ensures SplitOn(ListText(lines), '\n') == lines + [""]
  {
    ListTextJoin(lines);
    JoinSplit(lines + [""], '\n');
  }
}
