/**
 * The control-connection command parser of the server (ftp_server/src/ftp/command.rs):
 * `Command::try_from` turns one received line, CR LF included, into a command or an error
 * message, dispatching on the first bytes like a trie. A Rust `&Path` or `&str` borrowed from
 * the line is modelled by its bytes.
 */
module ServerCommand {
  import opened Ascii
  import opened Wrappers
  import opened Utf8
  import opened CommandFields

  datatype Ipv4 = Ipv4(a: byte, b: byte, c: byte, d: byte)

  datatype Command =
    | Port(ip: Ipv4, port: u16)
    | List(path: seq<byte>)
    | Retr(path: seq<byte>)
    | User(name: seq<byte>)
    | Password(password: seq<byte>)
    | CurrentDirectory
    | Store(path: seq<byte>)
    | Passive
    | Mkdir(path: seq<byte>)
    | Delete(path: seq<byte>)
    | RemoveDirectory(path: seq<byte>)
    | ChangeDirectory(path: seq<byte>)
    | RenameFrom(path: seq<byte>)
    | RenameTo(path: seq<byte>)
    | Quit

  /** What `try_from` gives: a command, the `Err` message, or a slice panic. */
  datatype ParseResult = Parsed(command: Command) | Rejected(message: string) | OutOfBounds

  const TooShort: AsciiText := "Command is too short"
  // Each message is one literal in the source. The longer ones are written here in two halves,
  // because the cost of checking a literal's ASCII constraint grows steeply with its length.
  const NoCrlf: AsciiText := Join("All commands should finish", " with slash r slash n")
  const InvalidLength: AsciiText := "invalid command length"
  const InvalidLengthUser: AsciiText := "Invalid command length"
  const InvalidCommand: AsciiText := "Invalid command"
  const ExpectedSpace: AsciiText := Join("Expected space in between command", " and the rest.")
  const ExpectedSpaceShort: AsciiText := "Expected a space in between"
  const ExpectedUtf8: AsciiText := "expected utf8 string"
  const ExpectedAscii: AsciiText := Join("Expected ASCII", " compliant username")
  const DidYouMeanQuit: AsciiText := Join("Invalid command,", " did you mean `QUIT`?")
  const DidYouMeanList: AsciiText := Join("Invalid command,", " maybe you meant: `LIST`?")
  const DidYouMeanPort: AsciiText := Join("Invalid command,", " maybe you meant: `PORT`?")
  const DidYouMeanUser: AsciiText := Join("Invalid command,", " maybe you meant: `USER`?")
  const UnknownCommand: AsciiText := "Unknown command"
  const UnknownR: AsciiText := Join("Unknown command, maybe you meant", " 'RETR' or 'RMD'?")
  const UnknownPa: AsciiText := Join("Unknown command, maybe you meant", " 'PASS' or 'PASV'")
  const BadLength: AsciiText := "Bad command length"
  const InvalidIpv4: AsciiText := "Invalid IPv4 address"
  const InvalidPort: AsciiText := "Invalid port number"
  const BadPortFormat: AsciiText := "Bad format of the `PORT` command"
  const NoSuchCommand: AsciiText := "invalid command"

  /** The directory `LIST` means when the line names none. */
  const CurrentDir: seq<byte> := AsciiBytes("./")

  /** `is_auth_command`: the commands that need a logged-in user. */
  function IsAuthCommand(c: Command): (r: bool)
    ensures r <==> !(c.User? || c.Password? || c.Passive? || c.Quit?)
  {
    match c
    case Port(_, _) => true
    case List(_) => true
    case Retr(_) => true
    case Mkdir(_) => true
    case Store(_) => true
    case Delete(_) => true
    case RemoveDirectory(_) => true
    case CurrentDirectory => true
    case ChangeDirectory(_) => true
    case RenameTo(_) => true
    case RenameFrom(_) => true
    case _ => false
  }

  /**
   * `parse_path`: the line is longer than six bytes, bytes `lo..hi` are the rest of the
   * keyword, a space follows, and the bytes up to the CR are UTF-8; they are the path.
   */
  function ParsePath(line: seq<byte>, expected: seq<byte>, lo: nat, hi: nat): (r: Result<seq<byte>>)
    requires lo <= hi <= 4
    ensures r.Ok? <==>
      |line| > 6 && line[lo..hi] == expected && line[hi] == SPACE && ValidUtf8(line[hi + 1..|line| - 2])
    ensures r.Ok? ==> r.value == line[hi + 1..|line| - 2]
  {
    if |line| <= 6 then Err(InvalidLength)
    else if line[lo..hi] != expected then Err(InvalidCommand)
    else if line[hi] != SPACE then Err(ExpectedSpace)
    else if !ValidUtf8(line[hi + 1..|line| - 2]) then Err(ExpectedUtf8)
    else Ok(line[hi + 1..|line| - 2])
  }

  /** The `?` after `parse_path`: a path becomes the command, an error its message. */
  function WithPath(r: Result<seq<byte>>, make: seq<byte> -> Command): ParseResult
  {
    match r
    case Ok(p) => Parsed(make(p))
    case Err(m) => Rejected(m)
  }

  /** The end of the PORT branch: the outcome of the field walk on a line of length `len`. */
  function PortOutcome(w: FieldWalk, len: nat): ParseResult
  {
    match w
    case SliceOutOfBounds => OutOfBounds
    case BadField(i) => Rejected(if i >= 4 then InvalidPort else InvalidIpv4)
    case Walked(fs, next) =>
      if next != len - 1 || |fs| != 6 then Rejected(BadPortFormat)
      else Parsed(Port(Ipv4(fs[0], fs[1], fs[2], fs[3]), fs[4] as int * 256 + fs[5] as int))
  }

  /** The keyword tails `try_from` compares slices of the line with. */
  const KwD: seq<byte> := ['D' as int]
  const KwEle: seq<byte> := ['E' as int, 'L' as int, 'E' as int]
  const KwIst: seq<byte> := ['I' as int, 'S' as int, 'T' as int]
  const KwKd: seq<byte> := ['K' as int, 'D' as int]
  const KwO: seq<byte> := ['O' as int]
  const KwR: seq<byte> := ['R' as int]
  const KwRt: seq<byte> := ['R' as int, 'T' as int]
  const KwSer: seq<byte> := ['S' as int, 'E' as int, 'R' as int]
  const KwTor: seq<byte> := ['T' as int, 'O' as int, 'R' as int]
  const KwTr: seq<byte> := ['T' as int, 'R' as int]
  const KwUit: seq<byte> := ['U' as int, 'I' as int, 'T' as int]
  const KwWd: seq<byte> := ['W' as int, 'D' as int]

  /** `Command::try_from`. */
  function Parse(line: seq<byte>): ParseResult
  {
    if |line| <= 2 then Rejected(TooShort)
    else if line[|line| - 1] != LF || line[|line| - 2] != CR then Rejected(NoCrlf)
    else
      var b0 := line[0];
      if b0 == 'C' as int then WithPath(ParsePath(line, KwWd, 1, 3), p => ChangeDirectory(p))
      else if b0 == 'D' as int then WithPath(ParsePath(line, KwEle, 1, 4), p => Delete(p))
      else if b0 == 'M' as int then WithPath(ParsePath(line, KwKd, 1, 3), p => Mkdir(p))
      else if b0 == 'Q' as int then
        if |line| <= 4 || line[1..4] != KwUit then Rejected(DidYouMeanQuit) else Parsed(Quit)
      else if b0 == 'L' as int then ParseList(line)
      else if b0 == 'R' as int then
        if line[1] == 'E' as int then WithPath(ParsePath(line, KwTr, 2, 4), p => Retr(p))
        else if line[1] == 'M' as int then WithPath(ParsePath(line, KwD, 2, 3), p => RemoveDirectory(p))
        else if line[1] == 'N' as int then
          if line[2] == 'F' as int then WithPath(ParsePath(line, KwR, 3, 4), p => RenameFrom(p))
          else if line[2] == 'T' as int then WithPath(ParsePath(line, KwO, 3, 4), p => RenameTo(p))
          else Rejected(UnknownCommand)
        else Rejected(UnknownR)
      else if b0 == 'S' as int then WithPath(ParsePath(line, KwTor, 1, 4), p => Store(p))
      else if b0 == 'P' as int then ParseP(line)
      else if b0 == 'U' as int then ParseUser(line)
      else Rejected(NoSuchCommand)
  }

  /** The `L` branch: `LIST` alone means the current directory. */
  function ParseList(line: seq<byte>): ParseResult
    requires |line| >= 3 && line[|line| - 2] == CR
  {
    if |line| <= 5 then Rejected(InvalidLength)
    else if line[1..4] != KwIst then Rejected(DidYouMeanList)
    else if |line| == 6 then Parsed(List(CurrentDir))
    else if line[4] != SPACE then Rejected(ExpectedSpace)
    else if !ValidUtf8(line[5..|line| - 2]) then Rejected(ExpectedUtf8)
    else Parsed(List(line[5..|line| - 2]))
  }

  /**
   * The `P` branch: `PWD`, `PASV`, `PASS` and `PORT`. The bytes it inspects are in the line
   * because the line ends in CR LF, so a short line meets the CR first.
   */
  function ParseP(line: seq<byte>): ParseResult
    requires |line| >= 3 && line[|line| - 2] == CR && line[|line| - 1] == LF
  {
    if line[1] == 'W' as int then
      if line[2] != 'D' as int || |line| != 5 then Rejected(UnknownCommand) else Parsed(CurrentDirectory)
    else if line[1] == 'A' as int then
      if line[2] != 'S' as int then Rejected(UnknownPa)
      else if line[3] == 'V' as int then
        if |line| != 6 then Rejected(BadLength) else Parsed(Passive)
      else if line[3] == 'S' as int then
        if line[4] != SPACE then Rejected(ExpectedSpaceShort)
        else if !ValidUtf8(line[5..|line| - 2]) then Rejected(ExpectedAscii)
        else Parsed(Password(line[5..|line| - 2]))
      else Rejected(UnknownPa)
    else if line[1] == 'O' as int then
      if |line| <= 6 then Rejected(InvalidLength)
      else if line[2..4] != KwRt then Rejected(DidYouMeanPort)
      else if line[4] != SPACE then Rejected(ExpectedSpace)
      else PortOutcome(WalkFields(line, 0, 5), |line|)
    else Rejected(UnknownCommand)
  }

  /** The `U` branch: `USER name`. */
  function ParseUser(line: seq<byte>): ParseResult
    requires |line| >= 3
  {
    if |line| <= 6 then Rejected(InvalidLengthUser)
    else if line[1..4] != KwSer then Rejected(DidYouMeanUser)
    else if line[4] != SPACE then Rejected(ExpectedSpaceShort)
    else if !ValidUtf8(line[5..|line| - 2]) then Rejected(ExpectedAscii)
    else Parsed(User(line[5..|line| - 2]))
  }

  /** The keywords as a client writes them (section 4.1 of RFC 959). */
  const PORT: seq<byte> := ['P' as int, 'O' as int, 'R' as int, 'T' as int]
  const LIST: seq<byte> := ['L' as int, 'I' as int, 'S' as int, 'T' as int]
  const RETR: seq<byte> := ['R' as int, 'E' as int, 'T' as int, 'R' as int]
  const USER: seq<byte> := ['U' as int, 'S' as int, 'E' as int, 'R' as int]
  const PASS: seq<byte> := ['P' as int, 'A' as int, 'S' as int, 'S' as int]
  const PWD: seq<byte> := ['P' as int, 'W' as int, 'D' as int]
  const STOR: seq<byte> := ['S' as int, 'T' as int, 'O' as int, 'R' as int]
  const PASV: seq<byte> := ['P' as int, 'A' as int, 'S' as int, 'V' as int]
  const MKD: seq<byte> := ['M' as int, 'K' as int, 'D' as int]
  const DELE: seq<byte> := ['D' as int, 'E' as int, 'L' as int, 'E' as int]
  const RMD: seq<byte> := ['R' as int, 'M' as int, 'D' as int]
  const CWD: seq<byte> := ['C' as int, 'W' as int, 'D' as int]
  const RNFR: seq<byte> := ['R' as int, 'N' as int, 'F' as int, 'R' as int]
  const RNTO: seq<byte> := ['R' as int, 'N' as int, 'T' as int, 'O' as int]
  const QUIT: seq<byte> := ['Q' as int, 'U' as int, 'I' as int, 'T' as int]

  /** A keyword, a space and an argument, then CR LF. */
  function WithArgument(verb: seq<byte>, arg: seq<byte>): seq<byte>
  {
    verb + [SPACE] + arg + CRLF
  }

  /** The six decimal fields `h1,h2,h3,h4,p1,p2` of a PORT argument (section 4.1.2 of RFC 959). */
  function PortPieces(ip: Ipv4, port: u16): seq<seq<byte>>
  {
    Numerals([ip.a, ip.b, ip.c, ip.d, port / 256, port % 256])
  }

  /** The line a client sends for `c`, in the form the tests of the parser use. */
  function Unparse(c: Command): seq<byte>
  {
    match c
    case Port(ip, port) => WithArgument(PORT, JoinWithComma(PortPieces(ip, port)))
    case List(p) => WithArgument(LIST, p)
    case Retr(p) => WithArgument(RETR, p)
    case User(n) => WithArgument(USER, n)
    case Password(p) => WithArgument(PASS, p)
    case CurrentDirectory => PWD + CRLF
    case Store(p) => WithArgument(STOR, p)
    case Passive => PASV + CRLF
    case Mkdir(p) => WithArgument(MKD, p)
    case Delete(p) => WithArgument(DELE, p)
    case RemoveDirectory(p) => WithArgument(RMD, p)
    case ChangeDirectory(p) => WithArgument(CWD, p)
    case RenameFrom(p) => WithArgument(RNFR, p)
    case RenameTo(p) => WithArgument(RNTO, p)
    case Quit => QUIT + CRLF
  }

  /**
   * The commands a line can carry: text arguments are UTF-8, and the three-letter keywords
   * need a non-empty argument because the parser wants more than six bytes.
   */
  predicate WellFormed(c: Command)
  {
    match c
    case Port(_, _) => true
    case CurrentDirectory => true
    case Passive => true
    case Quit => true
    case Mkdir(p) => ValidUtf8(p) && p != []
    case RemoveDirectory(p) => ValidUtf8(p) && p != []
    case ChangeDirectory(p) => ValidUtf8(p) && p != []
    case List(p) => ValidUtf8(p)
    case Retr(p) => ValidUtf8(p)
    case User(n) => ValidUtf8(n)
    case Password(p) => ValidUtf8(p)
    case Store(p) => ValidUtf8(p)
    case Delete(p) => ValidUtf8(p)
    case RenameFrom(p) => ValidUtf8(p)
    case RenameTo(p) => ValidUtf8(p)
  }

  /** The argument of a keyword line is what lies between the space and the CR. */
  lemma WithArgumentParts(verb: seq<byte>, arg: seq<byte>)
    ensures var line := WithArgument(verb, arg);
      && |line| == |verb| + 3 + |arg|
      && line[..|verb|] == verb
      && line[|verb|] == SPACE
      && line[|verb| + 1..|line| - 2] == arg
      && line[|line| - 2] == CR && line[|line| - 1] == LF
  {
    var line := WithArgument(verb, arg);
    assert line[..|verb|] == verb;
    assert line[|verb| + 1..|line| - 2] == arg;
  }

  lemma ParseRetrLine(p: seq<byte>)
    requires ValidUtf8(p)
    ensures Parse(WithArgument(RETR, p)) == Parsed(Retr(p))
  {
    var line := WithArgument(RETR, p);
    WithArgumentParts(RETR, p);
    assert line[2..4] == KwTr;
  }

  lemma ParseStorLine(p: seq<byte>)
    requires ValidUtf8(p)
    ensures Parse(WithArgument(STOR, p)) == Parsed(Store(p))
  {
    var line := WithArgument(STOR, p);
    WithArgumentParts(STOR, p);
    assert line[1..4] == KwTor;
  }

  lemma ParseDeleLine(p: seq<byte>)
    requires ValidUtf8(p)
    ensures Parse(WithArgument(DELE, p)) == Parsed(Delete(p))
  {
    var line := WithArgument(DELE, p);
    WithArgumentParts(DELE, p);
    assert line[1..4] == KwEle;
  }

  lemma ParseMkdLine(p: seq<byte>)
    requires ValidUtf8(p) && p != []
    ensures Parse(WithArgument(MKD, p)) == Parsed(Mkdir(p))
  {
    var line := WithArgument(MKD, p);
    WithArgumentParts(MKD, p);
    assert line[1..3] == KwKd;
  }

  lemma ParseCwdLine(p: seq<byte>)
    requires ValidUtf8(p) && p != []
    ensures Parse(WithArgument(CWD, p)) == Parsed(ChangeDirectory(p))
  {
    var line := WithArgument(CWD, p);
    WithArgumentParts(CWD, p);
    assert line[1..3] == KwWd;
  }

  lemma ParseRmdLine(p: seq<byte>)
    requires ValidUtf8(p) && p != []
    ensures Parse(WithArgument(RMD, p)) == Parsed(RemoveDirectory(p))
  {
    var line := WithArgument(RMD, p);
    WithArgumentParts(RMD, p);
    assert line[2..3] == KwD;
  }

  lemma ParseRnfrLine(p: seq<byte>)
    requires ValidUtf8(p)
    ensures Parse(WithArgument(RNFR, p)) == Parsed(RenameFrom(p))
  {
    var line := WithArgument(RNFR, p);
    WithArgumentParts(RNFR, p);
    assert line[3..4] == KwR;
  }

  lemma ParseRntoLine(p: seq<byte>)
    requires ValidUtf8(p)
    ensures Parse(WithArgument(RNTO, p)) == Parsed(RenameTo(p))
  {
    var line := WithArgument(RNTO, p);
    WithArgumentParts(RNTO, p);
    assert line[3..4] == KwO;
  }

  lemma ParseListLine(p: seq<byte>)
    requires ValidUtf8(p)
    ensures Parse(WithArgument(LIST, p)) == Parsed(List(p))
  {
    var line := WithArgument(LIST, p);
    WithArgumentParts(LIST, p);
    assert line[1..4] == KwIst;
  }

  lemma ParseUserLine(p: seq<byte>)
    requires ValidUtf8(p)
    ensures Parse(WithArgument(USER, p)) == Parsed(User(p))
  {
    var line := WithArgument(USER, p);
    WithArgumentParts(USER, p);
    assert line[1..4] == KwSer;
  }

  lemma ParsePassLine(p: seq<byte>)
    requires ValidUtf8(p)
    ensures Parse(WithArgument(PASS, p)) == Parsed(Password(p))
  {
    var line := WithArgument(PASS, p);
    WithArgumentParts(PASS, p);
  }

  /** Every well-formed command reads back from the line a client sends for it. */
  lemma ParseUnparse(c: Command)
    requires WellFormed(c)
    ensures Parse(Unparse(c)) == Parsed(c)
  {
    match c
    case Port(ip, port) => ParsePortUnparse(ip, port);
    case CurrentDirectory =>
      assert Unparse(c) == [80, 87, 68, 13, 10];
    case Passive =>
      assert Unparse(c) == [80, 65, 83, 86, 13, 10];
    case Quit =>
      assert Unparse(c)[1..4] == KwUit;
    case Retr(p) => ParseRetrLine(p);
    case Store(p) => ParseStorLine(p);
    case Delete(p) => ParseDeleLine(p);
    case Mkdir(p) => ParseMkdLine(p);
    case ChangeDirectory(p) => ParseCwdLine(p);
    case RemoveDirectory(p) => ParseRmdLine(p);
    case RenameFrom(p) => ParseRnfrLine(p);
    case RenameTo(p) => ParseRntoLine(p);
    case List(p) => ParseListLine(p);
    case User(p) => ParseUserLine(p);
    case Password(p) => ParsePassLine(p);
  }

  /** A line the parser hands to the PORT field walk: `PORT `, an argument, CR LF. */
  predicate IsPortLine(line: seq<byte>)
  {
    |line| > 6 && line[..5] == PORT + [SPACE] && line[|line| - 2] == CR && line[|line| - 1] == LF
  }

  /** The comma-separated pieces of the argument of a PORT line. */
  function PortArgumentPieces(line: seq<byte>): seq<seq<byte>>
    requires IsPortLine(line)
  {
    SplitOnComma(line[5..|line| - 2])
  }

  /** The outcome of the PORT branch for the reference read of its pieces. */
  function PortRead(r: PieceRead): ParseResult
    requires r.Read? ==> |r.values| == 6
  {
    match r
    case RanOff => OutOfBounds
    case Bad(j) => Rejected(if j >= 4 then InvalidPort else InvalidIpv4)
    case Read(vs, atEnd) =>
      if !atEnd then Rejected(BadPortFormat)
      else Parsed(PortCommandOf(vs))
  }

  lemma PortOutcomeAsRead(w: FieldWalk, r: PieceRead, len: nat)
    requires AsRead(w, len) == r && (r.Read? ==> |r.values| == 6)
    ensures PortOutcome(w, len) == PortRead(r)
  {
  }

  /** The PORT branch is the reference read of the six fields from the comma-separated pieces of the argument. */
  lemma ParsePortLine(line: seq<byte>)
    requires IsPortLine(line)
    ensures Parse(line) == PortRead(ReadPieces(PortArgumentPieces(line), 6, 0))
  {
    PortWalkReads(line);
    ParsePortBranch(line);
    assert ParseP(line) == PortOutcome(WalkFields(line, 0, 5), |line|);
  }

  /** A PORT line goes to the `P` branch, with the bytes that lead it to the field walk. */
  lemma ParsePortBranch(line: seq<byte>)
    requires IsPortLine(line)
    ensures Parse(line) == ParseP(line)
    ensures line[1] == 'O' as int && line[2..4] == KwRt && line[4] == SPACE
  {
    assert line[0] == 'P' as int && line[1] == 'O' as int && line[4] == SPACE by {
      assert line[..5][0] == line[0] && line[..5][1] == line[1] && line[..5][4] == line[4];
    }
    assert line[2..4] == KwRt by {
      assert line[2..4] == line[..5][2..4];
    }
  }

  /** The field walk of a PORT line ends as the reference read of its pieces. */
  lemma PortWalkReads(line: seq<byte>)
    requires IsPortLine(line)
    ensures PortOutcome(WalkFields(line, 0, 5), |line|) == PortRead(ReadPieces(PortArgumentPieces(line), 6, 0))
  {
    DecimalU8Empty();
    WalkBySplit(DecimalU8, line, 0, 6, 5, PortArgumentPieces(line));
    PortOutcomeAsRead(WalkFields(line, 0, 5), ReadPieces(PortArgumentPieces(line), 6, 0), |line|);
  }

  /** The PORT command of six field values: four address bytes, then `p1 * 256 + p2`. */
  function PortCommandOf(vs: seq<byte>): Command
    requires |vs| == 6
  {
    Port(Ipv4(vs[0], vs[1], vs[2], vs[3]), vs[4] as int * 256 + vs[5] as int)
  }

  /**
   * A PORT line is accepted exactly when its argument has six comma-separated fields, each at
   * most three decimal digits worth at most 255; their values give the address and the port.
   */
  lemma ParsePortAccepts(line: seq<byte>)
    requires IsPortLine(line)
    ensures var fs := PortArgumentPieces(line);
      && (Parse(line).Parsed? <==> |fs| == 6 && AllBytes(fs))
      && (|fs| == 6 && AllBytes(fs) ==> Parse(line) == Parsed(PortCommandOf(ByteValues(fs))))
  {
    ParsePortLine(line);
    ReadExact(PortArgumentPieces(line), 6, 0);
  }

  /** The field walk runs off the buffer exactly when the argument holds at most three fields, all of them bytes. */
  lemma ParsePortOutOfBounds(line: seq<byte>)
    requires IsPortLine(line)
    ensures var fs := PortArgumentPieces(line);
      Parse(line) == OutOfBounds <==> |fs| <= 3 && AllBytes(fs)
  {
    ParsePortLine(line);
    ReadRunsOff(PortArgumentPieces(line), 6, 0);
  }

  /** The first of the six fields that is not a byte decides the message: address or port. */
  lemma ParsePortBadField(line: seq<byte>, b: nat)
    requires IsPortLine(line)
    requires var fs := PortArgumentPieces(line);
      b < 6 && b < |fs| && DecimalU8(fs[b]).None? && AllBytes(fs[..b])
    ensures Parse(line) == Rejected(if b >= 4 then InvalidPort else InvalidIpv4)
  {
    ParsePortLine(line);
    ReadStopsAt(PortArgumentPieces(line), 6, 0, b);
  }

  /** Fields that are all bytes but four, five, or more than six of them give the format error. */
  lemma ParsePortBadFormat(line: seq<byte>)
    requires IsPortLine(line)
    ensures var fs := PortArgumentPieces(line);
      var k := if |fs| < 6 then |fs| else 6;
      Parse(line) == Rejected(BadPortFormat) <==> 4 <= |fs| && |fs| != 6 && AllBytes(fs[..k])
  {
    ParsePortLine(line);
    ReadBadFormat(PortArgumentPieces(line));
  }

  /** `ParsePortBadFormat` for the reference read of the pieces. */
  lemma ReadBadFormat(fs: seq<seq<byte>>)
    ensures var k := if |fs| < 6 then |fs| else 6;
      PortRead(ReadPieces(fs, 6, 0)) == Rejected(BadPortFormat) <==> 4 <= |fs| && |fs| != 6 && AllBytes(fs[..k])
  {
    var k := if |fs| < 6 then |fs| else 6;
    var r := ReadPieces(fs, 6, 0);
    ReadExact(fs, 6, 0);
    ReadRunsOff(fs, 6, 0);
    ReadBad(fs, 6, 0);
    assert AllBytes(fs[..k]) && |fs| <= 6 ==> AllBytes(fs) by {
      if |fs| <= 6 { assert fs[..k] == fs; }
    }
  }

  /** The canonical PORT line reads back as its address and port. */
  lemma ParsePortUnparse(ip: Ipv4, port: u16)
    ensures Parse(Unparse(Port(ip, port))) == Parsed(Port(ip, port))
  {
    var line := Unparse(Port(ip, port));
    PortLinePieces(ip, port);
    ParsePortAccepts(line);
    PortPiecesValues(ip, port);
  }

  /** The argument of the canonical PORT line splits back into its six numerals. */
  lemma PortLinePieces(ip: Ipv4, port: u16)
    ensures IsPortLine(Unparse(Port(ip, port)))
    ensures PortArgumentPieces(Unparse(Port(ip, port))) == PortPieces(ip, port)
  {
    var fs := PortPieces(ip, port);
    var line := Unparse(Port(ip, port));
    WithArgumentParts(PORT, JoinWithComma(fs));
    assert line[..5] == PORT + [SPACE];
    NumeralsRead([ip.a, ip.b, ip.c, ip.d, port / 256, port % 256]);
    SplitJoin(fs);
  }

  /** The six numerals read as the address bytes and the two halves of the port. */
  lemma PortPiecesValues(ip: Ipv4, port: u16)
    ensures AllBytes(PortPieces(ip, port))
    ensures PortCommandOf(ByteValues(PortPieces(ip, port))) == Port(ip, port)
  {
    NumeralsRead([ip.a, ip.b, ip.c, ip.d, port / 256, port % 256]);
  }

  /** A line that starts with `verb` and a space and ends in CR LF is that keyword line. */
  lemma ReassembleLine(line: seq<byte>, verb: seq<byte>)
    requires |line| >= |verb| + 3 && line[|verb|] == SPACE
    requires forall k | 0 <= k < |verb| :: line[k] == verb[k]
    requires line[|line| - 2] == CR && line[|line| - 1] == LF
    ensures line == WithArgument(verb, line[|verb| + 1..|line| - 2])
  {
    var w := WithArgument(verb, line[|verb| + 1..|line| - 2]);
    WithArgumentParts(verb, line[|verb| + 1..|line| - 2]);
    assert forall k | 0 <= k < |line| :: line[k] == w[k] by {
      forall k | 0 <= k < |line| ensures line[k] == w[k] {
        if k < |verb| {
          assert w[..|verb|][k] == w[k];
        } else if |verb| < k < |line| - 2 {
          assert w[|verb| + 1..|line| - 2][k - |verb| - 1] == w[k];
        }
      }
    }
  }

  lemma ParsedRetrIsCanonical(line: seq<byte>, c: Command)
    requires Parse(line) == Parsed(c) && c.Retr?
    ensures WellFormed(c) && line == Unparse(c)
  {
    assert line[2..4] == KwTr;
    assert line[2..4][0] == line[2] && line[2..4][1] == line[3];
    ReassembleLine(line, RETR);
  }

  lemma ParsedStorIsCanonical(line: seq<byte>, c: Command)
    requires Parse(line) == Parsed(c) && c.Store?
    ensures WellFormed(c) && line == Unparse(c)
  {
    assert line[1..4] == KwTor;
    assert line[1..4][0] == line[1] && line[1..4][1] == line[2] && line[1..4][2] == line[3];
    ReassembleLine(line, STOR);
  }

  lemma ParsedDeleIsCanonical(line: seq<byte>, c: Command)
    requires Parse(line) == Parsed(c) && c.Delete?
    ensures WellFormed(c) && line == Unparse(c)
  {
    assert line[1..4] == KwEle;
    assert line[1..4][0] == line[1] && line[1..4][1] == line[2] && line[1..4][2] == line[3];
    ReassembleLine(line, DELE);
  }

  lemma ParsedMkdIsCanonical(line: seq<byte>, c: Command)
    requires Parse(line) == Parsed(c) && c.Mkdir?
    ensures WellFormed(c) && line == Unparse(c)
  {
    assert line[1..3] == KwKd;
    assert line[1..3][0] == line[1] && line[1..3][1] == line[2];
    ReassembleLine(line, MKD);
  }

  lemma ParsedCwdIsCanonical(line: seq<byte>, c: Command)
    requires Parse(line) == Parsed(c) && c.ChangeDirectory?
    ensures WellFormed(c) && line == Unparse(c)
  {
    assert line[1..3] == KwWd;
    assert line[1..3][0] == line[1] && line[1..3][1] == line[2];
    ReassembleLine(line, CWD);
  }

  lemma ParsedRmdIsCanonical(line: seq<byte>, c: Command)
    requires Parse(line) == Parsed(c) && c.RemoveDirectory?
    ensures WellFormed(c) && line == Unparse(c)
  {
    assert line[2..3] == KwD;
    assert line[2..3][0] == line[2];
    ReassembleLine(line, RMD);
  }

  lemma ParsedRnfrIsCanonical(line: seq<byte>, c: Command)
    requires Parse(line) == Parsed(c) && c.RenameFrom?
    ensures WellFormed(c) && line == Unparse(c)
  {
    assert line[3..4] == KwR;
    assert line[3..4][0] == line[3];
    ReassembleLine(line, RNFR);
  }

  lemma ParsedRntoIsCanonical(line: seq<byte>, c: Command)
    requires Parse(line) == Parsed(c) && c.RenameTo?
    ensures WellFormed(c) && line == Unparse(c)
  {
    assert line[3..4] == KwO;
    assert line[3..4][0] == line[3];
    ReassembleLine(line, RNTO);
  }

  lemma ParsedListIsCanonical(line: seq<byte>, c: Command)
    requires Parse(line) == Parsed(c) && c.List?
    ensures WellFormed(c)
    ensures line == Unparse(c) || (c == List(CurrentDir) && line == LIST + CRLF)
  {
    assert line[0] == 'L' as int && Parse(line) == ParseList(line);
    ListLineIsCanonical(line, c);
  }

  /** `ParsedListIsCanonical` on the `L` branch. */
  lemma ListLineIsCanonical(line: seq<byte>, c: Command)
    requires |line| >= 3 && line[|line| - 2] == CR && line[|line| - 1] == LF && line[0] == 'L' as int
    requires ParseList(line) == Parsed(c)
    ensures WellFormed(c)
    ensures line == Unparse(c) || (c == List(CurrentDir) && line == LIST + CRLF)
  {
    assert line[1..4] == KwIst;
    assert line[1..4][0] == line[1] && line[1..4][1] == line[2] && line[1..4][2] == line[3];
    if |line| == 6 {
      assert line == LIST + CRLF;
      AsciiBytesValid(CurrentDir);
    } else {
      ReassembleLine(line, LIST);
    }
  }

  lemma ParsedUserIsCanonical(line: seq<byte>, c: Command)
    requires Parse(line) == Parsed(c) && c.User?
    ensures WellFormed(c) && line == Unparse(c)
  {
    assert line[1..4] == KwSer;
    assert line[1..4][0] == line[1] && line[1..4][1] == line[2] && line[1..4][2] == line[3];
    ReassembleLine(line, USER);
  }

  lemma ParsedPassIsCanonical(line: seq<byte>, c: Command)
    requires Parse(line) == Parsed(c) && c.Password?
    ensures WellFormed(c) && line == Unparse(c)
  {
    ReassembleLine(line, PASS);
  }

  /**
   * Every command the parser accepts is well formed, and apart from `PORT` (whose fields may
   * carry leading zeros), `QUIT` (whose line may go on after the keyword) and the bare `LIST`,
   * it came from exactly the line a client sends for it.
   */
  lemma ParsedIsCanonical(line: seq<byte>, c: Command)
    requires Parse(line) == Parsed(c) && !c.Port? && !c.Quit?
    ensures WellFormed(c)
    ensures line == Unparse(c) || (c == List(CurrentDir) && line == LIST + CRLF)
  {
    match c
    case CurrentDirectory =>
      assert line == PWD + CRLF;
    case Passive =>
      assert line == PASV + CRLF;
    case Retr(_) => ParsedRetrIsCanonical(line, c);
    case Store(_) => ParsedStorIsCanonical(line, c);
    case Delete(_) => ParsedDeleIsCanonical(line, c);
    case Mkdir(_) => ParsedMkdIsCanonical(line, c);
    case ChangeDirectory(_) => ParsedCwdIsCanonical(line, c);
    case RemoveDirectory(_) => ParsedRmdIsCanonical(line, c);
    case RenameFrom(_) => ParsedRnfrIsCanonical(line, c);
    case RenameTo(_) => ParsedRntoIsCanonical(line, c);
    case List(_) => ParsedListIsCanonical(line, c);
    case User(_) => ParsedUserIsCanonical(line, c);
    case Password(_) => ParsedPassIsCanonical(line, c);
  }

  /** A line must be longer than two bytes and end in CR LF; otherwise the first two checks reject it. */
  lemma ParseRejectsUnframed(line: seq<byte>)
    ensures |line| <= 2 ==> Parse(line) == Rejected(TooShort)
    ensures |line| > 2 && (line[|line| - 1] != LF || line[|line| - 2] != CR) ==> Parse(line) == Rejected(NoCrlf)
    ensures !Parse(line).Rejected? ==> |line| >= 5 && line[|line| - 2] == CR && line[|line| - 1] == LF
  {
  }

  /** `QUIT` is accepted with anything between the keyword and the CR LF. */
  lemma ParseQuit(line: seq<byte>)
    ensures Parse(line) == Parsed(Quit) <==>
      |line| >= 5 && line[..4] == QUIT && line[|line| - 2] == CR && line[|line| - 1] == LF
  {
    if |line| >= 5 {
      assert line[..4] == QUIT <==> line[0] == 'Q' as int && line[1..4] == KwUit by {
        assert line[..4] == [line[0]] + line[1..4];
      }
    }
  }

  /** The only line that makes the parser index past its buffer is a PORT line. */
  lemma OutOfBoundsOnlyPort(line: seq<byte>)
    ensures Parse(line) == OutOfBounds ==> IsPortLine(line)
  {
    if Parse(line) == OutOfBounds {
      assert line[..5] == PORT + [SPACE] by {
        assert line[2..4] == KwRt;
        assert line[..5] == [line[0], line[1]] + line[2..4] + [line[4]];
      }
    }
  }
}
