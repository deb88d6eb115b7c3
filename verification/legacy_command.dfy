/**
 * The command parser of the earlier server (FTPserver/rust_server/ftp_server/src/ftp/command.rs):
 * only `LIST path` and `PORT h1,h2,h3,h4,p1,p2`, with the same field walk as the later parser.
 */
module LegacyCommand {
  import opened Ascii
  import opened Utf8
  import opened CommandFields
  import SC = ServerCommand

  datatype Command = Port(ip: SC.Ipv4, port: u16) | List(path: seq<byte>)

  datatype ParseResult = Parsed(command: Command) | Rejected(message: string) | OutOfBounds

  /** The message of the CR LF check holds the two control characters themselves. */
  const NoCrlf: AsciiText := "All commands should finish with \r\n"

  /** `Command::try_from` of the earlier server. */
  function Parse(line: seq<byte>): ParseResult
  {
    if |line| <= 2 then Rejected(SC.TooShort)
    else if line[|line| - 1] != LF || line[|line| - 2] != CR then Rejected(NoCrlf)
    else if line[0] == 'L' as int then
      if |line| <= 6 then Rejected(SC.InvalidLength)
      else if line[1..4] != SC.KwIst then Rejected(SC.DidYouMeanList)
      else if line[4] != SPACE then Rejected(SC.ExpectedSpace)
      else if !ValidUtf8(line[5..|line| - 2]) then Rejected(SC.ExpectedUtf8)
      else Parsed(List(line[5..|line| - 2]))
    else if line[0] == 'P' as int then ParsePort(line)
    else Rejected(SC.NoSuchCommand)
  }

  /** The `P` branch: the keyword, the space, then the shared PORT field walk. */
  function ParsePort(line: seq<byte>): ParseResult
    requires |line| >= 3
  {
    if |line| <= 6 then Rejected(SC.InvalidLength)
    else if line[1..4] != SC.PORT[1..] then Rejected(SC.DidYouMeanPort)
    else if line[4] != SPACE then Rejected(SC.ExpectedSpace)
    else FromServer(SC.PortOutcome(WalkFields(line, 0, 5), |line|))
  }

  /** The later parser's outcome of the shared PORT walk, in this parser's terms. */
  function FromServer(r: SC.ParseResult): ParseResult
    requires r.Parsed? ==> r.command.Port?
  {
    match r
    case Parsed(c) => Parsed(Port(c.ip, c.port))
    case Rejected(m) => Rejected(m)
    case OutOfBounds => OutOfBounds
  }

  /** This parser's commands as the later parser's. */
  function ToServer(c: Command): SC.Command
  {
    match c
    case Port(ip, port) => SC.Port(ip, port)
    case List(p) => SC.List(p)
  }

  /** Both parsers treat every PORT line alike: same address and port, same messages, same panic. */
  lemma PortLinesAgree(line: seq<byte>)
    requires SC.IsPortLine(line)
    ensures Parse(line).Parsed? <==> SC.Parse(line).Parsed?
    ensures Parse(line).Parsed? ==> ToServer(Parse(line).command) == SC.Parse(line).command
    ensures Parse(line).Rejected? <==> SC.Parse(line).Rejected?
    ensures Parse(line).Rejected? ==> Parse(line).message == SC.Parse(line).message
    ensures Parse(line).OutOfBounds? <==> SC.Parse(line).OutOfBounds?
  {
    var w := SC.PortOutcome(WalkFields(line, 0, 5), |line|);
    SC.ParsePortBranch(line);
    assert SC.Parse(line) == w by {
      assert SC.ParseP(line) == w;
    }
    PortBranch(line);
  }

  /** A PORT line goes to this parser's `P` branch and so to the shared field walk. */
  lemma PortBranch(line: seq<byte>)
    requires SC.IsPortLine(line)
    ensures Parse(line) == FromServer(SC.PortOutcome(WalkFields(line, 0, 5), |line|))
  {
    PortLineBytes(line);
    assert Parse(line) == ParsePort(line);
  }

  /** The bytes of a PORT line that lead this parser to the field walk. */
  lemma PortLineBytes(line: seq<byte>)
    requires SC.IsPortLine(line)
    ensures line[0] == 'P' as int && line[1..4] == SC.PORT[1..] && line[4] == SPACE
  {
    assert line[..5][0] == line[0] && line[..5][4] == line[4];
    assert line[1..4] == line[..5][1..4];
  }

  /** The canonical `LIST path` and PORT lines read back; the bare `LIST` is refused for its length. */
  lemma ParseUnparse(c: Command)
    requires c.List? ==> ValidUtf8(c.path)
    ensures Parse(SC.Unparse(ToServer(c))) == Parsed(c)
  {
    match c
    case Port(ip, port) =>
      SC.PortLinePieces(ip, port);
      SC.ParsePortUnparse(ip, port);
      PortLinesAgree(SC.Unparse(ToServer(c)));
    case List(p) =>
      var line := SC.Unparse(ToServer(c));
      SC.WithArgumentParts(SC.LIST, p);
      assert line[1..4] == SC.KwIst;
  }

  /** Unlike the later parser, a `LIST` without an argument is too short here. */
  lemma BareListRefused()
    ensures Parse(SC.LIST + CRLF) == Rejected(SC.InvalidLength)
    ensures SC.Parse(SC.LIST + CRLF) == SC.Parsed(SC.List(SC.CurrentDir))
  {
    var line := SC.LIST + CRLF;
    assert |line| == 6;
    assert line[1..4] == SC.KwIst;
  }

  /** Every command this parser accepts, the later parser accepts as the same command. */
  lemma LaterParserAccepts(line: seq<byte>)
    requires Parse(line).Parsed?
    ensures SC.Parse(line) == SC.Parsed(ToServer(Parse(line).command))
  {
    if line[0] == 'P' as int {
      PortLineAgrees(line);
    } else {
      ListLinesAgree(line);
    }
  }

  /** A PORT line this parser accepts is the later parser's PORT of the same address and port. */
  lemma PortLineAgrees(line: seq<byte>)
    requires Parse(line).Parsed? && line[0] == 'P' as int
    ensures SC.Parse(line) == SC.Parsed(ToServer(Parse(line).command))
  {
    assert line[..5] == SC.PORT + [SPACE] by {
      assert line[..5] == [line[0]] + line[1..4] + [line[4]];
    }
    PortLinesAgree(line);
  }

  /** A LIST line this parser accepts is the later parser's LIST of the same path. */
  lemma ListLinesAgree(line: seq<byte>)
    requires Parse(line).Parsed? && line[0] == 'L' as int
    ensures SC.Parse(line) == SC.Parsed(SC.List(line[5..|line| - 2]))
  {
    assert line[1..4] == SC.KwIst && line[4] == SPACE && |line| > 6;
  }
}
