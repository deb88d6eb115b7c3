/**
 * The read side of a connection (ftp_server/src/ftp/handler_read.rs): a control connection
 * reads one command line and answers it, and a passive listener accepts its data connection.
 *
 * `HandlerRead` keeps the handler's token, the shared table and its own action list; the
 * connection's `RequestType` is handed in by value and the handler returns what it becomes,
 * which the caller writes back into the locked context. What the operating system answers
 * (the bytes read, the file system, whether a file opens, a connect, an accept) is the
 * `ReadEnv` parameter. Every method is proved equal to a pure step function, and the
 * properties of a read are lemmas about those functions.
 */
module ServerHandlerRead {
  import opened Ascii
  import opened Wrappers
  import opened Utf8
  import opened FsPaths
  import opened ServerState
  import SC = ServerCommand
  import RC = ReplyCodes

  /** The size of the read buffer; a read that fills it is refused. */
  const ReadBufferSize: nat := 10024

  /** The directory RETR serves from, `format!("{}/{}", ROOT, "username")`. */
  const RetrBaseText: string := "./root/username"

  function RetrBase(): (r: seq<byte>)
    ensures |r| > 0 && !IsAbsolute(r) && Pieces(r)[0] == [DOT]
  {
    var r := AsciiBytes(RetrBaseText);
    assert r == [DOT] + AsciiBytes("/root/username");
    PiecesConcat([DOT], AsciiBytes("/root/username"));
    NoSlashOnePiece([DOT]);
    r
  }

  const BadSequence: AsciiText := Join("Bad sequence of", " commands.")
  const NoAccess: AsciiText := Join(Join(Join("Requested action", " not taken. File"), " unavailable, no"), " access.")
  const FileNotFound: AsciiText := Join(Join(Join("Requested action", " not taken. File"), " unavailable, file"), " not found.")
  const DownloadStarts: AsciiText := "File download starts!"
  const AboutToOpen: AsciiText := Join(Join("File status okay;", " about to open data"), " connection.")
  const CantOpenData: AsciiText := Join("Can't open data", " connection.")
  const CommandOkay: AsciiText := "Command okay."
  const QuitText: AsciiText := Join("Service closing", " control connection.")
  /** QUIT writes its reply as one literal line rather than through `create_response`. */
  const QuitLine: AsciiText := "221 " + QuitText + "\r\n"

  /** Every message the parser can reject a line with. */
  const Messages: set<string> := {
    SC.TooShort, SC.NoCrlf, SC.InvalidLength, SC.InvalidLengthUser, SC.InvalidCommand,
    SC.ExpectedSpace, SC.ExpectedSpaceShort, SC.ExpectedUtf8, SC.ExpectedAscii,
    SC.DidYouMeanQuit, SC.DidYouMeanList, SC.DidYouMeanPort, SC.DidYouMeanUser,
    SC.UnknownCommand, SC.UnknownR, SC.UnknownPa, SC.BadLength, SC.InvalidIpv4,
    SC.InvalidPort, SC.BadPortFormat, SC.NoSuchCommand}

  /** The parser's messages are ASCII, so they can go into a reply line as they are. */
  lemma MessagesAscii(msg: string)
    requires msg in Messages
    ensures IsAsciiText(msg)
  {
  }

  /** A rejected line is rejected with one of the parser's messages. */
  lemma RejectedIn(line: seq<byte>)
    ensures SC.Parse(line).Rejected? ==> SC.Parse(line).message in Messages
  {
  }

  /** What the operating system answers during one read. */
  datatype ReadEnv = ReadEnv(
    received: OsResult<seq<byte>>,   // `stream.read` on the control connection
    fs: FileSystem,                  // what `canonicalize` resolves against
    openedFile: Option<seq<byte>>,   // `File::open` of the canonical RETR target: its bytes
    connected: bool,                 // `TcpStream::connect` for PORT
    accepted: OsResult<()>)          // `listener.accept` on a passive listener

  /** What a read leaves: the connection's new `RequestType`, the table, the actions pushed, and the result. */
  datatype ReadEffect = ReadEffect(own: RequestType, table: Table, actions: seq<Action>, result: Io<Option<SessionUpdate>>)

  /**
   * What the caller guarantees: the connection is in the table under its token, the id handed
   * in is unused, a read never exceeds the buffer, and a control connection is not its own
   * data connection (the second lock of the same mutex would never return).
   */
  predicate ReadPre(token: Token, own: RequestType, m: Table, env: ReadEnv, nextId: Token)
  {
    && token in m && m[token].requestType == own
    && nextId != token && nextId !in m
    && (own.CommandTransfer? ==> own.data != Some(token))
    && (env.received.Gives? ==> |env.received.value| <= ReadBufferSize)
  }

  /** A control connection with a new reply to send. */
  function Answer(own: RequestType, line: seq<byte>): (r: RequestType)
    requires own.CommandTransfer?
    ensures r.CommandTransfer? && r.stream == own.stream && r.data == own.data
    ensures Sound(r.toWrite) && Pending(r.toWrite) == line && r.toWrite.callback == own.toWrite.callback
  {
    own.(toWrite := Reset(own.toWrite, line))
  }

  /** `handle_file_transfer_download`: a file transfer gets the file to send; anything else is NotFound. */
  function ArmDownload(rt: RequestType, file: File): (r: Option<RequestType>)
    ensures r.Some? <==> IsTransfer(rt)
    ensures r.Some? ==> (
      && IsTransfer(r.value) && r.value.stream == rt.stream && r.value.command == rt.command
      && r.value.transfer == FileDownload(file) && r.value.FileTransferActive? == rt.FileTransferActive?)
  {
    match rt
    case FileTransferPassive(stream, _, command) => Some(FileTransferPassive(stream, FileDownload(file), command))
    case FileTransferActive(stream, _, command) => Some(FileTransferActive(stream, FileDownload(file), command))
    case _ => None
  }

  /** `handle_read` as a step: what one read does. */
  function Read(token: Token, own: RequestType, m: Table, env: ReadEnv, nextId: Token): ReadEffect
    requires ReadPre(token, own, m, env, nextId)
  {
    match own
    case CommandTransfer(_, _, _) =>
      (match env.received
       case Fails(kind) => ReadEffect(own, m, [], IoError(kind))
       case Gives(line) =>
         if LF !in line then ReadEffect(own, m, [], Panicked)
         else if |line| >= ReadBufferSize then ReadEffect(own, m, [], IoError(Other))
         else
           match SC.Parse(line)
           case OutOfBounds => ReadEffect(own, m, [], Panicked)
           case Rejected(msg) =>
             RejectedIn(line);
             MessagesAscii(msg);
             ReadEffect(Answer(own, Reply(RC.BadSequenceOfCommands(), msg)), m, [Action(token, Writable)], Done(None))
           case Parsed(cmd) => CommandRead(token, own, m, env, nextId, cmd))
    case PassiveModePort(_, _) => AcceptRead(token, own, m, env.accepted, nextId)
    case _ => ReadEffect(own, m, [], Panicked)
  }

  /** What a parsed command does. */
  function CommandRead(token: Token, own: RequestType, m: Table, env: ReadEnv, nextId: Token, cmd: SC.Command): ReadEffect
    requires ReadPre(token, own, m, env, nextId) && own.CommandTransfer?
  {
    match cmd
    case Quit =>
      var rt := own.(toWrite := ResetStr(own.toWrite, QuitLine).(callback := Some(ShutdownControl)));
      ReadEffect(rt, m, [Action(token, Writable)], Done(None))
    case Retr(path) => RetrRead(token, own, m, env, path)
    case List(_) => ListRead(token, own, m)
    case Port(_, _) => PortRead(token, own, m, env.connected, nextId)
    case _ => ReadEffect(own, m, [], Done(Some(SessionUpdate(3, false))))
  }

  /** RETR: resolve the path under the served directory, then hand the file to the data connection. */
  function RetrRead(token: Token, own: RequestType, m: Table, env: ReadEnv, path: seq<byte>): ReadEffect
    requires own.CommandTransfer? && token in m && own.data != Some(token)
  {
    var acts := [Action(token, Writable)];
    if own.data.None? then ReadEffect(Answer(own, Reply(RC.BadSequenceOfCommands(), BadSequence)), m, acts, Done(None))
    else
      match Canonicalize(env.fs, RetrBase())
      case None => ReadEffect(own, m, acts, Panicked)
      case Some(root) =>
        if !ValidUtf8(Display(root)) then ReadEffect(own, m, acts, Panicked)
        else
          match Canonicalize(env.fs, Push(Display(root), path))
          case None => ReadEffect(Answer(own, Reply(RC.FileUnavailable(), FileNotFound)), m, acts, Done(None))
          case Some(target) =>
            if !StartsWith(Display(target), Display(root)) then
              ReadEffect(Answer(own, Reply(RC.FileUnavailable(), NoAccess)), m, acts, Done(None))
            else if env.openedFile.None? then
              ReadEffect(Answer(own, Reply(RC.FileUnavailable(), FileNotFound)), m, acts, Done(None))
            else
              var d := own.data.value;
              var taken := own.(data := None);
              if d !in m then ReadEffect(Answer(taken, Reply(RC.FileUnavailable(), NoAccess)), m, acts, Done(None))
              else
                match ArmDownload(m[d].requestType, File(env.openedFile.value, 0))
                case None => ReadEffect(Answer(taken, Reply(RC.FileUnavailable(), FileNotFound)), m, acts, Done(None))
                case Some(armed) =>
                  var rt := Answer(taken, Reply(RC.FileStatusOkay(), DownloadStarts));
                  ReadEffect(rt.(toWrite := rt.toWrite.(callback := Some(QueueTransfer(d)))),
                    m[d := m[d].(requestType := armed)], acts, Done(None))
  }

  /** LIST: with a data connection in the table, answer 150 and fill it once sent; otherwise 503 or 455. */
  function ListRead(token: Token, own: RequestType, m: Table): ReadEffect
    requires own.CommandTransfer?
  {
    var acts := [Action(token, Writable)];
    if own.data.None? then ReadEffect(Answer(own, Reply(RC.BadSequenceOfCommands(), BadSequence)), m, acts, Done(None))
    else
      var rt := Answer(own, Reply(RC.FileStatusOkay(), AboutToOpen));
      if own.data.value in m then ReadEffect(rt.(toWrite := rt.toWrite.(callback := Some(FillListing(own.data.value)))), m, acts, Done(None))
      else ReadEffect(Answer(rt, Reply(RC.CantOpenDataConnection(), CantOpenData)), m, acts, Done(None))
  }

  /** PORT: connect to the client; on success the new active data connection is stored under the fresh id. */
  function PortRead(token: Token, own: RequestType, m: Table, connected: bool, nextId: Token): ReadEffect
    requires own.CommandTransfer? && token in m
  {
    var acts := [Action(token, Writable)];
    if !connected then ReadEffect(Answer(own, Reply(RC.BadSequenceOfCommands(), BadSequence)), m, acts, Done(None))
    else
      ReadEffect(Answer(own.(data := Some(nextId)), Reply(RC.CommandOkay(), CommandOkay)),
        m[nextId := NewContext(FileTransferActive(Open, Buffer(DefaultBuffer()), token))], acts, Done(None))
  }

  /** The passive data connection an accept stores. */
  function AcceptedContext(command: Token): RequestContext
  {
    NewContext(FileTransferPassive(Open, Buffer(NewBuffer([1])), command))
  }

  /**
   * A passive listener: accept the data connection, store it under the fresh id, drop the
   * listener, and tell the control connection (when it is one) that the data connection is set.
   */
  function AcceptRead(token: Token, own: RequestType, m: Table, accepted: OsResult<()>, nextId: Token): ReadEffect
    requires own.PassiveModePort? && nextId != token
  {
    if accepted.Fails? then ReadEffect(own, m, [], IoError(accepted.kind))
    else
      var cmd := own.command;
      var m1 := m[nextId := AcceptedContext(cmd)] - {token};
      if cmd in m1 && m1[cmd].requestType.CommandTransfer? then
        var ct := m1[cmd].requestType;
        var linked := ct.(data := Some(nextId), toWrite := Reset(ct.toWrite, Reply(RC.CommandOkay(), CommandOkay)));
        ReadEffect(own, m1[cmd := m1[cmd].(requestType := linked)], [Action(cmd, Writable)], Done(None))
      else ReadEffect(own, m1, [], Done(None))
  }

  /** The LIST arm, shared with the older handler: it only reads the table. */
  method ListArm(db: ConnectionDb, token: Token, own: RequestType) returns (rt: RequestType, acts: seq<Action>)
    requires own.CommandTransfer?
    ensures var e := ListRead(token, own, db.entries); rt == e.own && acts == e.actions
  {
    acts := [Action(token, Writable)];
    rt := own;
    if own.data.None? {
      rt := Answer(rt, Reply(RC.BadSequenceOfCommands(), BadSequence));
      return;
    }
    rt := Answer(rt, Reply(RC.FileStatusOkay(), AboutToOpen));
    var dataConnection := own.data.value;
    if dataConnection in db.entries {
      rt := rt.(toWrite := rt.toWrite.(callback := Some(FillListing(dataConnection))));
    } else {
      rt := Answer(rt, Reply(RC.CantOpenDataConnection(), CantOpenData));
    }
  }

  /** The PORT arm, shared with the older handler. */
  method PortArm(db: ConnectionDb, token: Token, own: RequestType, connected: bool, nextId: Token)
    returns (rt: RequestType, acts: seq<Action>)
    requires own.CommandTransfer? && token in db.entries
    modifies db
    ensures var e := PortRead(token, own, old(db.entries), connected, nextId);
      rt == e.own && acts == e.actions && db.entries == e.table
  {
    rt := own;
    acts := [Action(token, Writable)];
    if !connected {
      rt := Answer(rt, Reply(RC.BadSequenceOfCommands(), BadSequence));
      return;
    }
    rt := rt.(data := Some(nextId));
    rt := Answer(rt, Reply(RC.CommandOkay(), CommandOkay));
    db.entries := db.entries[nextId := NewContext(FileTransferActive(Open, Buffer(DefaultBuffer()), token))];
  }

  /** `HandlerRead`: the connection's token, the shared table, and the actions this read asks for. */
  class HandlerRead {
    const connectionToken: Token
    const connectionDb: ConnectionDb
    var actions: seq<Action>

    /** `HandlerRead::new`: no actions yet. */
    constructor (connectionToken: Token, connectionDb: ConnectionDb)
      ensures this.connectionToken == connectionToken && this.connectionDb == connectionDb && actions == []
    {
      this.connectionToken := connectionToken;
      this.connectionDb := connectionDb;
      actions := [];
    }

    /** `handle_read`: the read of one connection, as `Read` describes it. */
    method HandleRead(requestType: RequestType, env: ReadEnv, nextId: Token) returns (rt: RequestType, r: Io<Option<SessionUpdate>>)
      requires ReadPre(connectionToken, requestType, connectionDb.entries, env, nextId)
      modifies this, connectionDb
      ensures var e := Read(connectionToken, requestType, old(connectionDb.entries), env, nextId);
        rt == e.own && connectionDb.entries == e.table && actions == old(actions) + e.actions && r == e.result
    {
      rt := requestType;
      match requestType {
        case CommandTransfer(_, _, _) =>
          if env.received.Fails? {
            r := IoError(env.received.kind);
            return;
          }
          var line := env.received.value;
          if LF !in line {
            r := Panicked;
            return;
          }
          if |line| >= ReadBufferSize {
            r := IoError(Other);
            return;
          }
          match SC.Parse(line) {
            case OutOfBounds =>
              r := Panicked;
            case Rejected(message) =>
              RejectedIn(line);
              MessagesAscii(message);
              rt := Answer(rt, Reply(RC.BadSequenceOfCommands(), message));
              actions := actions + [Action(connectionToken, Writable)];
              r := Done(None);
            case Parsed(command) =>
              rt, r := HandleCommand(requestType, env, nextId, command);
          }
        case PassiveModePort(_, _) =>
          r := HandleAccept(requestType, env.accepted, nextId);
        case _ =>
          r := Panicked;
      }
    }

    /** The dispatch on a parsed command. */
    method HandleCommand(own: RequestType, env: ReadEnv, nextId: Token, command: SC.Command) returns (rt: RequestType, r: Io<Option<SessionUpdate>>)
      requires ReadPre(connectionToken, own, connectionDb.entries, env, nextId) && own.CommandTransfer?
      modifies this, connectionDb
      ensures var e := CommandRead(connectionToken, own, old(connectionDb.entries), env, nextId, command);
        rt == e.own && connectionDb.entries == e.table && actions == old(actions) + e.actions && r == e.result
    {
      rt := own;
      r := Done(None);
      ghost var m := connectionDb.entries;
      match command {
        case Quit =>
          rt := HandleQuit(own);
        case Retr(path) =>
          assert CommandRead(connectionToken, own, m, env, nextId, command) == RetrRead(connectionToken, own, m, env, path);
          rt, r := HandleRetr(own, env, path);
        case List(_) =>
          assert CommandRead(connectionToken, own, m, env, nextId, command) == ListRead(connectionToken, own, m);
          rt := HandleList(own);
        case Port(_, _) =>
          assert CommandRead(connectionToken, own, m, env, nextId, command) == PortRead(connectionToken, own, m, env.connected, nextId);
          rt := HandlePort(own, env.connected, nextId);
        case _ =>
          r := Done(Some(SessionUpdate(3, false)));
      }
    }

    /** QUIT: the farewell is queued with the callback that shuts the control connection once it is sent. */
    method HandleQuit(own: RequestType) returns (rt: RequestType)
      requires own.CommandTransfer?
      modifies this
      ensures rt == own.(toWrite := ResetStr(own.toWrite, QuitLine).(callback := Some(ShutdownControl)))
      ensures actions == old(actions) + [Action(connectionToken, Writable)]
    {
      actions := actions + [Action(connectionToken, Writable)];
      rt := own.(toWrite := ResetStr(own.toWrite, QuitLine));
      rt := rt.(toWrite := rt.toWrite.(callback := Some(ShutdownControl)));
    }

    /** LIST, as `ListRead` describes it. */
    method HandleList(own: RequestType) returns (rt: RequestType)
      requires own.CommandTransfer? && connectionToken in connectionDb.entries
      modifies this, connectionDb
      ensures var e := ListRead(connectionToken, own, old(connectionDb.entries));
        rt == e.own && connectionDb.entries == e.table && actions == old(actions) + e.actions
    {
      var acts;
      rt, acts := ListArm(connectionDb, connectionToken, own);
      actions := actions + acts;
    }

    /** PORT, as `PortRead` describes it. */
    method HandlePort(own: RequestType, connected: bool, nextId: Token) returns (rt: RequestType)
      requires own.CommandTransfer? && connectionToken in connectionDb.entries
      modifies this, connectionDb
      ensures var e := PortRead(connectionToken, own, old(connectionDb.entries), connected, nextId);
        rt == e.own && connectionDb.entries == e.table && actions == old(actions) + e.actions
    {
      var acts;
      rt, acts := PortArm(connectionDb, connectionToken, own, connected, nextId);
      actions := actions + acts;
    }

    /** The RETR arm. */
    method HandleRetr(own: RequestType, env: ReadEnv, path: seq<byte>) returns (rt: RequestType, r: Io<Option<SessionUpdate>>)
      requires own.CommandTransfer? && connectionToken in connectionDb.entries && own.data != Some(connectionToken)
      modifies this, connectionDb
      ensures var e := RetrRead(connectionToken, own, old(connectionDb.entries), env, path);
        rt == e.own && connectionDb.entries == e.table && actions == old(actions) + e.actions && r == e.result
    {
      rt := own;
      actions := actions + [Action(connectionToken, Writable)];
      if own.data.None? {
        rt := Answer(rt, Reply(RC.BadSequenceOfCommands(), BadSequence));
        r := Done(None);
        return;
      }
      var rootPath := Canonicalize(env.fs, RetrBase());
      if rootPath.None? {
        r := Panicked;
        return;
      }
      var trueBase := Display(rootPath.value);
      if !ValidUtf8(trueBase) {
        r := Panicked;
        return;
      }
      r := Done(None);
      var totalPath := Canonicalize(env.fs, Push(trueBase, path));
      if totalPath.None? {
        rt := Answer(rt, Reply(RC.FileUnavailable(), FileNotFound));
        return;
      }
      if !StartsWith(Display(totalPath.value), trueBase) {
        rt := Answer(rt, Reply(RC.FileUnavailable(), NoAccess));
        return;
      }
      if env.openedFile.None? {
        rt := Answer(rt, Reply(RC.FileUnavailable(), FileNotFound));
        return;
      }
      var tokenDataConn := rt.data.value;
      rt := rt.(data := None);
      if tokenDataConn !in connectionDb.entries {
        rt := Answer(rt, Reply(RC.FileUnavailable(), NoAccess));
        return;
      }
      var dataCtx := connectionDb.entries[tokenDataConn];
      var armed := ArmDownload(dataCtx.requestType, File(env.openedFile.value, 0));
      if armed.None? {
        rt := Answer(rt, Reply(RC.FileUnavailable(), FileNotFound));
      } else {
        connectionDb.entries := connectionDb.entries[tokenDataConn := dataCtx.(requestType := armed.value)];
        rt := Answer(rt, Reply(RC.FileStatusOkay(), DownloadStarts));
        rt := rt.(toWrite := rt.toWrite.(callback := Some(QueueTransfer(tokenDataConn))));
      }
    }

    /** The passive listener's accept. */
    method HandleAccept(own: RequestType, accepted: OsResult<()>, nextId: Token) returns (r: Io<Option<SessionUpdate>>)
      requires own.PassiveModePort? && nextId != connectionToken
      modifies this, connectionDb
      ensures var e := AcceptRead(connectionToken, own, old(connectionDb.entries), accepted, nextId);
        own == e.own && connectionDb.entries == e.table && actions == old(actions) + e.actions && r == e.result
    {
      if accepted.Fails? {
        r := IoError(accepted.kind);
        return;
      }
      var commandConn := own.command;
      var shared := AcceptedContext(commandConn);
      connectionDb.entries := connectionDb.entries[nextId := shared];
      connectionDb.entries := connectionDb.entries - {connectionToken};
      r := Done(None);
      if commandConn !in connectionDb.entries {
        return;
      }
      var cmdConnection := connectionDb.entries[commandConn];
      if cmdConnection.requestType.CommandTransfer? {
        var ct := cmdConnection.requestType;
        ct := ct.(data := Some(nextId));
        ct := ct.(toWrite := Reset(ct.toWrite, Reply(RC.CommandOkay(), CommandOkay)));
        connectionDb.entries := connectionDb.entries[commandConn := cmdConnection.(requestType := ct)];
        actions := actions + [Action(commandConn, Writable)];
      }
      if nextId in connectionDb.entries {
        assert connectionDb.entries[nextId] == shared;
      }
      connectionDb.entries := connectionDb.entries[nextId := shared];
    }
  }

  /** The line is read whole, fits the buffer and parses as `cmd`. */
  predicate ParsedLine(env: ReadEnv, cmd: SC.Command)
  {
    && env.received.Gives? && LF in env.received.value && |env.received.value| < ReadBufferSize
    && SC.Parse(env.received.value) == SC.Parsed(cmd)
  }

  /** A control connection whose buffer holds exactly the reply `code text`. */
  predicate Replied(rt: RequestType, code: nat, text: string)
  {
    rt.CommandTransfer? && Sound(rt.toWrite) && IsAsciiText(text) && Pending(rt.toWrite) == Reply(code, text)
  }

  /** The data connection `data` is a file transfer that belongs to the control connection `cmd`. */
  predicate Links(m: Table, cmd: Token, data: Token)
  {
    data in m && IsTransfer(m[data].requestType) && m[data].requestType.command == cmd
  }

  /** The reply line QUIT writes literally is the one `create_response` builds. */
  lemma QuitLineIsReply()
    ensures AsciiBytes(QuitLine) == Reply(RC.ClosingControlConnectionSuccess(), QuitText)
  {
    AsciiBytesConcat("221 ", QuitText);
    AsciiBytesConcat("221 " + QuitText, "\r\n");
    assert DecimalBytes(221) == [50, 50, 49] by {
      assert DecimalBytes(2) == [50];
      assert DecimalBytes(22) == [50, 50];
    }
    assert AsciiBytes("221 ") == DecimalBytes(221) + [SPACE];
    assert AsciiBytes("\r\n") == CRLF;
  }

  /**
   * The framing of a read: a failed read is passed up, a read without a line feed panics,
   * and a read that fills the buffer is refused as too big; none of them touches anything.
   */
  lemma ReadFraming(token: Token, own: RequestType, m: Table, env: ReadEnv, nextId: Token)
    requires ReadPre(token, own, m, env, nextId) && own.CommandTransfer?
    ensures var e := Read(token, own, m, env, nextId);
      && (env.received.Fails? ==> e == ReadEffect(own, m, [], IoError(env.received.kind)))
      && (env.received.Gives? && LF !in env.received.value ==> e == ReadEffect(own, m, [], Panicked))
      && (env.received.Gives? && LF in env.received.value && |env.received.value| == ReadBufferSize ==>
            e == ReadEffect(own, m, [], IoError(Other)))
  {
  }

  /** A line the parser rejects is answered 503 with the parser's message, and nothing else happens. */
  lemma RejectedLineAnswered(token: Token, own: RequestType, m: Table, env: ReadEnv, nextId: Token)
    requires ReadPre(token, own, m, env, nextId) && own.CommandTransfer?
    requires env.received.Gives? && LF in env.received.value && |env.received.value| < ReadBufferSize
    requires SC.Parse(env.received.value).Rejected?
    ensures var e := Read(token, own, m, env, nextId); var msg := SC.Parse(env.received.value).message;
      && msg in Messages
      && Replied(e.own, RC.BadSequenceOfCommands(), msg) && e.own.data == own.data
      && e.own.toWrite.callback == own.toWrite.callback
      && e.table == m && e.actions == [Action(token, Writable)] && e.result == Done(None)
  {
    RejectedIn(env.received.value);
  }

  /** QUIT answers 221, and once that is sent the control connection is shut down. */
  lemma QuitClosesControl(token: Token, own: RequestType, m: Table, env: ReadEnv, nextId: Token)
    requires ReadPre(token, own, m, env, nextId) && own.CommandTransfer? && ParsedLine(env, SC.Quit)
    ensures var e := Read(token, own, m, env, nextId);
      && Replied(e.own, RC.ClosingControlConnectionSuccess(), QuitText)
      && e.own.toWrite.callback == Some(ShutdownControl) && e.own.data == own.data
      && e.table == m && e.actions == [Action(token, Writable)] && e.result == Done(None)
  {
    QuitLineIsReply();
  }

  /** RETR and LIST without a data connection answer 503 and change nothing else. */
  lemma TransferNeedsDataConnection(token: Token, own: RequestType, m: Table, env: ReadEnv, nextId: Token, cmd: SC.Command)
    requires ReadPre(token, own, m, env, nextId) && own.CommandTransfer? && own.data.None?
    requires ParsedLine(env, cmd) && (cmd.Retr? || cmd.List?)
    ensures var e := Read(token, own, m, env, nextId);
      && Replied(e.own, RC.BadSequenceOfCommands(), BadSequence) && e.own.data.None?
      && e.own.toWrite.callback == own.toWrite.callback
      && e.table == m && e.actions == [Action(token, Writable)] && e.result == Done(None)
  {
  }

  /**
   * What RETR promises once the served directory resolves to `root`: the file is handed to the
   * data connection exactly when the path leads under `root`, the file opened and the data
   * connection is a transfer in the table; otherwise a 550 reply and the table unchanged.
   */
  predicate RetrOutcome(e: ReadEffect, token: Token, own: RequestType, m: Table, env: ReadEnv, path: seq<byte>, root: Canonical)
    requires own.CommandTransfer? && own.data.Some?
  {
    var d := own.data.value;
    var target := Canonicalize(env.fs, Push(Display(root), path));
    var served := target.Some? && Under(target.value, root) && env.openedFile.Some? && d in m && IsTransfer(m[d].requestType);
    && e.actions == [Action(token, Writable)] && e.result == Done(None)
    && (served ==>
          && Replied(e.own, RC.FileStatusOkay(), DownloadStarts) && e.own.toWrite.callback == Some(QueueTransfer(d))
          && e.own.data.None? && Links(e.table, m[d].requestType.command, d)
          && e.table[d].requestType.transfer == FileDownload(File(env.openedFile.value, 0))
          && e.table - {d} == m - {d})
    && (!served ==>
          && (Replied(e.own, RC.FileUnavailable(), NoAccess) || Replied(e.own, RC.FileUnavailable(), FileNotFound))
          && e.own.toWrite.callback == own.toWrite.callback && e.table == m
          && (e.own.data.None? <==> target.Some? && Under(target.value, root) && env.openedFile.Some?))
  }

  /** A line that parses is handled as its command. */
  lemma ReadParsed(token: Token, own: RequestType, m: Table, env: ReadEnv, nextId: Token, cmd: SC.Command)
    requires ReadPre(token, own, m, env, nextId) && own.CommandTransfer? && ParsedLine(env, cmd)
    ensures Read(token, own, m, env, nextId) == CommandRead(token, own, m, env, nextId, cmd)
  {
  }

  /**
   * RETR with a data connection, once the served directory resolves: the download is handed
   * to the data connection and answered 150 exactly when the target resolves to a path under
   * the served directory, the file opens, and the data connection is a file transfer in the
   * table. Otherwise the answer is 550 and the table is unchanged. Either way the data
   * connection is given up once the file has opened.
   */
  lemma RetrConfined(token: Token, own: RequestType, m: Table, env: ReadEnv, path: seq<byte>, root: Canonical)
    requires own.CommandTransfer? && own.data.Some? && token in m && own.data != Some(token) && WellFormed(env.fs)
    requires Canonicalize(env.fs, RetrBase()) == Some(root) && ValidUtf8(Display(root))
    ensures RetrOutcome(RetrRead(token, own, m, env, path), token, own, m, env, path, root)
  {
    var e := RetrRead(token, own, m, env, path);
    var d := own.data.value;
    var target := Canonicalize(env.fs, Push(Display(root), path));
    CanonicalizeReachable(env.fs, RetrBase());
    ReachableProper(env.fs, root);
    if target.None? {
      assert e == ReadEffect(Answer(own, Reply(RC.FileUnavailable(), FileNotFound)), m, [Action(token, Writable)], Done(None));
    } else {
      CanonicalizeReachable(env.fs, Push(Display(root), path));
      ReachableProper(env.fs, target.value);
      StartsWithDisplay(target.value, root);
      if !Under(target.value, root) {
        assert e == ReadEffect(Answer(own, Reply(RC.FileUnavailable(), NoAccess)), m, [Action(token, Writable)], Done(None));
      } else if env.openedFile.None? {
        assert e == ReadEffect(Answer(own, Reply(RC.FileUnavailable(), FileNotFound)), m, [Action(token, Writable)], Done(None));
      } else {
        RetrOpened(token, own, m, env, path, root, target.value);
      }
    }
  }

  /** The end of the RETR arm, once the file has opened. */
  lemma RetrOpened(token: Token, own: RequestType, m: Table, env: ReadEnv, path: seq<byte>, root: Canonical, target: Canonical)
    requires own.CommandTransfer? && own.data.Some? && token in m && own.data != Some(token)
    requires Canonicalize(env.fs, RetrBase()) == Some(root) && ValidUtf8(Display(root))
    requires Canonicalize(env.fs, Push(Display(root), path)) == Some(target)
    requires StartsWith(Display(target), Display(root)) && env.openedFile.Some?
    ensures var e := RetrRead(token, own, m, env, path); var d := own.data.value;
      var served := d in m && IsTransfer(m[d].requestType);
      && e.actions == [Action(token, Writable)] && e.result == Done(None) && e.own.data.None?
      && (served ==>
            && Replied(e.own, RC.FileStatusOkay(), DownloadStarts) && e.own.toWrite.callback == Some(QueueTransfer(d))
            && Links(e.table, m[d].requestType.command, d)
            && e.table[d].requestType.transfer == FileDownload(File(env.openedFile.value, 0))
            && e.table - {d} == m - {d})
      && (!served ==>
            && (Replied(e.own, RC.FileUnavailable(), NoAccess) || Replied(e.own, RC.FileUnavailable(), FileNotFound))
            && e.own.toWrite.callback == own.toWrite.callback && e.table == m)
  {
    var d := own.data.value;
    if d in m && IsTransfer(m[d].requestType) {
      RetrServed(token, own, m, env, path, root, target);
    } else {
      RetrRefused(token, own, m, env, path, root, target);
    }
  }

  /** `RetrOpened` when the data connection is a transfer in the table. */
  lemma RetrServed(token: Token, own: RequestType, m: Table, env: ReadEnv, path: seq<byte>, root: Canonical, target: Canonical)
    requires own.CommandTransfer? && own.data.Some? && token in m && own.data != Some(token)
    requires Canonicalize(env.fs, RetrBase()) == Some(root) && ValidUtf8(Display(root))
    requires Canonicalize(env.fs, Push(Display(root), path)) == Some(target)
    requires StartsWith(Display(target), Display(root)) && env.openedFile.Some?
    requires own.data.value in m && IsTransfer(m[own.data.value].requestType)
    ensures var e := RetrRead(token, own, m, env, path); var d := own.data.value;
      && e.actions == [Action(token, Writable)] && e.result == Done(None) && e.own.data.None?
      && Replied(e.own, RC.FileStatusOkay(), DownloadStarts) && e.own.toWrite.callback == Some(QueueTransfer(d))
      && Links(e.table, m[d].requestType.command, d)
      && e.table[d].requestType.transfer == FileDownload(File(env.openedFile.value, 0))
      && e.table - {d} == m - {d}
  {
    var d := own.data.value;
    var armed := ArmDownload(m[d].requestType, File(env.openedFile.value, 0)).value;
    var rt := Answer(own.(data := None), Reply(RC.FileStatusOkay(), DownloadStarts));
    var queued := rt.(toWrite := rt.toWrite.(callback := Some(QueueTransfer(d))));
    assert RetrRead(token, own, m, env, path) ==
      ReadEffect(queued, m[d := m[d].(requestType := armed)], [Action(token, Writable)], Done(None));
    ArmedLinks(m, d, armed);
  }

  /** Putting an armed download in place of the transfer `d` keeps its link and touches nothing else. */
  lemma ArmedLinks(m: Table, d: Token, armed: RequestType)
    requires d in m && IsTransfer(m[d].requestType) && IsTransfer(armed) && armed.command == m[d].requestType.command
    ensures var t := m[d := m[d].(requestType := armed)];
      Links(t, m[d].requestType.command, d) && t[d].requestType == armed && t - {d} == m - {d}
  {
    var t := m[d := m[d].(requestType := armed)];
    assert t - {d} == m - {d};
  }

  /** `RetrOpened` when the data connection is missing or not a transfer. */
  lemma RetrRefused(token: Token, own: RequestType, m: Table, env: ReadEnv, path: seq<byte>, root: Canonical, target: Canonical)
    requires own.CommandTransfer? && own.data.Some? && token in m && own.data != Some(token)
    requires Canonicalize(env.fs, RetrBase()) == Some(root) && ValidUtf8(Display(root))
    requires Canonicalize(env.fs, Push(Display(root), path)) == Some(target)
    requires StartsWith(Display(target), Display(root)) && env.openedFile.Some?
    requires !(own.data.value in m && IsTransfer(m[own.data.value].requestType))
    ensures var e := RetrRead(token, own, m, env, path);
      && e.actions == [Action(token, Writable)] && e.result == Done(None) && e.own.data.None?
      && (Replied(e.own, RC.FileUnavailable(), NoAccess) || Replied(e.own, RC.FileUnavailable(), FileNotFound))
      && e.own.toWrite.callback == own.toWrite.callback && e.table == m
  {
  }

  /** LIST with a data connection answers 150 and fills it once sent, or 455 when it is not in the table. */
  lemma ListAnswers(token: Token, own: RequestType, m: Table, env: ReadEnv, nextId: Token, path: seq<byte>)
    requires ReadPre(token, own, m, env, nextId) && own.CommandTransfer? && own.data.Some?
    requires ParsedLine(env, SC.List(path))
    ensures var e := Read(token, own, m, env, nextId); var d := own.data.value;
      && e.table == m && e.actions == [Action(token, Writable)] && e.result == Done(None) && e.own.data == own.data
      && (d in m ==> Replied(e.own, RC.FileStatusOkay(), AboutToOpen) && e.own.toWrite.callback == Some(FillListing(d)))
      && (d !in m ==> Replied(e.own, RC.CantOpenDataConnection(), CantOpenData) && e.own.toWrite.callback == own.toWrite.callback)
  {
  }

  /**
   * PORT: when the connection to the client is made, the control connection's data link is
   * the fresh id, which holds an active transfer with nothing to send, linked back to it;
   * otherwise 503 and nothing else changes.
   */
  lemma PortLinks(token: Token, own: RequestType, m: Table, env: ReadEnv, nextId: Token, ip: SC.Ipv4, port: u16)
    requires ReadPre(token, own, m, env, nextId) && own.CommandTransfer? && ParsedLine(env, SC.Port(ip, port))
    ensures var e := Read(token, own, m, env, nextId);
      && e.actions == [Action(token, Writable)] && e.result == Done(None)
      && e.own.toWrite.callback == own.toWrite.callback
      && (env.connected ==>
            && Replied(e.own, RC.CommandOkay(), CommandOkay) && e.own.data == Some(nextId)
            && Links(e.table, token, nextId) && e.table[nextId].requestType.FileTransferActive?
            && e.table[nextId].requestType.transfer == Buffer(DefaultBuffer())
            && e.table - {nextId} == m && nextId !in m)
      && (!env.connected ==> Replied(e.own, RC.BadSequenceOfCommands(), BadSequence) && e.own.data == own.data && e.table == m)
  {
    assert m[nextId := NewContext(FileTransferActive(Open, Buffer(DefaultBuffer()), token))] - {nextId} == m;
  }

  /**
   * A passive listener's accept: the listener leaves the table, so it accepts once; the new
   * passive transfer under the fresh id belongs to the listener's control connection, and that
   * control connection, when it is one, now names it as its data connection and answers 200.
   */
  lemma AcceptLinks(token: Token, own: RequestType, m: Table, env: ReadEnv, nextId: Token)
    requires ReadPre(token, own, m, env, nextId) && own.PassiveModePort? && env.accepted.Gives?
    ensures var e := Read(token, own, m, env, nextId); var cmd := own.command;
      var isControl := cmd in m && cmd != token && m[cmd].requestType.CommandTransfer?;
      && e.own == own && e.result == Done(None)
      && token !in e.table && e.table.Keys == m.Keys - {token} + {nextId}
      && Links(e.table, cmd, nextId) && e.table[nextId].requestType.FileTransferPassive?
      && (isControl ==>
            && e.table[cmd].requestType.data == Some(nextId) && Replied(e.table[cmd].requestType, RC.CommandOkay(), CommandOkay)
            && e.actions == [Action(cmd, Writable)])
      && (!isControl ==> e.actions == [] && e.table - {nextId} == m - {token})
      && (forall t | t in e.table && t != nextId && t != cmd :: e.table[t] == m[t])
  {
    var m1 := m[nextId := AcceptedContext(own.command)] - {token};
    assert m1 - {nextId} == m - {token};
  }

  /** A failed accept changes nothing. */
  lemma AcceptFailureKeepsListener(token: Token, own: RequestType, m: Table, env: ReadEnv, nextId: Token)
    requires ReadPre(token, own, m, env, nextId) && own.PassiveModePort? && env.accepted.Fails?
    ensures Read(token, own, m, env, nextId) == ReadEffect(own, m, [], IoError(env.accepted.kind))
  {
  }

  /** The commands other than QUIT, RETR, LIST and PORT only ask for the session's user to be set. */
  lemma OtherCommandsOnlyUpdateSession(token: Token, own: RequestType, m: Table, env: ReadEnv, nextId: Token, cmd: SC.Command)
    requires ReadPre(token, own, m, env, nextId) && own.CommandTransfer? && ParsedLine(env, cmd)
    requires !(cmd.Quit? || cmd.Retr? || cmd.List? || cmd.Port?)
    ensures Read(token, own, m, env, nextId) == ReadEffect(own, m, [], Done(Some(SessionUpdate(3, false))))
  {
  }

  /**
   * A read never adds or removes a control connection (so the server's admission count stays
   * an upper bound), keeps the connection's own kind, and only adds the fresh id.
   */
  lemma ReadKeepsControlConnections(token: Token, own: RequestType, m: Table, env: ReadEnv, nextId: Token)
    requires ReadPre(token, own, m, env, nextId)
    ensures var e := Read(token, own, m, env, nextId);
      && CommandTokens(e.table) == CommandTokens(m)
      && e.own.CommandTransfer? == own.CommandTransfer?
      && e.table.Keys <= m.Keys + {nextId}
  {
    match own
    case CommandTransfer(_, _, _) =>
      if env.received.Gives? && LF in env.received.value && |env.received.value| < ReadBufferSize
        && SC.Parse(env.received.value).Parsed?
      {
        var cmd := SC.Parse(env.received.value).command;
        ReadParsed(token, own, m, env, nextId, cmd);
        CommandKeepsControlConnections(token, own, m, env, nextId, cmd);
      }
    case PassiveModePort(_, cmd) =>
      assert Read(token, own, m, env, nextId) == AcceptRead(token, own, m, env.accepted, nextId);
      AcceptKeepsControlConnections(token, own, m, env.accepted, nextId);
    case _ =>
  }

  /** `ReadKeepsControlConnections` for a parsed command. */
  lemma CommandKeepsControlConnections(token: Token, own: RequestType, m: Table, env: ReadEnv, nextId: Token, cmd: SC.Command)
    requires ReadPre(token, own, m, env, nextId) && own.CommandTransfer?
    ensures var e := CommandRead(token, own, m, env, nextId, cmd);
      && CommandTokens(e.table) == CommandTokens(m) && e.own.CommandTransfer? && e.table.Keys <= m.Keys + {nextId}
  {
    match cmd
    case Retr(path) =>
      assert CommandRead(token, own, m, env, nextId, cmd) == RetrRead(token, own, m, env, path);
      RetrKeepsControlConnections(token, own, m, env, path);
    case Port(_, _) =>
      assert CommandRead(token, own, m, env, nextId, cmd) == PortRead(token, own, m, env.connected, nextId);
      PortKeepsControlConnections(token, own, m, env.connected, nextId);
    case _ =>
  }

  /** `ReadKeepsControlConnections` for RETR. */
  lemma RetrKeepsControlConnections(token: Token, own: RequestType, m: Table, env: ReadEnv, path: seq<byte>)
    requires own.CommandTransfer? && token in m && own.data != Some(token)
    ensures var e := RetrRead(token, own, m, env, path);
      && CommandTokens(e.table) == CommandTokens(m) && e.own.CommandTransfer? && e.table.Keys <= m.Keys
  {
    var e := RetrRead(token, own, m, env, path);
    RetrTableShape(token, own, m, env, path);
    if e.table != m {
      CommandTokensSameKind(m, own.data.value, e.table[own.data.value]);
    }
  }

  /** `ReadKeepsControlConnections` for PORT. */
  lemma PortKeepsControlConnections(token: Token, own: RequestType, m: Table, connected: bool, nextId: Token)
    requires own.CommandTransfer? && token in m && nextId !in m
    ensures var e := PortRead(token, own, m, connected, nextId);
      && CommandTokens(e.table) == CommandTokens(m) && e.own.CommandTransfer? && e.table.Keys <= m.Keys + {nextId}
  {
    if connected {
      CommandTokensUpdate(m, nextId, NewContext(FileTransferActive(Open, Buffer(DefaultBuffer()), token)));
    }
  }

  /** RETR changes at most the data connection's entry, and that one stays a file transfer. */
  lemma RetrTableShape(token: Token, own: RequestType, m: Table, env: ReadEnv, path: seq<byte>)
    requires own.CommandTransfer? && token in m && own.data != Some(token)
    ensures var e := RetrRead(token, own, m, env, path);
      && e.own.CommandTransfer?
      && (e.table == m || (
          && own.data.Some? && own.data.value in m && IsTransfer(m[own.data.value].requestType)
          && e.table == m[own.data.value := e.table[own.data.value]] && IsTransfer(e.table[own.data.value].requestType)))
  {
    var e := RetrRead(token, own, m, env, path);
    if own.data.Some? {
      match Canonicalize(env.fs, RetrBase())
      case None =>
      case Some(root) =>
        var target := Canonicalize(env.fs, Push(Display(root), path));
        if ValidUtf8(Display(root)) && target.Some? && StartsWith(Display(target.value), Display(root)) && env.openedFile.Some? {
          RetrOpened(token, own, m, env, path, root, target.value);
          var d := own.data.value;
          if d in m && IsTransfer(m[d].requestType) {
            var armed := ArmDownload(m[d].requestType, File(env.openedFile.value, 0)).value;
            assert e.table == m[d := m[d].(requestType := armed)];
          }
        }
    }
  }

  /** `ReadKeepsControlConnections` for an accept. */
  lemma AcceptKeepsControlConnections(token: Token, own: RequestType, m: Table, accepted: OsResult<()>, nextId: Token)
    requires own.PassiveModePort? && token in m && m[token].requestType == own && nextId != token && nextId !in m
    ensures var e := AcceptRead(token, own, m, accepted, nextId);
      && CommandTokens(e.table) == CommandTokens(m) && e.table.Keys <= m.Keys + {nextId}
  {
    if accepted.Gives? {
      var cmd := own.command;
      var e := AcceptRead(token, own, m, accepted, nextId);
      var m0 := m[nextId := AcceptedContext(cmd)];
      CommandTokensUpdate(m, nextId, AcceptedContext(cmd));
      CommandTokensRemove(m0, token);
      var m1 := m0 - {token};
      if cmd in m1 && m1[cmd].requestType.CommandTransfer? {
        CommandTokensSameKind(m1, cmd, e.table[cmd]);
        assert e.table == m1[cmd := e.table[cmd]];
      }
    }
  }
}
