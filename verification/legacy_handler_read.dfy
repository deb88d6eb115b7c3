/**
 * The earlier server's read side (FTPserver/rust_server/ftp_server/src/ftp/handler_read.rs).
 * It handles RETR, LIST and PORT on a control connection and the accept of a passive listener,
 * over the later server's connection types (it uses `callback_after_sending` and `ROOT`, which
 * only the later `mod.rs` defines). That snapshot's `command.rs` has no RETR, so what
 * `Command::try_from` answers for the line is a parameter here, a command among the three or
 * the parser's message.
 *
 * LIST and PORT run the same steps as the later handler (`ServerHandlerRead.ListArm` and
 * `ServerHandlerRead.PortArm`). RETR differs: it joins the path to the directory
 * "./root/username" as written, without canonicalizing it, and never answers a file it finds.
 */
module LegacyHandlerRead {
  import opened Ascii
  import opened Wrappers
  import opened FsPaths
  import opened ServerState
  import SC = ServerCommand
  import RC = ReplyCodes
  import SHR = ServerHandlerRead

  /** The commands this handler matches on. */
  datatype Command = Retr(path: seq<byte>) | List(path: seq<byte>) | Port(ip: SC.Ipv4, port: u16)

  /** What `Command::try_from` makes of the line: a command, or the message it rejects it with. */
  datatype LineOutcome = Parsed(command: Command) | Rejected(message: AsciiText)

  /**
   * What the operating system answers: how many bytes the read took, what the parser made of
   * them, the file system RETR resolves in, whether the resolved file opens, whether PORT's
   * connect succeeds, and the listener's accept.
   */
  datatype ReadEnv = ReadEnv(received: OsResult<nat>, line: LineOutcome, fs: FileSystem, opens: bool,
                             connected: bool, accepted: OsResult<()>)

  /** What a read leaves: the connection's new `RequestType`, the table, the actions, the outcome. */
  datatype ReadEffect = ReadEffect(own: RequestType, table: Table, actions: seq<Action>, result: Io<()>)

  /** What the caller guarantees: the connection is in the table under its token, and the fresh id is unused. */
  predicate ReadPre(token: Token, own: RequestType, m: Table, nextId: Token)
  {
    token in m && m[token].requestType == own && nextId !in m
  }

  /** An effect of the later handler's LIST or PORT arm, as this handler reports it. */
  function Reported(e: SHR.ReadEffect): ReadEffect
  {
    ReadEffect(e.own, e.table, e.actions, Done(()))
  }

  /** `handle_read` as a step: what one read does. */
  function Read(token: Token, own: RequestType, m: Table, env: ReadEnv, nextId: Token): ReadEffect
    requires ReadPre(token, own, m, nextId)
  {
    match own
    case CommandTransfer(_, _, _) =>
      (match env.received
       case Fails(kind) => ReadEffect(own, m, [], IoError(kind))
       case Gives(n) =>
         if n >= SHR.ReadBufferSize then ReadEffect(own, m, [], IoError(Other))
         else
           match env.line
           case Rejected(msg) =>
             ReadEffect(SHR.Answer(own, Reply(RC.BadSequenceOfCommands(), msg)), m, [Action(token, Writable)], Done(()))
           case Parsed(cmd) => CommandRead(token, own, m, env, nextId, cmd))
    case PassiveModePort(_, _) => AcceptRead(token, own, m, env.accepted, nextId)
    case _ => ReadEffect(own, m, [], Panicked)
  }

  /** What a parsed command does. */
  function CommandRead(token: Token, own: RequestType, m: Table, env: ReadEnv, nextId: Token, cmd: Command): ReadEffect
    requires own.CommandTransfer? && token in m
  {
    match cmd
    case Retr(path) => RetrRead(token, own, m, env, path)
    case List(_) => Reported(SHR.ListRead(token, own, m))
    case Port(_, _) => Reported(SHR.PortRead(token, own, m, env.connected, nextId))
  }

  /**
   * RETR: join the path to "./root/username" and resolve it; a resolved path must start with
   * that directory and open. A path that passes sets no reply.
   */
  function RetrRead(token: Token, own: RequestType, m: Table, env: ReadEnv, path: seq<byte>): ReadEffect
    requires own.CommandTransfer?
  {
    var acts := [Action(token, Writable)];
    if own.data.None? then ReadEffect(SHR.Answer(own, Reply(RC.BadSequenceOfCommands(), SHR.BadSequence)), m, acts, Done(()))
    else
      match Canonicalize(env.fs, Push(SHR.RetrBase(), path))
      case None => ReadEffect(SHR.Answer(own, Reply(RC.FileUnavailable(), SHR.FileNotFound)), m, acts, Done(()))
      case Some(target) =>
        if !StartsWith(Display(target), SHR.RetrBase()) then
          ReadEffect(SHR.Answer(own, Reply(RC.FileUnavailable(), SHR.NoAccess)), m, acts, Done(()))
        else if !env.opens then
          ReadEffect(SHR.Answer(own, Reply(RC.FileUnavailable(), SHR.FileNotFound)), m, acts, Done(()))
        else ReadEffect(own, m, acts, Done(()))
  }

  /**
   * A passive listener: accept the data connection, store it under the fresh id and ask for it
   * to be writable, drop the listener, and ask for the listener to be deregistered.
   */
  function AcceptRead(token: Token, own: RequestType, m: Table, accepted: OsResult<()>, nextId: Token): ReadEffect
    requires own.PassiveModePort?
  {
    if accepted.Fails? then ReadEffect(own, m, [], IoError(accepted.kind))
    else
      ReadEffect(own, m[nextId := SHR.AcceptedContext(own.command)] - {token},
        [Action(nextId, Writable), Action(0, Aio)], Done(()))
  }

  /** `HandlerRead` of the earlier server. */
  class HandlerRead {
    const connectionToken: Token
    const connectionDb: ConnectionDb
    var actions: seq<Action>

    /** `HandlerRead::new`: no actions yet. */
    constructor (connectionToken: Token, connectionDb: ConnectionDb)
      ensures this.connectionToken == connectionToken && this.connectionDb == connectionDb && actions == []
    {
      this.connectionToken := connectionToken;
      this.connectionDb := connectionDb;
      actions := [];
    }

    /** `handle_read`: the read of one connection, as `Read` describes it. */
    method HandleRead(requestType: RequestType, env: ReadEnv, nextId: Token) returns (rt: RequestType, r: Io<()>)
      requires ReadPre(connectionToken, requestType, connectionDb.entries, nextId)
      modifies this, connectionDb
      ensures var e := Read(connectionToken, requestType, old(connectionDb.entries), env, nextId);
        rt == e.own && connectionDb.entries == e.table && actions == old(actions) + e.actions && r == e.result
    {
      rt := requestType;
      r := Done(());
      match requestType {
        case CommandTransfer(_, _, _) =>
          if env.received.Fails? {
            r := IoError(env.received.kind);
            return;
          }
          if env.received.value >= SHR.ReadBufferSize {
            r := IoError(Other);
            return;
          }
          match env.line {
            case Rejected(message) =>
              rt := SHR.Answer(rt, Reply(RC.BadSequenceOfCommands(), message));
              actions := actions + [Action(connectionToken, Writable)];
            case Parsed(command) =>
              rt := HandleCommand(requestType, env, nextId, command);
          }
        case PassiveModePort(_, _) =>
          r := HandleAccept(requestType, env.accepted, nextId);
        case _ =>
          r := Panicked;
      }
    }

    /** The dispatch on a parsed command. */
    method HandleCommand(own: RequestType, env: ReadEnv, nextId: Token, command: Command) returns (rt: RequestType)
      requires own.CommandTransfer? && connectionToken in connectionDb.entries
      modifies this, connectionDb
      ensures var e := CommandRead(connectionToken, own, old(connectionDb.entries), env, nextId, command);
        rt == e.own && connectionDb.entries == e.table && actions == old(actions) + e.actions && e.result == Done(())
    {
      ghost var m := connectionDb.entries;
      match command {
        case Retr(path) =>
          assert CommandRead(connectionToken, own, m, env, nextId, command) == RetrRead(connectionToken, own, m, env, path);
          rt := HandleRetr(own, env, path);
        case List(_) =>
          rt := HandleList(own);
        case Port(_, _) =>
          rt := HandlePort(own, env.connected, nextId);
      }
    }

    /** LIST, as the later server's `ListRead` describes it. */
    method HandleList(own: RequestType) returns (rt: RequestType)
      requires own.CommandTransfer? && connectionToken in connectionDb.entries
      modifies this, connectionDb
      ensures var e := SHR.ListRead(connectionToken, own, old(connectionDb.entries));
        rt == e.own && connectionDb.entries == e.table && actions == old(actions) + e.actions
    {
      var acts;
      rt, acts := SHR.ListArm(connectionDb, connectionToken, own);
      actions := actions + acts;
    }

    /** PORT, as the later server's `PortRead` describes it. */
    method HandlePort(own: RequestType, connected: bool, nextId: Token) returns (rt: RequestType)
      requires own.CommandTransfer? && connectionToken in connectionDb.entries
      modifies this, connectionDb
      ensures var e := SHR.PortRead(connectionToken, own, old(connectionDb.entries), connected, nextId);
        rt == e.own && connectionDb.entries == e.table && actions == old(actions) + e.actions
    {
      var acts;
      rt, acts := SHR.PortArm(connectionDb, connectionToken, own, connected, nextId);
      actions := actions + acts;
    }

    /** The passive listener's accept. */
    method HandleAccept(own: RequestType, accepted: OsResult<()>, nextId: Token) returns (r: Io<()>)
      requires own.PassiveModePort?
      modifies this, connectionDb
      ensures var e := AcceptRead(connectionToken, own, old(connectionDb.entries), accepted, nextId);
        own == e.own && connectionDb.entries == e.table && actions == old(actions) + e.actions && r == e.result
    {
      if accepted.Fails? {
        r := IoError(accepted.kind);
        return;
      }
      connectionDb.entries := connectionDb.entries[nextId := SHR.AcceptedContext(own.command)];
      actions := actions + [Action(nextId, Writable)];
      connectionDb.entries := connectionDb.entries - {connectionToken};
      actions := actions + [Action(0, Aio)];
      r := Done(());
    }

    /** The RETR arm. */
    method HandleRetr(own: RequestType, env: ReadEnv, path: seq<byte>) returns (rt: RequestType)
      requires own.CommandTransfer?
      modifies this
      ensures var e := RetrRead(connectionToken, own, connectionDb.entries, env, path);
        rt == e.own && actions == old(actions) + e.actions
    {
      actions := actions + [Action(connectionToken, Writable)];
      rt := own;
      if own.data.None? {
        rt := SHR.Answer(rt, Reply(RC.BadSequenceOfCommands(), SHR.BadSequence));
        return;
      }
      var base := SHR.RetrBase();
      var total := Canonicalize(env.fs, Push(base, path));
      if total.Some? {
        AbsoluteNotUnderDotted(Display(total.value), base);
        if !StartsWith(Display(total.value), base) {
          rt := SHR.Answer(rt, Reply(RC.FileUnavailable(), SHR.NoAccess));
          return;
        }
        // No resolved path starts with the relative base (`RetrAlwaysRefused`): the file-open
        // check that follows in the source is never reached.
        assert false;
      } else {
        rt := SHR.Answer(rt, Reply(RC.FileUnavailable(), SHR.FileNotFound));
      }
    }
  }

  /**
   * A read that fails is that error, and one that fills the buffer is an error too; a rejected
   * line is answered 503 with the parser's message. None of these touches the table.
   */
  lemma ReadFraming(token: Token, own: RequestType, m: Table, env: ReadEnv, nextId: Token)
    requires ReadPre(token, own, m, nextId) && own.CommandTransfer?
    ensures var e := Read(token, own, m, env, nextId);
      && (env.received.Fails? ==> e == ReadEffect(own, m, [], IoError(env.received.kind)))
      && (env.received.Gives? && env.received.value >= SHR.ReadBufferSize ==> e == ReadEffect(own, m, [], IoError(Other)))
      && (env.received.Gives? && env.received.value < SHR.ReadBufferSize && env.line.Rejected? ==>
            && SHR.Replied(e.own, RC.BadSequenceOfCommands(), env.line.message)
            && e.own.data == own.data && e.own.toWrite.callback == own.toWrite.callback
            && e.table == m && e.actions == [Action(token, Writable)] && e.result == Done(()))
  {
  }

  /** A line this handler reads and parses as `cmd`. */
  predicate ParsedLine(env: ReadEnv, cmd: Command)
  {
    env.received.Gives? && env.received.value < SHR.ReadBufferSize && env.line == Parsed(cmd)
  }

  /** RETR and LIST without a data connection answer 503 and change nothing else. */
  lemma TransferNeedsDataConnection(token: Token, own: RequestType, m: Table, env: ReadEnv, nextId: Token, cmd: Command)
    requires ReadPre(token, own, m, nextId) && own.CommandTransfer? && own.data.None?
    requires ParsedLine(env, cmd) && (cmd.Retr? || cmd.List?)
    ensures var e := Read(token, own, m, env, nextId);
      && SHR.Replied(e.own, RC.BadSequenceOfCommands(), SHR.BadSequence) && e.own.data.None?
      && e.own.toWrite.callback == own.toWrite.callback
      && e.table == m && e.actions == [Action(token, Writable)] && e.result == Done(())
  {
  }

  /**
   * RETR with a data connection always answers 550: every path the file system resolves is
   * absolute, and no absolute path starts with "./root/username", so a resolved path is
   * refused for lack of access and an unresolved one is not found. The branch that would
   * serve the file is never taken, and RETR changes nothing but the reply.
   */
  lemma RetrAlwaysRefused(token: Token, own: RequestType, m: Table, env: ReadEnv, nextId: Token, path: seq<byte>)
    requires ReadPre(token, own, m, nextId) && own.CommandTransfer? && own.data.Some? && ParsedLine(env, Retr(path))
    ensures var e := Read(token, own, m, env, nextId); var target := Canonicalize(env.fs, Push(SHR.RetrBase(), path));
      && (target.Some? ==> SHR.Replied(e.own, RC.FileUnavailable(), SHR.NoAccess))
      && (target.None? ==> SHR.Replied(e.own, RC.FileUnavailable(), SHR.FileNotFound))
      && e.own.data == own.data && e.own.toWrite.callback == own.toWrite.callback
      && e.table == m && e.actions == [Action(token, Writable)] && e.result == Done(())
  {
    var target := Canonicalize(env.fs, Push(SHR.RetrBase(), path));
    if target.Some? {
      AbsoluteNotUnderDotted(Display(target.value), SHR.RetrBase());
    }
  }

  /**
   * LIST answers as in the later server: 150 and a callback filling the data connection when
   * it is in the table, 455 when it is not.
   */
  lemma ListAnswers(token: Token, own: RequestType, m: Table, env: ReadEnv, nextId: Token, path: seq<byte>)
    requires ReadPre(token, own, m, nextId) && own.CommandTransfer? && own.data.Some? && ParsedLine(env, List(path))
    ensures var e := Read(token, own, m, env, nextId); var d := own.data.value;
      && e.table == m && e.actions == [Action(token, Writable)] && e.result == Done(()) && e.own.data == own.data
      && (d in m ==> SHR.Replied(e.own, RC.FileStatusOkay(), SHR.AboutToOpen) && e.own.toWrite.callback == Some(FillListing(d)))
      && (d !in m ==> SHR.Replied(e.own, RC.CantOpenDataConnection(), SHR.CantOpenData) && e.own.toWrite.callback == own.toWrite.callback)
  {
  }

  /**
   * PORT: when the connection to the client is made, the control connection's data link is
   * the fresh id, which holds an active transfer with nothing to send, linked back to it;
   * otherwise 503 and nothing else changes.
   */
  lemma PortLinks(token: Token, own: RequestType, m: Table, env: ReadEnv, nextId: Token, ip: SC.Ipv4, port: u16)
    requires ReadPre(token, own, m, nextId) && own.CommandTransfer? && ParsedLine(env, Port(ip, port))
    ensures var e := Read(token, own, m, env, nextId);
      && e.actions == [Action(token, Writable)] && e.result == Done(())
      && e.own.toWrite.callback == own.toWrite.callback
      && (env.connected ==>
            && SHR.Replied(e.own, RC.CommandOkay(), SHR.CommandOkay) && e.own.data == Some(nextId)
            && SHR.Links(e.table, token, nextId) && e.table[nextId].requestType.FileTransferActive?
            && e.table[nextId].requestType.transfer == Buffer(DefaultBuffer())
            && e.table - {nextId} == m)
      && (!env.connected ==> SHR.Replied(e.own, RC.BadSequenceOfCommands(), SHR.BadSequence) && e.own.data == own.data && e.table == m)
  {
    assert m[nextId := NewContext(FileTransferActive(Open, Buffer(DefaultBuffer()), token))] - {nextId} == m;
  }

  /**
   * An accept drops the listener, so it accepts once, and stores a passive transfer with one
   * byte to send under the fresh id, linked to the listener's control connection; the control
   * connection itself is not told. A failed accept changes nothing.
   */
  lemma AcceptDropsListener(token: Token, own: RequestType, m: Table, env: ReadEnv, nextId: Token)
    requires ReadPre(token, own, m, nextId) && own.PassiveModePort?
    ensures var e := Read(token, own, m, env, nextId);
      && e.own == own
      && (env.accepted.Fails? ==> e.table == m && e.actions == [] && e.result == IoError(env.accepted.kind))
      && (env.accepted.Gives? ==>
            && token !in e.table && e.table - {nextId} == m - {token}
            && SHR.Links(e.table, own.command, nextId) && e.table[nextId].requestType.FileTransferPassive?
            && e.table[nextId].requestType.transfer == Buffer(NewBuffer([1]))
            && e.actions == [Action(nextId, Writable), Action(0, Aio)] && e.result == Done(()))
  {
    if env.accepted.Gives? {
      var m1 := m[nextId := SHR.AcceptedContext(own.command)] - {token};
      assert m1 - {nextId} == m - {token};
    }
  }

  /** A read never adds or removes a control connection, and only adds the fresh id. */
  lemma ReadKeepsControlConnections(token: Token, own: RequestType, m: Table, env: ReadEnv, nextId: Token)
    requires ReadPre(token, own, m, nextId)
    ensures var e := Read(token, own, m, env, nextId);
      && CommandTokens(e.table) == CommandTokens(m) && e.table.Keys <= m.Keys + {nextId}
      && e.own.CommandTransfer? == own.CommandTransfer?
  {
    match own
    case CommandTransfer(_, _, _) =>
      if env.received.Gives? && env.received.value < SHR.ReadBufferSize && env.line.Parsed? {
        assert Read(token, own, m, env, nextId) == CommandRead(token, own, m, env, nextId, env.line.command);
        CommandKeepsControlConnections(token, own, m, env, nextId, env.line.command);
      }
    case PassiveModePort(_, _) =>
      assert Read(token, own, m, env, nextId) == AcceptRead(token, own, m, env.accepted, nextId);
      AcceptKeepsControlConnections(token, own, m, env.accepted, nextId);
    case _ =>
  }

  /** `ReadKeepsControlConnections` for a parsed command. */
  lemma CommandKeepsControlConnections(token: Token, own: RequestType, m: Table, env: ReadEnv, nextId: Token, cmd: Command)
    requires own.CommandTransfer? && token in m && nextId !in m
    ensures var e := CommandRead(token, own, m, env, nextId, cmd);
      && CommandTokens(e.table) == CommandTokens(m) && e.table.Keys <= m.Keys + {nextId} && e.own.CommandTransfer?
  {
    match cmd
    case Retr(path) =>
      RetrKeepsControlConnections(token, own, m, env, nextId, path);
    case List(_) =>
      assert CommandRead(token, own, m, env, nextId, cmd) == Reported(SHR.ListRead(token, own, m));
    case Port(_, _) =>
      PortKeepsControlConnections(token, own, m, env, nextId, cmd);
  }

  /** `CommandKeepsControlConnections` for RETR. */
  lemma RetrKeepsControlConnections(token: Token, own: RequestType, m: Table, env: ReadEnv, nextId: Token, path: seq<byte>)
    requires own.CommandTransfer? && token in m
    ensures var e := CommandRead(token, own, m, env, nextId, Retr(path));
      e.table == m && e.own.CommandTransfer?
  {
    assert CommandRead(token, own, m, env, nextId, Retr(path)) == RetrRead(token, own, m, env, path);
    RetrKeepsTable(token, own, m, env, path);
  }

  /** `CommandKeepsControlConnections` for PORT. */
  lemma PortKeepsControlConnections(token: Token, own: RequestType, m: Table, env: ReadEnv, nextId: Token, cmd: Command)
    requires own.CommandTransfer? && token in m && nextId !in m && cmd.Port?
    ensures var e := CommandRead(token, own, m, env, nextId, cmd);
      && CommandTokens(e.table) == CommandTokens(m) && e.table.Keys <= m.Keys + {nextId} && e.own.CommandTransfer?
  {
    assert CommandRead(token, own, m, env, nextId, cmd) == Reported(SHR.PortRead(token, own, m, env.connected, nextId));
    SHR.PortKeepsControlConnections(token, own, m, env.connected, nextId);
  }

  /** RETR only ever changes the reply. */
  lemma RetrKeepsTable(token: Token, own: RequestType, m: Table, env: ReadEnv, path: seq<byte>)
    requires own.CommandTransfer?
    ensures var e := RetrRead(token, own, m, env, path); e.table == m && e.own.CommandTransfer? && e.own.data == own.data
  {
    var e := RetrRead(token, own, m, env, path);
    if own.data.Some? {
      var total := Canonicalize(env.fs, Push(SHR.RetrBase(), path));
      if total.None? {
        assert e.own == SHR.Answer(own, Reply(RC.FileUnavailable(), SHR.FileNotFound));
      } else if !StartsWith(Display(total.value), SHR.RetrBase()) {
        assert e.own == SHR.Answer(own, Reply(RC.FileUnavailable(), SHR.NoAccess));
      }
    }
  }

  /** `ReadKeepsControlConnections` for an accept. */
  lemma AcceptKeepsControlConnections(token: Token, own: RequestType, m: Table, accepted: OsResult<()>, nextId: Token)
    requires own.PassiveModePort? && token in m && m[token].requestType == own && nextId !in m
    ensures var e := AcceptRead(token, own, m, accepted, nextId);
      && CommandTokens(e.table) == CommandTokens(m) && e.table.Keys <= m.Keys + {nextId}
  {
    if accepted.Gives? {
      var m0 := m[nextId := SHR.AcceptedContext(own.command)];
      CommandTokensUpdate(m, nextId, SHR.AcceptedContext(own.command));
      CommandTokensRemove(m0, token);
    }
  }
}
