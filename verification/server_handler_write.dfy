/**
 * The write side of a connection (ftp_server/src/ftp/handler_write.rs): a control connection
 * sends its reply, a file transfer sends its buffer or its file, and the control connection is
 * told when a transfer ends.
 *
 * The earlier server's handler_write.rs (FTPserver/rust_server/ftp_server/src/ftp/handler_write.rs)
 * differs only in how it closes a connection after a failed write, so the steps here take that
 * as a `CloseStyle`; its own `HandlerWrite` lives in `LegacyHandlerWrite`. What each write to
 * the socket answers is the `WriteEnv` parameter; shutting a socket down is taken to succeed.
 */
module ServerHandlerWrite {
  import opened Ascii
  import opened Wrappers
  import opened ServerState
  import RC = ReplyCodes

  /** The size of the chunks a file is sent in. */
  const ChunkSize: nat := 1024

  /** The opening shared by the two 226 messages. */
  const ClosingRequested: AsciiText := Join(Join("Closing data", " connection."), " Requested file")
  const ClosingTransfer: AsciiText :=
    Join(Join(Join(ClosingRequested, " action successful"), " (for example, file"), Join(" transfer or file", " abort)."))
  const FileSent: AsciiText := Join(Join(ClosingRequested, " action successful."), " (file transfer)")
  const TransferError: AsciiText := Join("Error with file", " transfer connection")

  /**
   * How `close_connection` ends a connection whose write failed: this server shuts the socket
   * and asks for one more WRITABLE event, the earlier one shuts it and drops its entry.
   */
  datatype CloseStyle = ReRegister | Forget

  /** What the socket answers: the write of the pending bytes, and the write of a file's `i`-th chunk. */
  datatype WriteEnv = WriteEnv(written: OsResult<nat>, chunks: nat -> OsResult<nat>)

  /** What a write leaves: the connection's new `RequestType`, the table, the actions, and the callback to run. */
  datatype WriteEffect = WriteEffect(own: RequestType, table: Table, actions: seq<Action>, result: Io<Option<Callback>>)

  /** The size of the next chunk read from `pos`: up to 1024 bytes. */
  function ChunkAt(size: nat, pos: nat): (n: nat)
    requires pos < size
    ensures 0 < n <= ChunkSize && pos + n <= size
  {
    if size - pos < ChunkSize then size - pos else ChunkSize
  }

  /**
   * What the caller guarantees: the connection is in the table under its token, buffers are
   * sound and a write never takes more than it is given, a data connection is not its own
   * control connection, and a file's position is within it.
   */
  predicate WritePre(token: Token, own: RequestType, m: Table, env: WriteEnv)
  {
    && token in m && m[token].requestType == own
    && (own.CommandTransfer? ==>
          && Sound(own.toWrite) && own.data != Some(token)
          && (env.written.Gives? ==> env.written.value <= |Pending(own.toWrite)|))
    && (IsTransfer(own) ==>
          && own.command != token
          && (own.transfer.Buffer? ==>
                && Sound(own.transfer.toWrite)
                && (env.written.Gives? ==> env.written.value <= |Pending(own.transfer.toWrite)|))
          && (own.transfer.FileDownload? ==>
                && own.transfer.file.position <= |own.transfer.file.contents|))
  }

  /** `close_connection`: the table and the actions after closing `token`. */
  function Close(style: CloseStyle, token: Token, m: Table): (Table, seq<Action>)
  {
    match style
    case ReRegister => (m, [Action(token, Writable)])
    case Forget => (m - {token}, [])
  }

  /** `answer_command`: a control connection in the table gives up its data connection and replies 226. */
  function AnswerTable(m: Table, cmd: Token, msg: AsciiText): Table
  {
    if cmd in m && m[cmd].requestType.CommandTransfer? then
      var ct := m[cmd].requestType;
      m[cmd := m[cmd].(requestType := ct.(data := None, toWrite := Reset(ct.toWrite, Reply(RC.ClosingDataConnection(), msg))))]
    else m
  }

  /** The action `answer_command` pushes. */
  function AnswerActions(m: Table, cmd: Token): seq<Action>
  {
    if cmd in m && m[cmd].requestType.CommandTransfer? then [Action(cmd, Writable)] else []
  }

  /**
   * `close_connection_recursive` of the earlier server: drop `t`, and when it is a control
   * connection, drop its data connection the same way.
   */
  function CloseChain(m: Table, t: Token): (r: Table)
    ensures t !in r && r.Keys <= m.Keys
    ensures forall k | k in r :: r[k] == m[k]
    ensures t in m && m[t].requestType.CommandTransfer? && m[t].requestType.data.Some? ==> m[t].requestType.data.value !in r
    ensures t !in m ==> r == m
    decreases |m|
  {
    if t !in m then m
    else
      var rt := m[t].requestType;
      var m1 := m - {t};
      assert |m1| < |m| by { assert m1.Keys < m.Keys; }
      if rt.CommandTransfer? && rt.data.Some? then CloseChain(m1, rt.data.value) else m1
  }

  /** `handle_write` as a step: what one write does. */
  function Write(style: CloseStyle, token: Token, own: RequestType, m: Table, env: WriteEnv): WriteEffect
    requires WritePre(token, own, m, env)
  {
    match own
    case Closed(_) =>
      if style.ReRegister? then WriteEffect(Closed(Shut), m, [], Done(None))
      else WriteEffect(own, m, [], IoError(NotFound))
    case CommandTransfer(_, _, _) => CommandWrite(style, token, own, m, env.written)
    case PassiveModePort(_, _) => WriteEffect(own, m, [], IoError(NotFound))
    case _ =>
      match own.transfer
      case Buffer(_) => BufferWrite(style, token, own, m, env.written)
      case FileDownload(file) =>
        var s := SendFile(style, token, own.command, file.contents, file.position, own.stream, m, [], [], env.chunks, 0);
        WriteEffect(WithSocket(WithTransfer(own, FileDownload(File(file.contents, s.pos))), s.stream), s.table, s.actions,
          if s.outcome.Mismatch? then Panicked else Done(None))
      case FileUpload(_, _) => WriteEffect(own, m, [], Panicked)
  }

  /** A control connection sends its reply; once it is all sent, it reads again and the callback runs. */
  function CommandWrite(style: CloseStyle, token: Token, own: RequestType, m: Table, written: OsResult<nat>): WriteEffect
    requires own.CommandTransfer? && Sound(own.toWrite)
  {
    var b := own.toWrite;
    match written
    case Gives(n) =>
      if n + b.offset >= |b.buffer| then
        WriteEffect(own.(toWrite := BufferToWrite([], 0, None)), m, [Action(token, Readable)], Done(b.callback))
      else
        WriteEffect(own.(toWrite := b.(offset := b.offset + n)), m, [Action(token, Writable)], Done(None))
    case Fails(kind) =>
      if kind == WouldBlock then WriteEffect(own, m, [Action(token, Writable)], Done(None))
      else
        match style
        case ReRegister => WriteEffect(WithSocket(own, Shut), m, [Action(token, Writable)], Done(None))
        case Forget =>
          var m1 := m - {token};
          WriteEffect(WithSocket(own, Shut), if own.data.Some? then CloseChain(m1, own.data.value) else m1, [], Done(None))
  }

  /**
   * A file transfer sends its buffer; once it is all sent, the socket is shut, the entry
   * removed, and the control connection told with a 226.
   */
  function BufferWrite(style: CloseStyle, token: Token, own: RequestType, m: Table, written: OsResult<nat>): WriteEffect
    requires IsTransfer(own) && own.transfer.Buffer? && Sound(own.transfer.toWrite) && token in m
  {
    var b := own.transfer.toWrite;
    var cmd := own.command;
    match written
    case Gives(n) =>
      if n + b.offset >= |b.buffer| then
        var m1 := m - {token};
        if cmd in m1 then
          var m2 := if m1[cmd].requestType.CommandTransfer? then
            var ct := m1[cmd].requestType;
            m1[cmd := m1[cmd].(requestType := ct.(data := None, toWrite := ct.toWrite.(buffer := Reply(RC.ClosingDataConnection(), ClosingTransfer), offset := 0)))]
          else m1;
          WriteEffect(WithSocket(own, Shut), m2, [Action(cmd, Writable)], Done(None))
        else WriteEffect(WithSocket(own, Shut), m1, [], Done(None))
      else
        WriteEffect(WithTransfer(own, Buffer(b.(offset := b.offset + n))), m, [Action(token, Writable)], Done(None))
    case Fails(kind) =>
      if kind == WouldBlock then WriteEffect(own, m, [Action(token, Writable)], Done(None))
      else
        var (m1, acts) := Close(style, token, m);
        WriteEffect(WithSocket(own, Shut), m1, acts, Done(None))
  }

  /** How sending a file stops: at the end, on a blocked write, or on a short write (the assertion panics). */
  datatype SendOutcome = Finished | Blocked | Mismatch

  /** Where sending a file stopped: the file position, the socket, the table, the actions, the bytes the socket took. */
  datatype SendState = SendState(pos: nat, stream: Socket, table: Table, actions: seq<Action>, sent: seq<byte>, outcome: SendOutcome)

  /**
   * The download loop from `pos`: each chunk is written whole, or the write blocks (the file
   * seeks back and the connection waits to be writable), or it fails (the connection is closed,
   * the control connection told, and the loop goes on with the next chunk). At the end the
   * connection is closed and the control connection told that the file was sent.
   */
  function SendFile(style: CloseStyle, token: Token, cmd: Token, c: seq<byte>, pos: nat, stream: Socket,
                    m: Table, acts: seq<Action>, sent: seq<byte>, writes: nat -> OsResult<nat>, i: nat): (r: SendState)
    requires pos <= |c|
    ensures pos <= r.pos <= |c|
    decreases |c| - pos
  {
    if pos == |c| then
      var (m1, a1) := Close(style, token, m);
      SendState(pos, Shut, AnswerTable(m1, cmd, FileSent), acts + a1 + AnswerActions(m1, cmd), sent, Finished)
    else
      var n := ChunkAt(|c|, pos);
      match writes(i)
      case Fails(kind) =>
        if kind == WouldBlock then SendState(pos, stream, m, acts + [Action(token, Writable)], sent, Blocked)
        else
          var (m1, a1) := Close(style, token, m);
          SendFile(style, token, cmd, c, pos + n, Shut, AnswerTable(m1, cmd, TransferError),
            acts + a1 + AnswerActions(m1, cmd), sent, writes, i + 1)
      case Gives(k) =>
        if k != n then SendState(pos + n, stream, m, acts, sent, Mismatch)
        else SendFile(style, token, cmd, c, pos + n, stream, m, acts, sent + c[pos..pos + n], writes, i + 1)
  }

  /** `answer_command`, on the shared table. */
  method AnswerCommand(db: ConnectionDb, cmd: Token, msg: AsciiText) returns (acts: seq<Action>)
    modifies db
    ensures db.entries == AnswerTable(old(db.entries), cmd, msg) && acts == AnswerActions(old(db.entries), cmd)
  {
    acts := [];
    if cmd in db.entries {
      var ctx := db.entries[cmd];
      if ctx.requestType.CommandTransfer? {
        var ct := ctx.requestType.(data := None);
        ct := ct.(toWrite := Reset(ct.toWrite, Reply(RC.ClosingDataConnection(), msg)));
        db.entries := db.entries[cmd := ctx.(requestType := ct)];
        acts := [Action(cmd, Writable)];
      }
    }
  }

  /** `close_connection` once the socket is shut. */
  method CloseArm(db: ConnectionDb, style: CloseStyle, token: Token) returns (acts: seq<Action>)
    modifies db
    ensures (db.entries, acts) == Close(style, token, old(db.entries))
  {
    match style {
      case ReRegister =>
        acts := [Action(token, Writable)];
      case Forget =>
        db.entries := db.entries - {token};
        acts := [];
    }
  }

  /** The control connection's write. */
  method CommandWriteArm(style: CloseStyle, token: Token, own: RequestType, written: OsResult<nat>)
    returns (rt: RequestType, acts: seq<Action>, callback: Option<Callback>, failed: bool)
    requires own.CommandTransfer? && Sound(own.toWrite)
    ensures var e := CommandWrite(style, token, own, map[], written);
      && rt == e.own && e.result == Done(callback)
      && (failed <==> written.Fails? && written.kind != WouldBlock)
      && (failed && style.Forget? ==> acts == [])
      && (!(failed && style.Forget?) ==> acts == e.actions)
  {
    rt := own;
    callback := None;
    failed := false;
    var b := own.toWrite;
    if written.Gives? {
      var n := written.value;
      if n + b.offset >= |b.buffer| {
        callback := b.callback;
        rt := rt.(toWrite := BufferToWrite([], 0, None));
        acts := [Action(token, Readable)];
      } else {
        rt := rt.(toWrite := b.(offset := b.offset + n));
        acts := [Action(token, Writable)];
      }
    } else if written.kind == WouldBlock {
      acts := [Action(token, Writable)];
    } else {
      failed := true;
      rt := WithSocket(rt, Shut);
      acts := if style.ReRegister? then [Action(token, Writable)] else [];
    }
  }

  /** The file transfer's write of its buffer. */
  method BufferWriteArm(db: ConnectionDb, style: CloseStyle, token: Token, own: RequestType, written: OsResult<nat>)
    returns (rt: RequestType, acts: seq<Action>)
    requires IsTransfer(own) && own.transfer.Buffer? && Sound(own.transfer.toWrite) && token in db.entries
    modifies db
    ensures var e := BufferWrite(style, token, own, old(db.entries), written);
      rt == e.own && db.entries == e.table && acts == e.actions && e.result == Done(None)
  {
    rt := own;
    var b := own.transfer.toWrite;
    var cmd := own.command;
    if written.Gives? {
      var n := written.value;
      if n + b.offset >= |b.buffer| {
        rt := WithSocket(rt, Shut);
        db.entries := db.entries - {token};
        acts := [];
        if cmd in db.entries {
          var ctx := db.entries[cmd];
          if ctx.requestType.CommandTransfer? {
            var ct := ctx.requestType.(data := None);
            ct := ct.(toWrite := ct.toWrite.(buffer := Reply(RC.ClosingDataConnection(), ClosingTransfer), offset := 0));
            db.entries := db.entries[cmd := ctx.(requestType := ct)];
          }
          acts := [Action(cmd, Writable)];
        }
        return;
      }
      rt := WithTransfer(rt, Buffer(b.(offset := b.offset + n)));
      acts := [Action(token, Writable)];
    } else if written.kind == WouldBlock {
      acts := [Action(token, Writable)];
    } else {
      rt := WithSocket(rt, Shut);
      acts := CloseArm(db, style, token);
    }
  }

  /** One step of `SendFile` on a write that blocks. */
  lemma SendFileBlocks(style: CloseStyle, token: Token, cmd: Token, c: seq<byte>, pos: nat, stream: Socket,
                       m: Table, acts: seq<Action>, sent: seq<byte>, writes: nat -> OsResult<nat>, i: nat)
    requires pos < |c| && writes(i) == Fails(WouldBlock)
    ensures SendFile(style, token, cmd, c, pos, stream, m, acts, sent, writes, i)
         == SendState(pos, stream, m, acts + [Action(token, Writable)], sent, Blocked)
  {
  }

  /** `SendFile` at the end of the file: the connection is closed and the control connection told. */
  lemma SendFileFinishes(style: CloseStyle, token: Token, cmd: Token, c: seq<byte>, pos: nat, stream: Socket,
                         m: Table, acts: seq<Action>, sent: seq<byte>, writes: nat -> OsResult<nat>, i: nat)
    requires pos == |c|
    ensures var (m1, a1) := Close(style, token, m);
      SendFile(style, token, cmd, c, pos, stream, m, acts, sent, writes, i)
      == SendState(pos, Shut, AnswerTable(m1, cmd, FileSent), acts + a1 + AnswerActions(m1, cmd), sent, Finished)
  {
  }

  /** One step of `SendFile` on a write that fails: the connection is closed and the loop goes on. */
  lemma SendFileFails(style: CloseStyle, token: Token, cmd: Token, c: seq<byte>, pos: nat, stream: Socket,
                      m: Table, acts: seq<Action>, sent: seq<byte>, writes: nat -> OsResult<nat>, i: nat)
    requires pos < |c| && writes(i).Fails? && writes(i).kind != WouldBlock
    ensures var n := ChunkAt(|c|, pos);
      var (m1, a1) := Close(style, token, m);
      SendFile(style, token, cmd, c, pos, stream, m, acts, sent, writes, i)
      == SendFile(style, token, cmd, c, pos + n, Shut, AnswerTable(m1, cmd, TransferError),
           acts + a1 + AnswerActions(m1, cmd), sent, writes, i + 1)
  {
  }

  /** One step of `SendFile` on a write that takes the whole chunk. */
  lemma SendFileWrites(style: CloseStyle, token: Token, cmd: Token, c: seq<byte>, pos: nat, stream: Socket,
                       m: Table, acts: seq<Action>, sent: seq<byte>, writes: nat -> OsResult<nat>, i: nat)
    requires pos < |c| && writes(i) == Gives(ChunkAt(|c|, pos))
    ensures var n := ChunkAt(|c|, pos);
      SendFile(style, token, cmd, c, pos, stream, m, acts, sent, writes, i)
      == SendFile(style, token, cmd, c, pos + n, stream, m, acts, sent + c[pos..pos + n], writes, i + 1)
  {
  }

  /** The download loop's step on a failed write: the connection is closed, the control connection told and the loop goes on. */
  method SendFailStep(db: ConnectionDb, style: CloseStyle, token: Token, cmd: Token, c: seq<byte>, pos: nat, stream: Socket,
                      acts: seq<Action>, ghost sent: seq<byte>, writes: nat -> OsResult<nat>, i: nat) returns (acts': seq<Action>)
    requires pos < |c| && writes(i).Fails? && writes(i).kind != WouldBlock
    modifies db
    ensures SendFile(style, token, cmd, c, pos, stream, old(db.entries), acts, sent, writes, i)
         == SendFile(style, token, cmd, c, pos + ChunkAt(|c|, pos), Shut, db.entries, acts', sent, writes, i + 1)
  {
    SendFileFails(style, token, cmd, c, pos, stream, db.entries, acts, sent, writes, i);
    var closing := CloseArm(db, style, token);
    var answer := AnswerCommand(db, cmd, TransferError);
    acts' := acts + closing + answer;
  }

  /** The download loop's end: the whole file is sent, the connection is closed and the control connection told. */
  method SendEndStep(db: ConnectionDb, style: CloseStyle, token: Token, cmd: Token, c: seq<byte>, pos: nat, stream: Socket,
                     acts: seq<Action>, ghost sent: seq<byte>, writes: nat -> OsResult<nat>, i: nat) returns (acts': seq<Action>)
    requires pos == |c|
    modifies db
    ensures SendFile(style, token, cmd, c, pos, stream, old(db.entries), acts, sent, writes, i)
         == SendState(pos, Shut, db.entries, acts', sent, Finished)
  {
    SendFileFinishes(style, token, cmd, c, pos, stream, db.entries, acts, sent, writes, i);
    var closing := CloseArm(db, style, token);
    var answer := AnswerCommand(db, cmd, FileSent);
    acts' := acts + closing + answer;
  }

  /** The file transfer's download loop, as `SendFile` describes it. */
  method SendFileArm(db: ConnectionDb, style: CloseStyle, token: Token, own: RequestType, writes: nat -> OsResult<nat>)
    returns (rt: RequestType, acts: seq<Action>, r: Io<Option<Callback>>)
    requires IsTransfer(own) && own.transfer.FileDownload?
    requires own.transfer.file.position <= |own.transfer.file.contents|
    modifies db
    ensures var c := own.transfer.file.contents;
      var s := SendFile(style, token, own.command, c, own.transfer.file.position, own.stream, old(db.entries), [], [], writes, 0);
      && rt == WithSocket(WithTransfer(own, FileDownload(File(c, s.pos))), s.stream)
      && db.entries == s.table && acts == s.actions && r == (if s.outcome.Mismatch? then Panicked else Done(None))
  {
    var c := own.transfer.file.contents;
    var pos := own.transfer.file.position;
    var stream := own.stream;
    var cmd := own.command;
    acts := [];
    ghost var sent: seq<byte> := [];
    var i := 0;
    ghost var goal := SendFile(style, token, cmd, c, pos, stream, db.entries, [], [], writes, 0);
    while pos < |c|
      invariant pos <= |c|
      invariant goal == SendFile(style, token, cmd, c, pos, stream, db.entries, acts, sent, writes, i)
      decreases |c| - pos
    {
      var n := ChunkAt(|c|, pos);
      var w := writes(i);
      if w.Fails? {
        if w.kind == WouldBlock {
          SendFileBlocks(style, token, cmd, c, pos, stream, db.entries, acts, sent, writes, i);
          acts := acts + [Action(token, Writable)];
          rt := WithSocket(WithTransfer(own, FileDownload(File(c, pos))), stream);
          r := Done(None);
          return;
        }
        acts := SendFailStep(db, style, token, cmd, c, pos, stream, acts, sent, writes, i);
        stream := Shut;
      } else {
        if w.value != n {
          rt := WithSocket(WithTransfer(own, FileDownload(File(c, pos + n))), stream);
          r := Panicked;
          return;
        }
        SendFileWrites(style, token, cmd, c, pos, stream, db.entries, acts, sent, writes, i);
        sent := sent + c[pos..pos + n];
      }
      pos := pos + n;
      i := i + 1;
    }
    acts := SendEndStep(db, style, token, cmd, c, pos, stream, acts, sent, writes, i);
    rt := WithSocket(WithTransfer(own, FileDownload(File(c, pos))), Shut);
    r := Done(None);
  }

  /**
   * A control connection's write: the bytes the socket took are the front of what was pending
   * and the rest stays pending; once all is sent the buffer is empty, the connection reads
   * again and the callback is handed back to run.
   */
  lemma CommandWriteSendsInOrder(style: CloseStyle, token: Token, own: RequestType, m: Table, env: WriteEnv)
    requires WritePre(token, own, m, env) && own.CommandTransfer? && env.written.Gives?
    ensures var e := Write(style, token, own, m, env); var n := env.written.value; var before := Pending(own.toWrite);
      && e.table == m && e.own.CommandTransfer? && Sound(e.own.toWrite)
      && e.own.stream == own.stream && e.own.data == own.data
      && before == before[..n] + Pending(e.own.toWrite)
      && (n == |before| ==>
            && Pending(e.own.toWrite) == [] && e.own.toWrite.callback.None?
            && e.actions == [Action(token, Readable)] && e.result == Done(own.toWrite.callback))
      && (n < |before| ==>
            && e.own.toWrite.callback == own.toWrite.callback
            && e.actions == [Action(token, Writable)] && e.result == Done(None))
  {
    var b := own.toWrite;
    var n := env.written.value;
    if n < |Pending(b)| {
      var b1 := b.(offset := b.offset + n);
      assert Pending(b) == b.buffer[b.offset..b.offset + n] + Pending(b1);
    }
  }

  /**
   * A write that would block changes nothing and waits for the socket to be writable again,
   * for a control connection and for a transfer sending its buffer alike.
   */
  lemma WouldBlockWaits(style: CloseStyle, token: Token, own: RequestType, m: Table, env: WriteEnv)
    requires WritePre(token, own, m, env) && env.written == Fails(WouldBlock)
    requires own.CommandTransfer? || (IsTransfer(own) && own.transfer.Buffer?)
    ensures Write(style, token, own, m, env) == WriteEffect(own, m, [Action(token, Writable)], Done(None))
  {
  }

  /**
   * A control connection's failed write shuts its socket and keeps what was pending. This
   * server keeps the entry and asks for one more WRITABLE event, which surfaces the error; the
   * earlier one drops the entry and, through `close_connection_recursive`, its data connection.
   */
  lemma CommandWriteFailure(style: CloseStyle, token: Token, own: RequestType, m: Table, env: WriteEnv)
    requires WritePre(token, own, m, env) && own.CommandTransfer? && env.written.Fails? && env.written.kind != WouldBlock
    ensures var e := Write(style, token, own, m, env);
      && e.own == WithSocket(own, Shut) && e.result == Done(None)
      && (style.ReRegister? ==> e.table == m && e.actions == [Action(token, Writable)])
      && (style.Forget? ==>
            && token !in e.table && e.actions == []
            && (own.data.Some? ==> own.data.value !in e.table)
            && e.table.Keys <= m.Keys && (forall t | t in e.table :: e.table[t] == m[t]))
  {
  }

  /**
   * A transfer's buffer, partly sent: the bytes the socket took are the front of what was
   * pending, the rest stays pending and the transfer waits to write again.
   */
  lemma BufferTransferSends(style: CloseStyle, token: Token, own: RequestType, m: Table, env: WriteEnv)
    requires WritePre(token, own, m, env) && IsTransfer(own) && own.transfer.Buffer? && env.written.Gives?
    requires env.written.value < |Pending(own.transfer.toWrite)|
    ensures var e := Write(style, token, own, m, env); var n := env.written.value;
      var before := Pending(own.transfer.toWrite);
      && e.result == Done(None) && e.table == m && e.actions == [Action(token, Writable)] && e.own.stream == own.stream
      && e.own.transfer.Buffer? && Sound(e.own.transfer.toWrite)
      && before == before[..n] + Pending(e.own.transfer.toWrite)
  {
    var b := own.transfer.toWrite;
    var n := env.written.value;
    var b1 := b.(offset := b.offset + n);
    assert Write(style, token, own, m, env) ==
      WriteEffect(WithTransfer(own, Buffer(b1)), m, [Action(token, Writable)], Done(None));
    assert Pending(b) == b.buffer[b.offset..b.offset + n] + Pending(b1);
  }

  /**
   * A transfer's buffer, all sent: the socket is shut, the entry leaves the table, and the
   * control connection, when it is one, drops its data link and has the 226 reply to send;
   * nothing else changes.
   */
  lemma BufferTransferFinishes(style: CloseStyle, token: Token, own: RequestType, m: Table, env: WriteEnv)
    requires WritePre(token, own, m, env) && IsTransfer(own) && own.transfer.Buffer? && env.written.Gives?
    requires env.written.value == |Pending(own.transfer.toWrite)|
    ensures var e := Write(style, token, own, m, env); var cmd := own.command;
      && e.result == Done(None)
      && e.own.stream == Shut && token !in e.table && e.table.Keys == m.Keys - {token}
      && (forall t | t in e.table && t != cmd :: e.table[t] == m[t])
      && (cmd in m ==> e.actions == [Action(cmd, Writable)])
      && (cmd !in m ==> e.actions == [])
      && (cmd in m && m[cmd].requestType.CommandTransfer? ==>
            && e.table[cmd].requestType.CommandTransfer? && e.table[cmd].requestType.data.None?
            && Sound(e.table[cmd].requestType.toWrite)
            && Pending(e.table[cmd].requestType.toWrite) == Reply(RC.ClosingDataConnection(), ClosingTransfer)
            && e.table[cmd].requestType.toWrite.callback == m[cmd].requestType.toWrite.callback)
  {
    assert Write(style, token, own, m, env) == BufferWrite(style, token, own, m, env.written);
  }

  /** A socket that never fails outright: each write takes some bytes or would block. */
  ghost predicate NoHardErrors(writes: nat -> OsResult<nat>, i: nat)
  {
    forall j: nat | j >= i :: writes(j).Gives? || writes(j) == Fails(WouldBlock)
  }

  /**
   * Sending a file over a socket that never fails outright loses nothing: what the socket took
   * is the file from the start position up to where sending stopped. Sending stops at the end,
   * with the socket shut and the control connection told with a 226; or where a write would
   * block, with the file positioned at the chunk still to send and nothing else changed; or at
   * a short write, where the assertion fails.
   */
  lemma SendFileDelivers(style: CloseStyle, token: Token, cmd: Token, c: seq<byte>, pos: nat, stream: Socket,
                         m: Table, acts: seq<Action>, sent: seq<byte>, writes: nat -> OsResult<nat>, i: nat)
    requires pos <= |c| && NoHardErrors(writes, i)
    ensures var r := SendFile(style, token, cmd, c, pos, stream, m, acts, sent, writes, i);
      && (r.outcome.Finished? ==>
            && r.pos == |c| && r.sent == sent + c[pos..] && r.stream == Shut
            && r.table == AnswerTable(Close(style, token, m).0, cmd, FileSent)
            && r.actions == acts + Close(style, token, m).1 + AnswerActions(Close(style, token, m).0, cmd))
      && (r.outcome.Blocked? ==>
            && r.pos < |c| && r.sent == sent + c[pos..r.pos] && r.stream == stream
            && r.table == m && r.actions == acts + [Action(token, Writable)])
      && (r.outcome.Mismatch? ==> r.table == m && r.stream == stream && r.actions == acts)
  {
    SendFileSends(style, token, cmd, c, pos, stream, m, acts, sent, writes, i);
    SendFileEnds(style, token, cmd, c, pos, stream, m, acts, sent, writes, i);
  }

  /** `SendFileDelivers` for the bytes sent: those of the file from the starting position on, in order. */
  lemma {:induction false} SendFileSends(style: CloseStyle, token: Token, cmd: Token, c: seq<byte>, pos: nat, stream: Socket,
                                         m: Table, acts: seq<Action>, sent: seq<byte>, writes: nat -> OsResult<nat>, i: nat)
    requires pos <= |c| && NoHardErrors(writes, i)
    ensures var r := SendFile(style, token, cmd, c, pos, stream, m, acts, sent, writes, i);
      !r.outcome.Mismatch? ==> r.sent == sent + c[pos..r.pos] && (r.outcome.Finished? <==> r.pos == |c|)
    decreases |c| - pos
  {
    if pos == |c| {
      assert c[pos..] == [];
    } else {
      var n := ChunkAt(|c|, pos);
      assert writes(i).Gives? || writes(i) == Fails(WouldBlock);
      if writes(i) == Fails(WouldBlock) {
        SendFileBlocks(style, token, cmd, c, pos, stream, m, acts, sent, writes, i);
        assert c[pos..pos] == [];
      } else if writes(i).value == n {
        var sent1 := sent + c[pos..pos + n];
        var r := SendFile(style, token, cmd, c, pos + n, stream, m, acts, sent1, writes, i + 1);
        SendFileWrites(style, token, cmd, c, pos, stream, m, acts, sent, writes, i);
        SendFileSends(style, token, cmd, c, pos + n, stream, m, acts, sent1, writes, i + 1);
        if !r.outcome.Mismatch? {
          SentInOrder(sent, c, pos, pos + n, r.pos);
        }
      }
    }
  }

  /** `SendFileDelivers` for the socket, the table and the actions at the end of the loop. */
  lemma {:induction false} SendFileEnds(style: CloseStyle, token: Token, cmd: Token, c: seq<byte>, pos: nat, stream: Socket,
                                        m: Table, acts: seq<Action>, sent: seq<byte>, writes: nat -> OsResult<nat>, i: nat)
    requires pos <= |c| && NoHardErrors(writes, i)
    ensures var r := SendFile(style, token, cmd, c, pos, stream, m, acts, sent, writes, i);
      && (r.outcome.Finished? ==>
            && r.stream == Shut && r.table == AnswerTable(Close(style, token, m).0, cmd, FileSent)
            && r.actions == acts + Close(style, token, m).1 + AnswerActions(Close(style, token, m).0, cmd))
      && (r.outcome.Blocked? ==> r.stream == stream && r.table == m && r.actions == acts + [Action(token, Writable)])
      && (r.outcome.Mismatch? ==> r.table == m && r.stream == stream && r.actions == acts)
    decreases |c| - pos
  {
    if pos < |c| {
      var n := ChunkAt(|c|, pos);
      assert writes(i).Gives? || writes(i) == Fails(WouldBlock);
      if writes(i) == Fails(WouldBlock) {
        SendFileBlocks(style, token, cmd, c, pos, stream, m, acts, sent, writes, i);
      } else if writes(i).value == n {
        SendFileWrites(style, token, cmd, c, pos, stream, m, acts, sent, writes, i);
        SendFileEnds(style, token, cmd, c, pos + n, stream, m, acts, sent + c[pos..pos + n], writes, i + 1);
      }
    }
  }

  /** Two runs of bytes sent one after the other are the bytes between their ends. */
  lemma SentInOrder(sent: seq<byte>, c: seq<byte>, p: nat, q: nat, e: nat)
    requires p <= q <= e <= |c|
    ensures sent + c[p..q] + c[q..e] == sent + c[p..e]
  {
    assert c[p..e] == c[p..q] + c[q..e];
  }

  /**
   * Sending a file only removes its own entry (with the earlier server's closing) and rewrites
   * the control connection's, which stays a control connection.
   */
  lemma {:induction false} SendFileKeepsControlConnections(style: CloseStyle, token: Token, cmd: Token, c: seq<byte>, pos: nat,
                                                           stream: Socket, m: Table, acts: seq<Action>, sent: seq<byte>,
                                                           writes: nat -> OsResult<nat>, i: nat)
    requires pos <= |c| && token != cmd && (token in m ==> !m[token].requestType.CommandTransfer?)
    ensures var r := SendFile(style, token, cmd, c, pos, stream, m, acts, sent, writes, i);
      && CommandTokens(r.table) == CommandTokens(m)
      && r.table.Keys <= m.Keys && (style.ReRegister? ==> r.table.Keys == m.Keys)
    decreases |c| - pos
  {
    if pos == |c| {
      SendFileFinishes(style, token, cmd, c, pos, stream, m, acts, sent, writes, i);
      AnswerKeepsControlConnections(style, token, cmd, m, FileSent);
    } else {
      var n := ChunkAt(|c|, pos);
      match writes(i)
      case Fails(kind) =>
        if kind != WouldBlock {
          var (m1, a1) := Close(style, token, m);
          SendFileFails(style, token, cmd, c, pos, stream, m, acts, sent, writes, i);
          AnswerKeepsControlConnections(style, token, cmd, m, TransferError);
          var m2 := AnswerTable(m1, cmd, TransferError);
          SendFileKeepsControlConnections(style, token, cmd, c, pos + n, Shut, m2, acts + a1 + AnswerActions(m1, cmd), sent, writes, i + 1);
        }
      case Gives(k) =>
        if k == n {
          SendFileWrites(style, token, cmd, c, pos, stream, m, acts, sent, writes, i);
          SendFileKeepsControlConnections(style, token, cmd, c, pos + n, stream, m, acts, sent + c[pos..pos + n], writes, i + 1);
        }
    }
  }

  /** Closing a transfer and answering its control connection keeps the control connections. */
  lemma AnswerKeepsControlConnections(style: CloseStyle, token: Token, cmd: Token, m: Table, msg: AsciiText)
    requires token != cmd && (token in m ==> !m[token].requestType.CommandTransfer?)
    ensures var m1 := Close(style, token, m).0; var r := AnswerTable(m1, cmd, msg);
      && CommandTokens(r) == CommandTokens(m) && r.Keys <= m.Keys && (style.ReRegister? ==> r.Keys == m.Keys)
      && (token in r ==> !r[token].requestType.CommandTransfer?)
  {
    var m1 := Close(style, token, m).0;
    if style.Forget? {
      CommandTokensRemove(m, token);
    }
    if cmd in m1 && m1[cmd].requestType.CommandTransfer? {
      CommandTokensSameKind(m1, cmd, AnswerTable(m1, cmd, msg)[cmd]);
    }
  }

  /**
   * This server's write never adds or removes a control connection, and never adds an entry;
   * an entry leaves the table only when a transfer ends.
   */
  lemma WriteKeepsControlConnections(token: Token, own: RequestType, m: Table, env: WriteEnv)
    requires WritePre(token, own, m, env)
    ensures var e := Write(ReRegister, token, own, m, env);
      && CommandTokens(e.table) == CommandTokens(m) && e.table.Keys <= m.Keys
      && e.own.CommandTransfer? == own.CommandTransfer?
      && (!IsTransfer(own) ==> e.table == m)
  {
    if IsTransfer(own) {
      match own.transfer
      case Buffer(b) =>
        var e := Write(ReRegister, token, own, m, env);
        if env.written.Gives? && env.written.value + b.offset >= |b.buffer| {
          var cmd := own.command;
          var m1 := m - {token};
          CommandTokensRemove(m, token);
          if cmd in m1 && m1[cmd].requestType.CommandTransfer? {
            CommandTokensSameKind(m1, cmd, e.table[cmd]);
            assert e.table == m1[cmd := e.table[cmd]];
          }
        }
      case FileDownload(file) =>
        SendFileKeepsControlConnections(ReRegister, token, own.command, file.contents, file.position, own.stream, m, [], [], env.chunks, 0);
      case FileUpload(_, _) =>
    }
  }

  /** `HandlerWrite`: the connection's token, the shared table, and the actions this write asks for. */
  class HandlerWrite {
    const connectionToken: Token
    const connectionDb: ConnectionDb
    var actions: seq<Action>

    /** `HandlerWrite::new`: no actions yet. */
    constructor (connectionToken: Token, connectionDb: ConnectionDb)
      ensures this.connectionToken == connectionToken && this.connectionDb == connectionDb && actions == []
    {
      this.connectionToken := connectionToken;
      this.connectionDb := connectionDb;
      actions := [];
    }

    /** `handle_write`: the write of one connection, as `Write` describes it. */
    method HandleWrite(requestType: RequestType, env: WriteEnv) returns (rt: RequestType, r: Io<Option<Callback>>)
      requires WritePre(connectionToken, requestType, connectionDb.entries, env)
      modifies this, connectionDb
      ensures var e := Write(ReRegister, connectionToken, requestType, old(connectionDb.entries), env);
        rt == e.own && connectionDb.entries == e.table && actions == old(actions) + e.actions && r == e.result
    {
      rt := requestType;
      r := Done(None);
      match requestType {
        case Closed(_) =>
          rt := Closed(Shut);
        case CommandTransfer(_, _, _) =>
          var acts, callback, failed;
          rt, acts, callback, failed := CommandWriteArm(ReRegister, connectionToken, requestType, env.written);
          actions := actions + acts;
          r := Done(callback);
        case PassiveModePort(_, _) =>
          r := IoError(NotFound);
        case _ =>
          match requestType.transfer {
            case Buffer(_) =>
              var acts;
              rt, acts := BufferWriteArm(connectionDb, ReRegister, connectionToken, requestType, env.written);
              actions := actions + acts;
            case FileDownload(_) =>
              var acts;
              rt, acts, r := SendFileArm(connectionDb, ReRegister, connectionToken, requestType, env.chunks);
              actions := actions + acts;
            case FileUpload(_, _) =>
              r := Panicked;
          }
      }
    }
  }
}
