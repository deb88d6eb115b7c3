/**
 * The earlier server's write side (FTPserver/rust_server/ftp_server/src/ftp/handler_write.rs).
 * Its steps are those of `ServerHandlerWrite` with `Forget` closing: a failed connection is
 * shut and dropped from the table, and a control connection's failure also drops its data
 * connection through `close_connection_recursive`.
 */
module LegacyHandlerWrite {
  import opened Ascii
  import opened Wrappers
  import opened ServerState
  import opened ServerHandlerWrite

  /** `close_connection_recursive`: drops `t` and, when it is a control connection, its data connection. */
  method CloseConnectionRecursive(db: ConnectionDb, t: Token)
    modifies db
    ensures db.entries == CloseChain(old(db.entries), t)
    decreases |db.entries|
  {
    if t !in db.entries {
      return;
    }
    var conn := db.entries[t];
    ghost var m := db.entries;
    db.entries := db.entries - {t};
    assert |db.entries| < |m| by { assert db.entries.Keys < m.Keys; }
    match conn.requestType {
      case CommandTransfer(_, _, data) =>
        if data.Some? {
          CloseConnectionRecursive(db, data.value);
        }
      case _ =>
    }
  }

  /** `HandlerWrite` of the earlier server. */
  class HandlerWrite {
    const connectionToken: Token
    const connectionDb: ConnectionDb
    var actions: seq<Action>

    /** `HandlerWrite::new`: no actions yet. */
    constructor (connectionToken: Token, connectionDb: ConnectionDb)
      ensures this.connectionToken == connectionToken && this.connectionDb == connectionDb && actions == []
    {
      this.connectionToken := connectionToken;
      this.connectionDb := connectionDb;
      actions := [];
    }

    /** `handle_write`: the write of one connection, as `Write` with `Forget` closing describes it. */
    method HandleWrite(requestType: RequestType, env: WriteEnv) returns (rt: RequestType, r: Io<Option<Callback>>)
      requires WritePre(connectionToken, requestType, connectionDb.entries, env)
      modifies this, connectionDb
      ensures var e := Write(Forget, connectionToken, requestType, old(connectionDb.entries), env);
        rt == e.own && connectionDb.entries == e.table && actions == old(actions) + e.actions && r == e.result
    {
      rt := requestType;
      r := Done(None);
      match requestType {
        case Closed(_) =>
          r := IoError(NotFound);
        case CommandTransfer(_, _, data) =>
          var acts, callback, failed;
          rt, acts, callback, failed := CommandWriteArm(Forget, connectionToken, requestType, env.written);
          if failed {
            connectionDb.entries := connectionDb.entries - {connectionToken};
            if data.Some? {
              CloseConnectionRecursive(connectionDb, data.value);
            }
          }
          actions := actions + acts;
          r := Done(callback);
        case PassiveModePort(_, _) =>
          r := IoError(NotFound);
        case _ =>
          match requestType.transfer {
            case Buffer(_) =>
              var acts;
              rt, acts := BufferWriteArm(connectionDb, Forget, connectionToken, requestType, env.written);
              actions := actions + acts;
            case FileDownload(_) =>
              var acts;
              rt, acts, r := SendFileArm(connectionDb, Forget, connectionToken, requestType, env.chunks);
              actions := actions + acts;
            case FileUpload(_, _) =>
              r := Panicked;
          }
      }
    }
  }

  /**
   * The earlier server's write only ever removes entries: the connection's own on a failure or
   * at the end of a transfer, and the data connection of a failed control connection. A write
   * on a transfer keeps every control connection.
   */
  lemma WriteOnlyCloses(token: Token, own: RequestType, m: Table, env: WriteEnv)
    requires WritePre(token, own, m, env)
    ensures var e := Write(Forget, token, own, m, env);
      && e.table.Keys <= m.Keys && CommandTokens(e.table) <= CommandTokens(m)
      && (IsTransfer(own) ==>
            && CommandTokens(e.table) == CommandTokens(m)
            && (e.table.Keys == m.Keys || e.table.Keys == m.Keys - {token}))
  {
    var e := Write(Forget, token, own, m, env);
    if IsTransfer(own) {
      match own.transfer
      case Buffer(b) =>
        if env.written.Gives? && env.written.value + b.offset >= |b.buffer| {
          var cmd := own.command;
          var m1 := m - {token};
          CommandTokensRemove(m, token);
          if cmd in m1 && m1[cmd].requestType.CommandTransfer? {
            CommandTokensSameKind(m1, cmd, e.table[cmd]);
            assert e.table == m1[cmd := e.table[cmd]];
          }
        } else if env.written.Fails? && env.written.kind != WouldBlock {
          CommandTokensRemove(m, token);
        }
      case FileDownload(file) =>
        SendFileKeepsControlConnections(Forget, token, own.command, file.contents, file.position, own.stream, m, [], [], env.chunks, 0);
        SendFileRemovesOwn(token, own.command, file.contents, file.position, own.stream, m, [], [], env.chunks, 0);
      case FileUpload(_, _) =>
    }
  }

  /** With `Forget` closing, a download removes its own entry or nothing. */
  lemma {:induction false} SendFileRemovesOwn(token: Token, cmd: Token, c: seq<byte>, pos: nat, stream: Socket, m: Table,
                                              acts: seq<Action>, sent: seq<byte>, writes: nat -> OsResult<nat>, i: nat)
    requires pos <= |c|
    ensures var r := SendFile(Forget, token, cmd, c, pos, stream, m, acts, sent, writes, i);
      r.table.Keys == m.Keys || r.table.Keys == m.Keys - {token}
    decreases |c| - pos
  {
    if pos < |c| {
      var n := ChunkAt(|c|, pos);
      match writes(i)
      case Fails(kind) =>
        if kind != WouldBlock {
          var m1 := m - {token};
          var m2 := AnswerTable(m1, cmd, TransferError);
          assert m2.Keys == m.Keys - {token};
          SendFileFails(Forget, token, cmd, c, pos, stream, m, acts, sent, writes, i);
          SendFileRemovesOwn(token, cmd, c, pos + n, Shut, m2, acts + [] + AnswerActions(m1, cmd), sent, writes, i + 1);
        }
      case Gives(k) =>
        if k == n {
          SendFileRemovesOwn(token, cmd, c, pos + n, stream, m, acts, sent + c[pos..pos + n], writes, i + 1);
        }
    }
  }
}
