/**
 * The write side of the earlier server (FTPserver/rust_server/ftp_server/src/ftp/handlers.rs),
 * over that server's own connection types: a control connection sends its reply, a passive
 * transfer sends its buffer and then tells its control connection with a 201 reply.
 *
 * A control connection that finishes sending clears its buffer but keeps the old offset, so
 * the offset can point past the end of the empty buffer. It then waits to read, and every step
 * that asks for it to become writable again gives it a new buffer from offset 0 first; so no
 * write starts from the stale offset (`StaleOnlyWhileReading`, `WriteKeepsStaleOnlyWhileReading`,
 * `WriteNeverSlicesStale`).
 */
module LegacyHandlers {
  import opened Ascii
  import opened Wrappers
  import SS = ServerState
  import RC = ReplyCodes
  import LRC = LegacyReplyCodes
  import opened LegacyServer

  /** `close_connection_recursive`: drops `t` and, when it is a control connection, what it links to. */
  function CloseChain(m: Table, t: SS.Token): (r: Table)
    ensures r.Keys <= m.Keys && t !in r
    ensures forall k | k in r :: r[k] == m[k]
    ensures t in m && m[t].CommandTransfer? && m[t].data.Some? ==> m[t].data.value !in r
    ensures t !in m ==> r == m
    decreases |m|
  {
    if t !in m then m
    else
      var m1 := m - {t};
      assert |m1| < |m| by { assert m1.Keys < m.Keys; }
      match m[t]
      case CommandTransfer(_, _, Some(d)) => CloseChain(m1, d)
      case _ => m1
  }

  /**
   * Where the data connection is a transfer or gone, as every link PORT and an accept make,
   * the recursive close drops the same entries as the server's `close_connection`.
   */
  lemma CloseChainAgreesWithClosing(m: Table, t: SS.Token)
    requires t in m && m[t].CommandTransfer? && m[t].data.Some? ==> m[t].data.value !in m || !m[m[t].data.value].CommandTransfer?
    ensures CloseChain(m, t) == Closing(m, t)
  {
    if t in m && m[t].CommandTransfer? && m[t].data.Some? {
      var d := m[t].data.value;
      var m1 := m - {t};
      if d in m1 {
        var m2 := m1 - {d};
        assert |m2| < |m1| by { assert m2.Keys < m1.Keys; }
        assert CloseChain(m1, d) == m2;
      }
    }
  }

  /** `close_connection_recursive` on the shared table. */
  method CloseConnectionRecursive(db: ConnectionDb, t: SS.Token)
    modifies db
    ensures db.entries == CloseChain(old(db.entries), t)
    decreases |db.entries|
  {
    if t !in db.entries {
      return;
    }
    var conn := db.entries[t];
    ghost var m := db.entries;
    db.entries := db.entries - {t};
    assert |db.entries| < |m| by { assert db.entries.Keys < m.Keys; }
    match conn {
      case CommandTransfer(_, _, Some(d)) =>
        CloseConnectionRecursive(db, d);
      case _ =>
    }
  }

  /** What a write leaves: the connection's new `RequestType`, the table, the actions pushed, the result. */
  datatype WriteEffect = WriteEffect(own: RequestType, table: Table, actions: seq<SS.Action>, result: SS.Io<()>)

  const SuccessTransfer: AsciiText := Join("Successfully", " transfered file...")

  /**
   * `handle_write` as a step. A finished reply empties the buffer and keeps the offset; the
   * connection then waits to read.
   */
  function Write(token: SS.Token, own: RequestType, m: Table, written: SS.OsResult<nat>): WriteEffect
  {
    match own
    case CommandTransfer(s, b, t) =>
      if !Sound(b) then WriteEffect(own, m, [], SS.Panicked)
      else
        (match written
         case Gives(n) =>
           if n + b.offset >= |b.buffer| then WriteEffect(CommandTransfer(s, b.(buffer := []), t), m, [SS.Action(token, SS.Readable)], SS.Done(()))
           else WriteEffect(CommandTransfer(s, b.(offset := b.offset + n), t), m, [SS.Action(token, SS.Writable)], SS.Done(()))
         case Fails(kind) =>
           if kind == SS.WouldBlock then WriteEffect(own, m, [SS.Action(token, SS.Writable)], SS.Done(()))
           else
             var m1 := m - {token};
             WriteEffect(CommandTransfer(SS.Shut, b, t), if t.Some? then CloseChain(m1, t.value) else m1, [], SS.Done(())))
    case FileTransferPassive(s, Buffer(b), cmd) => BufferWrite(token, s, b, cmd, m, written)
    case FileTransferPassive(_, _, _) => WriteEffect(own, m, [], SS.Panicked)
    case _ => WriteEffect(own, m, [], SS.IoError(SS.NotFound))
  }

  /** The control connection `cmd` told that the file went out, if it is in the table. */
  function Notified(m: Table, cmd: SS.Token): Table
  {
    if cmd in m && m[cmd].CommandTransfer?
    then m[cmd := m[cmd].(toWrite := Reset(m[cmd].toWrite, SS.Reply(LRC.SuccessTransferingFile(), SuccessTransfer)))]
    else m
  }

  /**
   * `write_buffer_file_transfer`: once everything is sent the stream is shut and the control
   * connection, when it is one, gets the 201 reply and is made writable; a hard error shuts the
   * stream and drops the connection.
   */
  function BufferWrite(token: SS.Token, s: SS.Socket, b: BufferToWrite, cmd: SS.Token, m: Table,
                       written: SS.OsResult<nat>): WriteEffect
  {
    var own := FileTransferPassive(s, Buffer(b), cmd);
    if !Sound(b) then WriteEffect(own, m, [], SS.Panicked)
    else
      match written
      case Gives(n) =>
        if n + b.offset >= |b.buffer| then
          WriteEffect(FileTransferPassive(SS.Shut, Buffer(b), cmd), Notified(m, cmd),
            if cmd in m && m[cmd].CommandTransfer? then [SS.Action(cmd, SS.Writable)] else [], SS.Done(()))
        else WriteEffect(FileTransferPassive(s, Buffer(b.(offset := b.offset + n)), cmd), m, [SS.Action(token, SS.Writable)], SS.Done(()))
      case Fails(kind) =>
        if kind == SS.WouldBlock then WriteEffect(own, m, [SS.Action(token, SS.Writable)], SS.Done(()))
        else WriteEffect(FileTransferPassive(SS.Shut, Buffer(b), cmd), m - {token}, [], SS.Done(()))
  }

  /** `HandlerWrite` of the earlier server: its token, the shared table and the shared action list. */
  class HandlerWrite {
    const connectionToken: SS.Token
    const connectionDb: ConnectionDb
    const actionsReference: SS.ActionList

    /** `HandlerWrite::new`. */
    constructor (connectionToken: SS.Token, connectionDb: ConnectionDb, actionsReference: SS.ActionList)
      ensures this.connectionToken == connectionToken && this.connectionDb == connectionDb
      ensures this.actionsReference == actionsReference
    {
      this.connectionToken := connectionToken;
      this.connectionDb := connectionDb;
      this.actionsReference := actionsReference;
    }

    /** `keep_interest`: asks for the connection to be registered for `interest` again. */
    method KeepInterest(interest: SS.Interest)
      modifies actionsReference
      ensures actionsReference.items == old(actionsReference.items) + [SS.Action(connectionToken, interest)]
    {
      actionsReference.Push(SS.Action(connectionToken, interest));
    }

    /** `handle_write`, as `Write` describes it. */
    method HandleWrite(requestType: RequestType, written: SS.OsResult<nat>) returns (rt: RequestType, r: SS.Io<()>)
      modifies connectionDb, actionsReference
      ensures var e := Write(connectionToken, requestType, old(connectionDb.entries), written);
        rt == e.own && connectionDb.entries == e.table && actionsReference.items == old(actionsReference.items) + e.actions
        && r == e.result
    {
      rt := requestType;
      r := SS.Done(());
      match requestType {
        case CommandTransfer(s, toWrite, t) =>
          if !Sound(toWrite) {
            r := SS.Panicked;
            return;
          }
          if written.Gives? {
            if written.value + toWrite.offset >= |toWrite.buffer| {
              rt := CommandTransfer(s, toWrite.(buffer := []), t);
              KeepInterest(SS.Readable);
            } else {
              rt := CommandTransfer(s, toWrite.(offset := toWrite.offset + written.value), t);
              KeepInterest(SS.Writable);
            }
          } else if written.kind == SS.WouldBlock {
            KeepInterest(SS.Writable);
          } else {
            rt := CommandTransfer(SS.Shut, toWrite, t);
            connectionDb.entries := connectionDb.entries - {connectionToken};
            if t.Some? {
              CloseConnectionRecursive(connectionDb, t.value);
            }
          }
        case FileTransferPassive(s, Buffer(toWrite), cmd) =>
          rt, r := WriteBufferFileTransfer(s, toWrite, cmd, written);
        case FileTransferPassive(_, _, _) =>
          r := SS.Panicked;
        case _ =>
          r := SS.IoError(SS.NotFound);
      }
    }

    /** `write_buffer_file_transfer`, as `BufferWrite` describes it. */
    method WriteBufferFileTransfer(s: SS.Socket, toWrite: BufferToWrite, cmd: SS.Token, written: SS.OsResult<nat>)
      returns (rt: RequestType, r: SS.Io<()>)
      modifies connectionDb, actionsReference
      ensures var e := BufferWrite(connectionToken, s, toWrite, cmd, old(connectionDb.entries), written);
        rt == e.own && connectionDb.entries == e.table && actionsReference.items == old(actionsReference.items) + e.actions
        && r == e.result
    {
      rt := FileTransferPassive(s, Buffer(toWrite), cmd);
      r := SS.Done(());
      if !Sound(toWrite) {
        r := SS.Panicked;
        return;
      }
      if written.Gives? {
        if written.value + toWrite.offset >= |toWrite.buffer| {
          rt := FileTransferPassive(SS.Shut, Buffer(toWrite), cmd);
          if cmd in connectionDb.entries {
            var commandConnection := connectionDb.entries[cmd];
            if commandConnection.CommandTransfer? {
              var reply := Reset(commandConnection.toWrite, SS.Reply(LRC.SuccessTransferingFile(), SuccessTransfer));
              connectionDb.entries := connectionDb.entries[cmd := commandConnection.(toWrite := reply)];
              actionsReference.Push(SS.Action(cmd, SS.Writable));
            }
          }
          return;
        }
        rt := FileTransferPassive(s, Buffer(toWrite.(offset := toWrite.offset + written.value)), cmd);
        KeepInterest(SS.Writable);
      } else if written.kind == SS.WouldBlock {
        KeepInterest(SS.Writable);
      } else {
        rt := FileTransferPassive(SS.Shut, Buffer(toWrite), cmd);
        connectionDb.entries := connectionDb.entries - {connectionToken};
      }
    }
  }

  /**
   * A control connection sends its reply in order: a partial write sends the next bytes, keeps
   * the rest and asks to write again; a complete one empties the buffer, leaving the offset where
   * it was, and asks to read the next command. Nothing else in the table changes.
   */
  lemma CommandWriteSendsInOrder(token: SS.Token, own: RequestType, m: Table, n: nat)
    requires own.CommandTransfer? && Sound(own.toWrite)
    ensures var e := Write(token, own, m, SS.Gives(n)); var b := own.toWrite;
      && e.own.CommandTransfer? && e.own.data == own.data && e.table == m && e.result == SS.Done(())
      && (n + b.offset >= |b.buffer| ==>
            && e.own.toWrite == BufferToWrite([], b.offset) && e.actions == [SS.Action(token, SS.Readable)])
      && (n + b.offset < |b.buffer| ==>
            && Sound(e.own.toWrite) && Pending(b) == Pending(b)[..n] + Pending(e.own.toWrite)
            && e.actions == [SS.Action(token, SS.Writable)])
  {
    var b := own.toWrite;
    if n + b.offset < |b.buffer| {
      var e := Write(token, own, m, SS.Gives(n));
      assert Pending(e.own.toWrite) == b.buffer[b.offset + n..];
      assert Pending(b) == Pending(b)[..n] + b.buffer[b.offset + n..];
    }
  }

  /**
   * A three-byte reply sent in two writes leaves the offset at 2 on the emptied buffer, and the
   * connection asks only to read.
   */
  lemma SplitReplyLeavesStaleOffset()
    ensures var own := CommandTransfer(SS.Open, BufferToWrite([50, 13, 10], 0), None);
      var first := Write(1, own, map[1 := own], SS.Gives(2));
      var second := Write(1, first.own, first.table, SS.Gives(1));
      && first.own.toWrite.offset == 2 && first.actions == [SS.Action(1, SS.Writable)]
      && second.own.toWrite == BufferToWrite([], 2) && !Sound(second.own.toWrite)
      && second.actions == [SS.Action(1, SS.Readable)]
  {
  }

  /** The table as a write leaves it, with the connection's own new state in its entry. */
  function Settled(token: SS.Token, e: WriteEffect): Table
  {
    if token in e.table then e.table[token := e.own] else e.table
  }

  /** A write keeps the buffers as `StaleOnlyWhileReading` says. */
  lemma WriteKeepsStaleOnlyWhileReading(token: SS.Token, own: RequestType, m: Table, written: SS.OsResult<nat>, acts: seq<SS.Action>)
    requires StaleOnlyWhileReading(m, acts) && token in m && m[token] == own
    ensures var e := Write(token, own, m, written); StaleOnlyWhileReading(Settled(token, e), acts + e.actions)
  {
    var e := Write(token, own, m, written);
    var r := Settled(token, e);
    match own {
      case CommandTransfer(_, b, _) =>
        if Sound(b) && written.Gives? && written.value + b.offset >= |b.buffer| {
          forall t | t in r && r[t].CommandTransfer?
            ensures Sound(r[t].toWrite) || (r[t].toWrite.buffer == [] && LastInterest(acts + e.actions, t) == Some(SS.Readable))
          {
            if t == token {
              assert LastInterest(acts + e.actions, t) == Some(SS.Readable);
            } else {
              LastInterestSkips(acts, e.actions, t);
            }
          }
        } else {
          StaleKept(m, r, acts, e.actions);
        }
      case FileTransferPassive(_, Buffer(_), cmd) =>
        StaleKept(m, r, acts, e.actions);
      case _ =>
        StaleKept(m, r, acts, e.actions);
    }
  }

  /**
   * The stale offset is never sliced: a control connection last asked to become writable has a
   * buffer it can slice, so its write does not panic.
   */
  lemma WriteNeverSlicesStale(token: SS.Token, own: RequestType, m: Table, written: SS.OsResult<nat>, acts: seq<SS.Action>)
    requires StaleOnlyWhileReading(m, acts) && token in m && m[token] == own && own.CommandTransfer?
    requires LastInterest(acts, token) == Some(SS.Writable)
    ensures Write(token, own, m, written).result == SS.Done(())
  {
  }

  /**
   * A control connection whose write fails for good is shut and leaves the table with the data
   * connection it links to; one that would block waits for the next writable event.
   */
  lemma CommandWriteFailure(token: SS.Token, own: RequestType, m: Table, kind: SS.ErrorKind)
    requires own.CommandTransfer? && Sound(own.toWrite)
    ensures var e := Write(token, own, m, SS.Fails(kind));
      && e.result == SS.Done(())
      && (kind == SS.WouldBlock ==> e.own == own && e.table == m && e.actions == [SS.Action(token, SS.Writable)])
      && (kind != SS.WouldBlock ==>
            && e.own.stream == SS.Shut && e.actions == [] && token !in e.table && e.table.Keys <= m.Keys
            && (own.data.Some? && own.data.value != token ==> own.data.value !in e.table)
            && (forall k | k in e.table :: e.table[k] == m[k]))
  {
  }

  /**
   * A passive buffer transfer that sends its last bytes is shut and tells its control
   * connection, when that is one, with a 201 reply and a writable request. Its own entry is
   * left in the table. A partial write keeps the rest of the buffer to send.
   */
  lemma BufferTransferNotifies(token: SS.Token, s: SS.Socket, b: BufferToWrite, cmd: SS.Token, m: Table, n: nat)
    requires Sound(b)
    ensures var e := Write(token, FileTransferPassive(s, Buffer(b), cmd), m, SS.Gives(n));
      var isControl := cmd in m && m[cmd].CommandTransfer?;
      && e.result == SS.Done(())
      && (n + b.offset >= |b.buffer| ==>
            && e.own == FileTransferPassive(SS.Shut, Buffer(b), cmd) && e.table.Keys == m.Keys
            && (isControl ==>
                  && Replied(e.table[cmd], LRC.SuccessTransferingFile(), SuccessTransfer)
                  && e.table[cmd].data == m[cmd].data && e.actions == [SS.Action(cmd, SS.Writable)])
            && (!isControl ==> e.table == m && e.actions == [])
            && (forall k | k in m && k != cmd :: e.table[k] == m[k]))
      && (n + b.offset < |b.buffer| ==>
            && e.own.transfer.Buffer? && Sound(e.own.transfer.toWrite)
            && Pending(b) == Pending(b)[..n] + Pending(e.own.transfer.toWrite)
            && e.table == m && e.actions == [SS.Action(token, SS.Writable)])
  {
    if n + b.offset < |b.buffer| {
      var e := Write(token, FileTransferPassive(s, Buffer(b), cmd), m, SS.Gives(n));
      assert Pending(e.own.transfer.toWrite) == b.buffer[b.offset + n..];
      assert Pending(b) == Pending(b)[..n] + b.buffer[b.offset + n..];
    }
  }

  /**
   * Only passive transfers are written: an active transfer, which PORT creates, and a passive
   * listener get NotFound and change nothing.
   */
  lemma ActiveTransferNotWritten(token: SS.Token, own: RequestType, m: Table, written: SS.OsResult<nat>)
    requires own.FileTransferActive? || own.PassiveModePort?
    ensures Write(token, own, m, written) == WriteEffect(own, m, [], SS.IoError(SS.NotFound))
  {
  }

  /** A write only ever removes entries, and every entry it keeps other than the notified control connection is unchanged. */
  lemma WriteOnlyRemoves(token: SS.Token, own: RequestType, m: Table, written: SS.OsResult<nat>)
    ensures var e := Write(token, own, m, written);
      && e.table.Keys <= m.Keys
      && (forall k | k in e.table && !(own.FileTransferPassive? && k == own.command) :: e.table[k] == m[k])
  {
  }
}
