/**
 * The connection state of the server (ftp_server/src/ftp/mod.rs): reply lines, the outgoing
 * buffer of a connection, the table of connections shared with the handlers, and the server's
 * counters (connection ids, passive ports, admitted control connections).
 *
 * Sockets, listeners and files carry no I/O here: a socket is open or shut, a file is its bytes
 * and a read position, and what the operating system answers (a registration, a bind) is a
 * parameter. Callbacks are data describing what the closure does once it runs.
 */
module ServerState {
  import opened Ascii
  import opened Wrappers
  import RC = ReplyCodes

  /** A `mio::Token`: the id of a connection in the table. */
  type Token = nat

  /** The readiness a connection is registered for next. */
  datatype Interest = Readable | Writable | Aio

  /** An entry of an action list: register `token` for `interest`. */
  datatype Action = Action(token: Token, interest: Interest)

  /** The kinds of `std::io::Error` the server tells apart. */
  datatype ErrorKind = WouldBlock | NotFound | WriteZero | Other

  /** What the operating system answers a call (a read, a write, an accept): a value or an error. */
  datatype OsResult<T> = Gives(value: T) | Fails(kind: ErrorKind)

  /** What a fallible step ends in: a value, an I/O error, or a panic. */
  datatype Io<T> = Done(value: T) | IoError(kind: ErrorKind) | Panicked

  /** A socket: still open, or shut down in both directions. */
  datatype Socket = Open | Shut

  /** A file: its bytes and the position of the next read. */
  datatype File = File(contents: seq<byte>, position: nat)

  /** What the closure stored in `callback_after_sending` does once the buffer is sent. */
  datatype Callback =
    | ShutdownControl          // QUIT: shut the control connection down
    | QueueTransfer(data: Token)   // RETR: ask for the data connection to become writable
    | FillListing(data: Token)     // LIST: give the data connection a listing, then make it writable

  /** What the closure returned by `handle_read` does to the connection's context. */
  datatype SessionUpdate = SessionUpdate(userId: nat, loged: bool)

  /** `BufferToWrite`: the bytes to send, how many are already sent, and the callback. */
  datatype BufferToWrite = BufferToWrite(buffer: seq<byte>, offset: nat, callback: Option<Callback>)

  /** `BufferToWrite::default`: nothing to send. */
  function DefaultBuffer(): (b: BufferToWrite)
    ensures Sound(b) && Pending(b) == [] && b.callback.None?
  {
    BufferToWrite([], 0, None)
  }

  /** `BufferToWrite::new`: all of `v` is still to be sent, and there is no callback. */
  function NewBuffer(v: seq<byte>): (b: BufferToWrite)
    ensures Sound(b) && Pending(b) == v && b.callback.None?
  {
    BufferToWrite(v, 0, None)
  }

  /** `reset`: all of `v` is still to be sent; the callback is kept. */
  function Reset(b: BufferToWrite, v: seq<byte>): (r: BufferToWrite)
    ensures Sound(r) && Pending(r) == v && r.callback == b.callback
  {
    b.(buffer := v, offset := 0)
  }

  /** `reset_str`: `reset` with the bytes of a text. */
  function ResetStr(b: BufferToWrite, s: string): (r: BufferToWrite)
    requires IsAsciiText(s)
    ensures Sound(r) && Pending(r) == AsciiBytes(s) && r.callback == b.callback
  {
    Reset(b, AsciiBytes(s))
  }

  /** The offset lies within the buffer, so `&buffer[offset..]` does not panic. */
  predicate Sound(b: BufferToWrite)
  {
    b.offset <= |b.buffer|
  }

  /** The bytes still to be sent. */
  function Pending(b: BufferToWrite): seq<byte>
    requires Sound(b)
  {
    b.buffer[b.offset..]
  }

  /** `create_response`: the code in decimal, a space, the message and CR LF. */
  function CreateResponse(code: nat, message: seq<byte>): (r: seq<byte>)
    ensures |r| == |DecimalBytes(code)| + |message| + 3
    ensures r[..|DecimalBytes(code)|] == DecimalBytes(code) && r[|r| - 2..] == CRLF
  {
    DecimalBytes(code) + [SPACE] + message + CRLF
  }

  /** A reply line read back: a three-digit code, a space, the text and CR LF. */
  function ParseReply(line: seq<byte>): Option<(nat, seq<byte>)>
  {
    if |line| >= 6 && AllDigits(line[..3]) && line[3] == SPACE && line[|line| - 2..] == CRLF
    then Some((DigitsValue(line[..3]), line[4..|line| - 2]))
    else None
  }

  /** Every reply line with a three-digit code reads back as its code and its message. */
  lemma ReplyRoundTrip(code: nat, message: seq<byte>)
    requires 100 <= code <= 999
    ensures ParseReply(CreateResponse(code, message)) == Some((code, message))
  {
    var digits := DecimalBytes(code);
    assert |DecimalBytes(code / 10)| >= 2;
    assert |digits| == 3;
    var r := CreateResponse(code, message);
    assert r == digits + ([SPACE] + message + CRLF);
    assert r[..3] == digits;
    DecimalBytesValue(code);
    assert r[4..|r| - 2] == message;
  }

  /** A reply line from a literal message. */
  function Reply(code: nat, text: string): seq<byte>
    requires IsAsciiText(text)
  {
    CreateResponse(code, AsciiBytes(text))
  }

  /** The greeting every admitted control connection starts with. */
  function Greeting(): seq<byte>
  {
    Reply(RC.ServiceReady(), "Service ready for new user.")
  }

  /** What a file transfer connection sends. */
  datatype FileTransferType =
    | FileUpload(file: File, reply: Option<seq<byte>>)
    | FileDownload(file: File)
    | Buffer(toWrite: BufferToWrite)

  /** `RequestType`: what a connection of the table is. */
  datatype RequestType =
    | Closed(stream: Socket)
    | FileTransferPassive(stream: Socket, transfer: FileTransferType, command: Token)
    | FileTransferActive(stream: Socket, transfer: FileTransferType, command: Token)
    | CommandTransfer(stream: Socket, toWrite: BufferToWrite, data: Option<Token>)
    | PassiveModePort(port: nat, command: Token)

  /** Whether a connection is a file transfer. */
  predicate IsTransfer(rt: RequestType)
  {
    rt.FileTransferPassive? || rt.FileTransferActive?
  }

  /** The same connection over the socket `s`. */
  function WithSocket(rt: RequestType, s: Socket): (r: RequestType)
    requires !rt.PassiveModePort?
    ensures !r.PassiveModePort? && r.stream == s
    ensures r.Closed? == rt.Closed? && r.CommandTransfer? == rt.CommandTransfer?
    ensures r.FileTransferPassive? == rt.FileTransferPassive? && r.FileTransferActive? == rt.FileTransferActive?
    ensures IsTransfer(rt) ==> r.transfer == rt.transfer && r.command == rt.command
    ensures rt.CommandTransfer? ==> r.toWrite == rt.toWrite && r.data == rt.data
  {
    match rt
    case Closed(_) => Closed(s)
    case FileTransferPassive(_, t, c) => FileTransferPassive(s, t, c)
    case FileTransferActive(_, t, c) => FileTransferActive(s, t, c)
    case CommandTransfer(_, b, d) => CommandTransfer(s, b, d)
  }

  /** The same file transfer sending `t`. */
  function WithTransfer(rt: RequestType, t: FileTransferType): (r: RequestType)
    requires IsTransfer(rt)
    ensures IsTransfer(r) && r.FileTransferActive? == rt.FileTransferActive?
    ensures r.stream == rt.stream && r.transfer == t && r.command == rt.command
  {
    match rt
    case FileTransferPassive(s, _, c) => FileTransferPassive(s, t, c)
    case FileTransferActive(s, _, c) => FileTransferActive(s, t, c)
  }

  /** `RequestContext`: the connection and the session's user. */
  datatype RequestContext = RequestContext(requestType: RequestType, userId: Option<nat>, loged: bool)

  /** `RequestContext::new`: no user yet. */
  function NewContext(rt: RequestType): RequestContext
  {
    RequestContext(rt, None, false)
  }

  /** The connections table: a context per token. */
  type Table = map<Token, RequestContext>

  /** The control connections of a table. */
  function CommandTokens(m: map<Token, RequestContext>): set<Token>
  {
    set t | t in m && m[t].requestType.CommandTransfer?
  }

  /** Storing a context under a token changes the control connections only at that token. */
  lemma CommandTokensUpdate(m: map<Token, RequestContext>, k: Token, v: RequestContext)
    ensures CommandTokens(m[k := v]) == if v.requestType.CommandTransfer? then CommandTokens(m) + {k} else CommandTokens(m) - {k}
  {
  }

  /** Removing a token removes at most that control connection. */
  lemma CommandTokensRemove(m: map<Token, RequestContext>, k: Token)
    ensures CommandTokens(m - {k}) == CommandTokens(m) - {k}
    ensures |CommandTokens(m - {k})| == |CommandTokens(m)| - (if k in CommandTokens(m) then 1 else 0)
  {
    assert CommandTokens(m - {k}) == CommandTokens(m) - {k};
  }

  /** A replaced context that keeps its kind keeps the control connections. */
  lemma CommandTokensSameKind(m: map<Token, RequestContext>, k: Token, v: RequestContext)
    requires k in m && m[k].requestType.CommandTransfer? == v.requestType.CommandTransfer?
    ensures CommandTokens(m[k := v]) == CommandTokens(m)
  {
    CommandTokensUpdate(m, k, v);
  }

  /** The table of connections, shared by the server and its handlers. */
  class ConnectionDb {
    var entries: map<Token, RequestContext>

    /** An empty table. */
    constructor ()
      ensures entries == map[]
    {
      entries := map[];
    }
  }

  /** A list of actions, shared by the server and the closures that push to it. */
  class ActionList {
    var items: seq<Action>

    /** An empty list. */
    constructor ()
      ensures items == []
    {
      items := [];
    }

    /** Appends one action. */
    method Push(a: Action)
      modifies this
      ensures items == old(items) + [a]
    {
      items := items + [a];
    }
  }

  const CantBindAddress := "can't bind to this address"
  const CantBindPort := "can't bind to this port"
  const CantRegister := "cannot register this socket"

  /** `FTPServer`: the table, the action list and the counters. */
  class FtpServer {
    const connections: ConnectionDb
    const actions: ActionList
    var currentId: nat
    var port: nat
    const maxConnections: nat
    var currentConnections: nat

    /** The admission count bounds the control connections in the table and is at most the maximum. */
    ghost predicate Valid()
      reads this, connections
    {
      |CommandTokens(connections.entries)| <= currentConnections <= maxConnections
    }

    /** `FTPServer::new`: ids from 0, passive ports from 50000, at most 50 control connections. */
    constructor New()
      ensures Valid() && fresh(connections) && fresh(actions)
      ensures connections.entries == map[] && actions.items == []
      ensures currentId == 0 && port == 50_000 && maxConnections == 50 && currentConnections == 0
    {
      connections := new ConnectionDb();
      actions := new ActionList();
      currentId := 0;
      port := 50_000;
      maxConnections := 50;
      currentConnections := 0;
    }

    /** `with_connection_capacity`: the same with the given maximum. */
    constructor WithConnectionCapacity(maxConnections: nat)
      ensures Valid() && fresh(connections) && fresh(actions)
      ensures connections.entries == map[] && actions.items == []
      ensures currentId == 0 && port == 50_000 && this.maxConnections == maxConnections && currentConnections == 0
    {
      connections := new ConnectionDb();
      actions := new ActionList();
      currentId := 0;
      port := 50_000;
      this.maxConnections := maxConnections;
      currentConnections := 0;
    }

    /** `add_connection`: stores a fresh context under the token. */
    method AddConnection(token: Token, rt: RequestType)
      modifies connections
      ensures connections.entries == old(connections.entries)[token := NewContext(rt)]
    {
      connections.entries := connections.entries[token := NewContext(rt)];
    }

    /** `next_id`: advances the id counter by one and answers the new value. */
    method NextId() returns (id: Token)
      modifies this
      ensures currentId == old(currentId) + 1 && id == currentId
      ensures port == old(port) && currentConnections == old(currentConnections)
    {
      currentId := currentId + 1;
      id := currentId;
    }

    /**
     * `new_passive_listener`: takes the next port and the next id whatever happens; the address
     * "127.0.0.1:<port>" does not parse once the port leaves `u16`. A listener that is bound and
     * registered is stored under the id, linked to the control connection.
     */
    method NewPassiveListener(commandTransferConn: Token, bound: bool, registered: bool) returns (r: Result<()>)
      requires Valid()
      modifies this, connections
      ensures Valid()
      ensures port == old(port) + 1 && currentId == old(currentId) + 1
      ensures currentConnections == old(currentConnections)
      ensures r.Ok? <==> old(port) <= 0xFFFF && bound && registered
      ensures r.Err? ==> r.error == (if old(port) > 0xFFFF then CantBindAddress else if !bound then CantBindPort else CantRegister)
      ensures connections.entries == if r.Ok?
        then old(connections.entries)[currentId := NewContext(PassiveModePort(old(port), commandTransferConn))]
        else old(connections.entries)
    {
      var p := port;
      port := port + 1;
      var id := NextId();
      if p > 0xFFFF {
        r := Err(CantBindAddress);
        return;
      }
      if !bound {
        r := Err(CantBindPort);
        return;
      }
      if !registered {
        r := Err(CantRegister);
        return;
      }
      CommandTokensUpdate(connections.entries, id, NewContext(PassiveModePort(p, commandTransferConn)));
      AddConnection(id, PassiveModePort(p, commandTransferConn));
      r := Ok(());
    }

    /**
     * `new_connection`, as `AdmissionAsWritten` describes it: at capacity the connection is
     * stored as `Closed` and not counted; below it the connection is counted before it is
     * registered, and once registered it is stored with the 220 greeting to send. A failed
     * registration below capacity stores nothing but keeps the count it took.
     */
    method NewConnection(token: Token, registered: bool) returns (r: Io<()>)
      requires Valid()
      modifies this, connections
      ensures Valid()
      ensures currentId == old(currentId) && port == old(port)
      ensures var a := AdmissionAsWritten(old(connections.entries), old(currentConnections), maxConnections, token, registered);
        connections.entries == a.table && currentConnections == a.count && r == a.result
    {
      if maxConnections <= currentConnections {
        if !registered {
          r := IoError(Other);
          return;
        }
        CommandTokensUpdate(connections.entries, token, NewContext(Closed(Open)));
        AddConnection(token, Closed(Open));
        r := Done(());
        return;
      }
      currentConnections := currentConnections + 1;
      if !registered {
        r := IoError(Other);
        return;
      }
      CommandTokensUpdate(connections.entries, token, NewContext(CommandTransfer(Open, NewBuffer(Greeting()), None)));
      AddConnection(token, CommandTransfer(Open, NewBuffer(Greeting()), None));
      r := Done(());
    }

    /**
     * `close_connection`. An unknown token is left alone. An upload whose reply is not ready
     * yet stays (the read side is still going). A finished upload first hands its reply to the
     * control connection and asks for it to become writable. A control connection also takes
     * its data connection with it. Otherwise the connection's socket is shut and its entry
     * removed; removing a control connection is what lowers the admission count.
     */
    method CloseConnection(token: Token) returns (r: Io<()>)
      requires Valid()
      modifies this, connections, actions
      ensures Valid()
      ensures currentId == old(currentId) && port == old(port)
      ensures token !in old(connections.entries) ==> (
        && r == Done(()) && connections.entries == old(connections.entries)
        && currentConnections == old(currentConnections) && actions.items == old(actions.items))
      ensures token in old(connections.entries) && PendingUpload(old(connections.entries)[token].requestType) ==> (
        && r == IoError(WriteZero) && connections.entries == old(connections.entries)
        && currentConnections == old(currentConnections) && actions.items == old(actions.items))
      ensures token in old(connections.entries) && !PendingUpload(old(connections.entries)[token].requestType) ==> (
        && r == Done(())
        && connections.entries == Closing(old(connections.entries), token)
        && currentConnections == old(currentConnections) - (if OwnRemovalCounts(old(connections.entries), token) then 1 else 0)
        && actions.items == old(actions.items) + UploadActions(old(connections.entries), token))
    {
      if token !in connections.entries {
        r := Done(());
        return;
      }
      var ctx := connections.entries[token];
      if PendingUpload(ctx.requestType) {
        r := IoError(WriteZero);
        return;
      }
      Release(token);
      assert token in connections.entries <==> !(ctx.requestType.CommandTransfer? && ctx.requestType.data == Some(token));
      if token in connections.entries {
        CommandTokensRemove(connections.entries, token);
        connections.entries := connections.entries - {token};
        if ctx.requestType.CommandTransfer? {
          currentConnections := currentConnections - 1;
        }
      }
      r := Done(());
    }

    /**
     * What closing does before the entry itself goes: a finished upload delivers its reply, a
     * control connection drops its data connection.
     */
    method Release(token: Token)
      requires Valid() && token in connections.entries && !PendingUpload(connections.entries[token].requestType)
      modifies connections, actions
      ensures Valid()
      ensures connections.entries == Released(old(connections.entries), token)
      ensures actions.items == old(actions.items) + UploadActions(old(connections.entries), token)
    {
      var rt := connections.entries[token].requestType;
      if (rt.FileTransferActive? || rt.FileTransferPassive?) && rt.transfer.FileUpload? {
        DeliverUpload(rt.command, rt.transfer.reply.value);
      } else if rt.CommandTransfer? && rt.data.Some? {
        CommandTokensRemove(connections.entries, rt.data.value);
        connections.entries := connections.entries - {rt.data.value};
      }
    }

    /**
     * The closure spawned for a finished upload: the control connection, when it is in the
     * table, gets the reply to send and is made writable.
     */
    method DeliverUpload(conn: Token, data: seq<byte>)
      requires Valid()
      modifies connections, actions
      ensures Valid()
      ensures connections.entries == Delivered(old(connections.entries), conn, data)
      ensures actions.items == old(actions.items) + (if conn in old(connections.entries) then [Action(conn, Writable)] else [])
    {
      if conn in connections.entries {
        var cmd := connections.entries[conn];
        if cmd.requestType.CommandTransfer? {
          var rt := cmd.requestType.(toWrite := Reset(cmd.requestType.toWrite, data));
          CommandTokensSameKind(connections.entries, conn, cmd.(requestType := rt));
          connections.entries := connections.entries[conn := cmd.(requestType := rt)];
        }
        actions.Push(Action(conn, Writable));
      }
    }
  }

  /** An upload whose reply is not ready: closing it is refused. */
  predicate PendingUpload(rt: RequestType)
  {
    (rt.FileTransferActive? || rt.FileTransferPassive?) && rt.transfer.FileUpload? && rt.transfer.reply.None?
  }

  /** A finished upload's reply handed to its control connection, if that is in the table. */
  function Delivered(m: map<Token, RequestContext>, conn: Token, data: seq<byte>): map<Token, RequestContext>
  {
    if conn in m && m[conn].requestType.CommandTransfer?
    then m[conn := m[conn].(requestType := m[conn].requestType.(toWrite := Reset(m[conn].requestType.toWrite, data)))]
    else m
  }

  /** The table once a connection's linked work is done, before its own entry goes. */
  function Released(m: map<Token, RequestContext>, token: Token): map<Token, RequestContext>
    requires token in m
  {
    var rt := m[token].requestType;
    if (rt.FileTransferActive? || rt.FileTransferPassive?) && rt.transfer.FileUpload? && rt.transfer.reply.Some?
    then Delivered(m, rt.command, rt.transfer.reply.value)
    else if rt.CommandTransfer? && rt.data.Some? then m - {rt.data.value}
    else m
  }

  /** The table after a connection that may be closed is closed. */
  function Closing(m: map<Token, RequestContext>, token: Token): (r: map<Token, RequestContext>)
    requires token in m
    ensures token !in r && r.Keys <= m.Keys
    ensures m[token].requestType.CommandTransfer? && m[token].requestType.data.Some? ==> m[token].requestType.data.value !in r
    ensures !m[token].requestType.CommandTransfer? ==> r.Keys == m.Keys - {token}
  {
    Released(m, token) - {token}
  }

  /** Closing lowers the count when the entry is a control connection that is still there to remove. */
  predicate OwnRemovalCounts(m: map<Token, RequestContext>, token: Token)
    requires token in m
  {
    m[token].requestType.CommandTransfer? && m[token].requestType.data != Some(token)
  }

  /** The action a finished upload's closure pushes. */
  function UploadActions(m: map<Token, RequestContext>, token: Token): seq<Action>
    requires token in m
  {
    var rt := m[token].requestType;
    if (rt.FileTransferActive? || rt.FileTransferPassive?) && rt.transfer.FileUpload? && rt.transfer.reply.Some? && rt.command in m
    then [Action(rt.command, Writable)]
    else []
  }

  /** What `new_connection` leaves: the table, the admission count and the result. */
  datatype Admitted = Admitted(table: map<Token, RequestContext>, count: nat, result: Io<()>)

  /** `new_connection` as written: the count goes up before the registration, which may fail. */
  function AdmissionAsWritten(m: map<Token, RequestContext>, count: nat, max: nat, token: Token, registered: bool): Admitted
  {
    if max <= count then
      if registered then Admitted(m[token := NewContext(Closed(Open))], count, Done(())) else Admitted(m, count, IoError(Other))
    else if registered then Admitted(m[token := NewContext(CommandTransfer(Open, NewBuffer(Greeting()), None))], count + 1, Done(()))
    else Admitted(m, count + 1, IoError(Other))
  }

  /** `new_connection` of the model: a connection is counted once it is registered. */
  function Admission(m: map<Token, RequestContext>, count: nat, max: nat, token: Token, registered: bool): Admitted
  {
    if max <= count then
      if registered then Admitted(m[token := NewContext(Closed(Open))], count, Done(())) else Admitted(m, count, IoError(Other))
    else if registered then Admitted(m[token := NewContext(CommandTransfer(Open, NewBuffer(Greeting()), None))], count + 1, Done(()))
    else Admitted(m, count, IoError(Other))
  }

  /**
   * As written, admission still keeps the control connections within the count and the count
   * within the maximum; a failed registration below capacity raises the count with nothing
   * stored.
   */
  lemma AdmissionAsWrittenBounded(m: map<Token, RequestContext>, count: nat, max: nat, token: Token, registered: bool)
    requires |CommandTokens(m)| <= count <= max
    ensures var a := AdmissionAsWritten(m, count, max, token, registered);
      && |CommandTokens(a.table)| <= a.count <= max
      && (a.result == Done(()) <==> registered)
      && (!registered ==> a.table == m && a.count == (if count < max then count + 1 else count))
  {
    if registered {
      if max <= count {
        CommandTokensUpdate(m, token, NewContext(Closed(Open)));
      } else {
        CommandTokensUpdate(m, token, NewContext(CommandTransfer(Open, NewBuffer(Greeting()), None)));
      }
    }
  }

  /**
   * As written, with room for one client, a registration that fails uses the slot up for good:
   * no entry is left to close, and the next client, registered fine, is stored `Closed`.
   */
  lemma AdmissionAsWrittenLeaksSlot()
    ensures var first := AdmissionAsWritten(map[], 0, 1, 1, false);
      var second := AdmissionAsWritten(first.table, first.count, 1, 2, true);
      && first.result == IoError(Other) && first.table == map[] && first.count == 1
      && second.table[2].requestType.Closed? && CommandTokens(second.table) == {}
  {
    assert CommandTokens(map[2 := NewContext(Closed(Open))]) == {};
  }

  /**
   * The model's admission counts exactly the control connections: from a table whose control
   * connections number `count`, a new token leaves a table whose control connections number
   * the new count, which stays within the maximum; a client is refused only at capacity.
   */
  lemma AdmissionCountsExactly(m: map<Token, RequestContext>, count: nat, max: nat, token: Token, registered: bool)
    requires token !in m && |CommandTokens(m)| == count <= max
    ensures var a := Admission(m, count, max, token, registered);
      && |CommandTokens(a.table)| == a.count <= max
      && (a.table[token].requestType.Closed? <== registered && count == max)
      && (registered && count < max ==> token in CommandTokens(a.table))
      && (a.result == Done(()) <==> registered)
  {
    if registered {
      var a := Admission(m, count, max, token, registered);
      if max <= count {
        CommandTokensUpdate(m, token, NewContext(Closed(Open)));
      } else {
        CommandTokensUpdate(m, token, NewContext(CommandTransfer(Open, NewBuffer(Greeting()), None)));
      }
    }
  }
}
