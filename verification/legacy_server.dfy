/**
 * The connection state of the earlier server (FTPserver/rust_server/ftp_server/src/ftp/mod.rs):
 * an outgoing buffer without a callback, connection kinds without `Closed`, a table of
 * contexts that hold only the connection, and a server that admits every connection.
 *
 * The poll's registrations are recorded in order in `registry`; the closures' action list is
 * the shared `ActionList`. What the operating system answers (a read, a registration, a bind,
 * an accept, a connect) is a parameter.
 */
module LegacyServer {
  import opened Ascii
  import opened Wrappers
  import SS = ServerState
  import LC = LegacyCommand
  import RC = ReplyCodes
  import LRC = LegacyReplyCodes

  /** `BufferToWrite`: the bytes to send and how many are already sent. */
  datatype BufferToWrite = BufferToWrite(buffer: seq<byte>, offset: nat)

  /** The offset lies within the buffer, so `&buffer[offset..]` does not panic. */
  predicate Sound(b: BufferToWrite)
  {
    b.offset <= |b.buffer|
  }

  /** The bytes still to be sent. */
  function Pending(b: BufferToWrite): seq<byte>
    requires Sound(b)
  {
    b.buffer[b.offset..]
  }

  /** `BufferToWrite::default`: nothing to send. */
  function DefaultBuffer(): (b: BufferToWrite)
    ensures Sound(b) && Pending(b) == []
  {
    BufferToWrite([], 0)
  }

  /** `BufferToWrite::new`: all of `v` is still to be sent. */
  function NewBuffer(v: seq<byte>): (b: BufferToWrite)
    ensures Sound(b) && Pending(b) == v
  {
    BufferToWrite(v, 0)
  }

  /** `reset`: all of `v` is still to be sent, whatever was pending before. */
  function Reset(b: BufferToWrite, v: seq<byte>): (r: BufferToWrite)
    ensures Sound(r) && Pending(r) == v
  {
    b.(buffer := v, offset := 0)
  }

  /** `reset_str`: `reset` with the bytes of a text. */
  function ResetStr(b: BufferToWrite, s: string): (r: BufferToWrite)
    requires IsAsciiText(s)
    ensures Sound(r) && Pending(r) == AsciiBytes(s)
  {
    Reset(b, AsciiBytes(s))
  }

  /** What a file transfer connection sends. */
  datatype FileTransferType = FileUpload(file: SS.File) | FileDownload(file: SS.File) | Buffer(toWrite: BufferToWrite)

  /** `RequestType`: what a connection of the table is. */
  datatype RequestType =
    | FileTransferPassive(stream: SS.Socket, transfer: FileTransferType, command: SS.Token)
    | FileTransferActive(stream: SS.Socket, transfer: FileTransferType, command: SS.Token)
    | CommandTransfer(stream: SS.Socket, toWrite: BufferToWrite, data: Option<SS.Token>)
    | PassiveModePort(port: nat, command: SS.Token)

  /** The table of connections; a `RequestContext` of this server holds only its `RequestType`. */
  type Table = map<SS.Token, RequestType>

  /** The table, shared by the server, its spawned closures and the write handler. */
  class ConnectionDb {
    var entries: Table

    /** An empty table. */
    constructor ()
      ensures entries == map[]
    {
      entries := map[];
    }
  }

  /** The size of the read buffer; a read that fills it is refused. */
  const ReadBufferSize: nat := 10024

  const ServiceReadyText: AsciiText := "Service ready for new user."
  const BadSequence: AsciiText := "Bad sequence of commands."
  const CommandOkay: AsciiText := "Command okay."

  /** What LIST puts in the buffer: a bare text, not a reply line. */
  const UnimplementedList: AsciiText := "unimplemented command `LIST`"

  /** The greeting of a new control connection. */
  function Greeting(): seq<byte>
  {
    SS.Reply(LRC.ServiceReady(), ServiceReadyText)
  }

  // One literal in the source, in two halves here: see `Ascii.Join`.
  const HttpHead: AsciiText := Join("HTTP/1.1 200 OK\r\n", "Content-Length: ")
  const Hello: AsciiText := "HELLO"

  /** `get_test_html`: an HTTP response whose Content-Length is the length of the body. */
  function TestHtml(data: seq<byte>): seq<byte>
  {
    AsciiBytes(HttpHead) + DecimalBytes(|data|) + CRLF + CRLF + data
  }

  /** The end of the run of digits of `r` that starts at `i`. */
  function DigitsEnd(r: seq<byte>, i: nat): (k: nat)
    requires i <= |r|
    ensures i <= k <= |r| && AllDigits(r[i..k]) && (k < |r| ==> !IsDigit(r[k]))
    decreases |r| - i
  {
    if i == |r| || !IsDigit(r[i]) then i
    else
      var k := DigitsEnd(r, i + 1);
      assert r[i..k] == [r[i]] + r[i + 1..k];
      k
  }

  /**
   * An HTTP response read back: the head, a Content-Length in digits, an empty line, and a
   * body of exactly that length.
   */
  function HtmlBody(r: seq<byte>): Option<seq<byte>>
  {
    var h := AsciiBytes(HttpHead);
    if |r| < |h| || r[..|h|] != h then None
    else
      var k := DigitsEnd(r, |h|);
      if k == |h| || |r| < k + 4 || r[k..k + 4] != CRLF + CRLF then None
      else if |r| - (k + 4) != DigitsValue(r[|h|..k]) then None
      else Some(r[k + 4..])
  }

  /** The digit run in front of a byte that is not a digit ends there. */
  lemma {:induction false} DigitsEndAt(r: seq<byte>, i: nat, digits: seq<byte>)
    requires i + |digits| < |r| && r[i..i + |digits|] == digits && AllDigits(digits) && !IsDigit(r[i + |digits|])
    ensures DigitsEnd(r, i) == i + |digits|
    decreases |digits|
  {
    if digits != [] {
      assert r[i] == digits[0];
      assert r[i + 1..i + 1 + |digits[1..]|] == digits[1..];
      DigitsEndAt(r, i + 1, digits[1..]);
    }
  }

  /** The test response reads back as its body: its Content-Length is the body's length. */
  lemma TestHtmlRoundTrip(data: seq<byte>)
    ensures HtmlBody(TestHtml(data)) == Some(data)
  {
    var h := AsciiBytes(HttpHead);
    var d := DecimalBytes(|data|);
    var r := TestHtml(data);
    assert r == h + d + (CRLF + CRLF + data);
    assert r[|h|..|h| + |d|] == d;
    assert r[|h| + |d|] == CR;
    DigitsEndAt(r, |h|, d);
    var k := |h| + |d|;
    assert r[k..k + 4] == CRLF + CRLF;
    assert r[k + 4..] == data;
    DecimalBytesValue(|data|);
  }

  /** Every message the parser rejects a line with is ASCII, so it fits in a reply line. */
  lemma RejectedAscii(line: seq<byte>)
    ensures LC.Parse(line).Rejected? ==> IsAsciiText(LC.Parse(line).message)
  {
  }

  /** What the operating system answers during one read. */
  datatype ReadEnv = ReadEnv(
    received: SS.OsResult<seq<byte>>,   // `stream.read` on a control connection
    connected: bool,                    // `TcpStream::connect` in the PORT closure
    accepted: SS.OsResult<()>,          // `listener.accept` on a passive listener
    registered: bool)                   // the registration of the accepted stream

  /**
   * What `read_connection` leaves: the table, the registrations made with the poll, the actions
   * its closure pushes, whether it took an id, and the result.
   */
  datatype ReadEffect = ReadEffect(table: Table, registered: seq<SS.Action>, pushed: seq<SS.Action>,
                                   takesId: bool, result: SS.Io<()>)

  /** A read never exceeds the buffer. */
  predicate ReadPre(env: ReadEnv)
  {
    env.received.Gives? ==> |env.received.value| <= ReadBufferSize
  }

  /** `read_connection` as a step; `id` is the id `next_id` hands out if it is called. */
  function Read(token: SS.Token, m: Table, env: ReadEnv, id: SS.Token): ReadEffect
  {
    if token !in m then ReadEffect(m, [], [], false, SS.IoError(SS.NotFound))
    else
      match m[token]
      case CommandTransfer(s, b, d) =>
        (match env.received
         case Fails(kind) => ReadEffect(m, [], [], false, SS.IoError(kind))
         case Gives(line) =>
           if |line| >= ReadBufferSize then ReadEffect(m, [], [], false, SS.IoError(SS.Other))
           else
             match LC.Parse(line)
             case OutOfBounds => ReadEffect(m, [], [], false, SS.Panicked)
             case Rejected(msg) =>
               RejectedAscii(line);
               ReadEffect(m[token := CommandTransfer(s, Reset(b, SS.Reply(RC.BadSequenceOfCommands(), msg)), d)],
                 [SS.Action(token, SS.Writable)], [], false, SS.Done(()))
             case Parsed(List(_)) =>
               ReadEffect(m[token := CommandTransfer(s, Reset(b, AsciiBytes(UnimplementedList)), d)],
                 [SS.Action(token, SS.Writable)], [], false, SS.Done(()))
             case Parsed(Port(_, _)) =>
               var (table, pushed, _) := PortConnect(token, m, env.connected, id);
               ReadEffect(table, [], pushed, true, SS.Done(())))
      case PassiveModePort(_, command) =>
        if env.accepted.Fails? then ReadEffect(m, [], [], false, SS.IoError(env.accepted.kind))
        else if !env.registered then ReadEffect(m, [], [], true, SS.IoError(SS.Other))
        else
          ReadEffect(m[id := FileTransferPassive(SS.Open, Buffer(NewBuffer(TestHtml(AsciiBytes(Hello)))), command)] - {token},
            [SS.Action(id, SS.Writable)], [], true, SS.Done(()))
      case _ => ReadEffect(m, [], [], false, SS.Panicked)
  }

  /**
   * The closure PORT spawns: connect, find the control connection (a missing one panics the
   * thread), ask for it to be writable, and answer 503 on a failed connect; on success link the
   * fresh id, answer 200 and store the active transfer under the id.
   */
  function PortConnect(token: SS.Token, m: Table, connected: bool, id: SS.Token): (Table, seq<SS.Action>, SS.Io<()>)
  {
    if token !in m then (m, [], SS.Panicked)
    else
      var acts := [SS.Action(token, SS.Writable)];
      match m[token]
      case CommandTransfer(s, b, d) =>
        if !connected then (m[token := CommandTransfer(s, Reset(b, SS.Reply(RC.BadSequenceOfCommands(), BadSequence)), d)], acts, SS.Done(()))
        else
          (m[token := CommandTransfer(s, Reset(b, SS.Reply(RC.CommandOkay(), CommandOkay)), Some(id))]
            [id := FileTransferActive(SS.Open, Buffer(DefaultBuffer()), token)], acts, SS.Done(()))
      case _ => (m, acts, SS.Panicked)
  }

  /** `close_connection`: drops the connection and, for a control connection, its data connection. */
  function Closing(m: Table, token: SS.Token): (r: Table)
    ensures token !in r && r.Keys <= m.Keys
    ensures forall t | t in r :: r[t] == m[t]
  {
    if token !in m then m
    else
      match m[token]
      case CommandTransfer(_, _, Some(d)) => m - {token} - {d}
      case _ => m - {token}
  }

  /** `FTPServer` of the earlier server: the table, the action list and two counters. */
  class FtpServer {
    const connections: ConnectionDb
    const actions: SS.ActionList
    var currentId: nat
    var port: nat
    /** The interests registered with the poll, in order. */
    var registry: seq<SS.Action>

    /** `FTPServer::new`: ids from 0, passive ports from 50000. */
    constructor New()
      ensures fresh(connections) && fresh(actions)
      ensures connections.entries == map[] && actions.items == [] && registry == []
      ensures currentId == 0 && port == 50_000
    {
      connections := new ConnectionDb();
      actions := new SS.ActionList();
      currentId := 0;
      port := 50_000;
      registry := [];
    }

    /** `add_connection`: stores the connection under the token. */
    method AddConnection(token: SS.Token, rt: RequestType)
      modifies connections
      ensures connections.entries == old(connections.entries)[token := rt]
    {
      connections.entries := connections.entries[token := rt];
    }

    /** `next_id`: advances the id counter by one and answers the new value. */
    method NextId() returns (id: SS.Token)
      modifies this
      ensures currentId == old(currentId) + 1 && id == currentId
      ensures port == old(port) && registry == old(registry)
    {
      currentId := currentId + 1;
      id := currentId;
    }

    /**
     * `new_passive_listener`: takes the next port and the next id whatever happens; the address
     * does not parse once the port leaves `u16`. A listener that is bound and registered is
     * registered readable and stored under the id, linked to the control connection.
     */
    method NewPassiveListener(commandTransferConn: SS.Token, bound: bool, registered: bool) returns (r: Result<()>)
      modifies this, connections
      ensures port == old(port) + 1 && currentId == old(currentId) + 1
      ensures r.Ok? <==> old(port) <= 0xFFFF && bound && registered
      ensures r.Err? ==> r.error == (if old(port) > 0xFFFF then SS.CantBindAddress else if !bound then SS.CantBindPort else SS.CantRegister)
      ensures connections.entries == if r.Ok?
        then old(connections.entries)[currentId := PassiveModePort(old(port), commandTransferConn)]
        else old(connections.entries)
      ensures registry == old(registry) + (if r.Ok? then [SS.Action(currentId, SS.Readable)] else [])
    {
      var p := port;
      port := port + 1;
      var id := NextId();
      if p > 0xFFFF {
        r := Err(SS.CantBindAddress);
        return;
      }
      if !bound {
        r := Err(SS.CantBindPort);
        return;
      }
      if !registered {
        r := Err(SS.CantRegister);
        return;
      }
      registry := registry + [SS.Action(id, SS.Readable)];
      AddConnection(id, PassiveModePort(p, commandTransferConn));
      r := Ok(());
    }

    /**
     * `new_connection`: every connection is admitted. Once registered writable it is stored
     * with the 220 greeting to send; a failed registration stores nothing.
     */
    method NewConnection(token: SS.Token, registered: bool) returns (r: SS.Io<()>)
      modifies this, connections
      ensures currentId == old(currentId) && port == old(port)
      ensures r == if registered then SS.Done(()) else SS.IoError(SS.Other)
      ensures connections.entries == if registered
        then old(connections.entries)[token := CommandTransfer(SS.Open, NewBuffer(Greeting()), None)]
        else old(connections.entries)
      ensures registry == old(registry) + (if registered then [SS.Action(token, SS.Writable)] else [])
    {
      if !registered {
        r := SS.IoError(SS.Other);
        return;
      }
      registry := registry + [SS.Action(token, SS.Writable)];
      AddConnection(token, CommandTransfer(SS.Open, NewBuffer(Greeting()), None));
      r := SS.Done(());
    }

    /**
     * `read_connection`, as `Read` describes it. The closure PORT spawns is run once the read
     * is over (it waits for the control connection's lock, which the read holds); its panic
     * stays in its own thread.
     */
    method ReadConnection(token: SS.Token, env: ReadEnv) returns (r: SS.Io<()>)
      requires ReadPre(env)
      modifies this, connections, actions
      ensures var e := Read(token, old(connections.entries), env, old(currentId) + 1);
        && connections.entries == e.table && registry == old(registry) + e.registered
        && actions.items == old(actions.items) + e.pushed && r == e.result
        && currentId == old(currentId) + (if e.takesId then 1 else 0) && port == old(port)
    {
      if token !in connections.entries {
        r := SS.IoError(SS.NotFound);
        return;
      }
      match connections.entries[token] {
        case CommandTransfer(_, _, _) =>
          r := ReadCommandLine(token, env);
        case PassiveModePort(_, command) =>
          r := ReadPassivePort(token, command, env);
        case _ =>
          r := SS.Panicked;
      }
    }

    /** `read_connection` on a control connection: the line is parsed and answered, or PORT connects. */
    method ReadCommandLine(token: SS.Token, env: ReadEnv) returns (r: SS.Io<()>)
      requires ReadPre(env) && token in connections.entries && connections.entries[token].CommandTransfer?
      modifies this, connections, actions
      ensures var e := Read(token, old(connections.entries), env, old(currentId) + 1);
        && connections.entries == e.table && registry == old(registry) + e.registered
        && actions.items == old(actions.items) + e.pushed && r == e.result
        && currentId == old(currentId) + (if e.takesId then 1 else 0) && port == old(port)
    {
      r := SS.Done(());
      var CommandTransfer(s, toWrite, d) := connections.entries[token];
      if env.received.Fails? {
        r := SS.IoError(env.received.kind);
        return;
      }
      var line := env.received.value;
      if |line| >= ReadBufferSize {
        r := SS.IoError(SS.Other);
        return;
      }
      match LC.Parse(line) {
        case OutOfBounds =>
          r := SS.Panicked;
        case Rejected(message) =>
          RejectedAscii(line);
          connections.entries := connections.entries[token := CommandTransfer(s, Reset(toWrite, SS.Reply(RC.BadSequenceOfCommands(), message)), d)];
          registry := registry + [SS.Action(token, SS.Writable)];
        case Parsed(List(_)) =>
          registry := registry + [SS.Action(token, SS.Writable)];
          connections.entries := connections.entries[token := CommandTransfer(s, Reset(toWrite, AsciiBytes(UnimplementedList)), d)];
        case Parsed(Port(_, _)) =>
          var nextId := NextId();
          var _ := PortThread(token, nextId, env.connected);
      }
    }

    /** `read_connection` on a passive listener: the accepted connection is registered and answered with the test page. */
    method ReadPassivePort(token: SS.Token, command: SS.Token, env: ReadEnv) returns (r: SS.Io<()>)
      requires ReadPre(env) && token in connections.entries && connections.entries[token].PassiveModePort?
      requires connections.entries[token].command == command
      modifies this, connections
      ensures var e := Read(token, old(connections.entries), env, old(currentId) + 1);
        && connections.entries == e.table && registry == old(registry) + e.registered
        && e.pushed == [] && r == e.result
        && currentId == old(currentId) + (if e.takesId then 1 else 0) && port == old(port)
    {
      r := SS.Done(());
      if env.accepted.Fails? {
        r := SS.IoError(env.accepted.kind);
        return;
      }
      var tokenForConnection := NextId();
      if !env.registered {
        r := SS.IoError(SS.Other);
        return;
      }
      registry := registry + [SS.Action(tokenForConnection, SS.Writable)];
      AddConnection(tokenForConnection, FileTransferPassive(SS.Open, Buffer(NewBuffer(TestHtml(AsciiBytes(Hello)))), command));
      connections.entries := connections.entries - {token};
    }

    /** The closure PORT spawns, as `PortConnect` describes it. */
    method PortThread(token: SS.Token, nextId: SS.Token, connected: bool) returns (r: SS.Io<()>)
      modifies connections, actions
      ensures var (table, pushed, result) := PortConnect(token, old(connections.entries), connected, nextId);
        connections.entries == table && actions.items == old(actions.items) + pushed && r == result
    {
      if token !in connections.entries {
        r := SS.Panicked;
        return;
      }
      actions.Push(SS.Action(token, SS.Writable));
      match connections.entries[token] {
        case CommandTransfer(s, toWrite, d) =>
          if !connected {
            connections.entries := connections.entries[token := CommandTransfer(s, Reset(toWrite, SS.Reply(RC.BadSequenceOfCommands(), BadSequence)), d)];
            r := SS.Done(());
            return;
          }
          connections.entries := connections.entries[token := CommandTransfer(s, Reset(toWrite, SS.Reply(RC.CommandOkay(), CommandOkay)), Some(nextId))];
          connections.entries := connections.entries[nextId := FileTransferActive(SS.Open, Buffer(DefaultBuffer()), token)];
          r := SS.Done(());
        case _ =>
          r := SS.Panicked;
      }
    }

    /** `close_connection`, as `Closing` describes it. */
    method CloseConnection(token: SS.Token) returns (r: SS.Io<()>)
      modifies connections
      ensures connections.entries == Closing(old(connections.entries), token) && r == SS.Done(())
    {
      r := SS.Done(());
      if token !in connections.entries {
        return;
      }
      var conn := connections.entries[token];
      connections.entries := connections.entries - {token};
      match conn {
        case CommandTransfer(_, _, Some(d)) =>
          if d in connections.entries {
            connections.entries := connections.entries - {d};
          }
        case _ =>
      }
    }
  }

  /** A control connection whose buffer holds exactly the reply `code text`. */
  predicate Replied(rt: RequestType, code: nat, text: string)
  {
    rt.CommandTransfer? && Sound(rt.toWrite) && IsAsciiText(text) && Pending(rt.toWrite) == SS.Reply(code, text)
  }

  /** The entries other than `a` and `b` are the same in both tables. */
  predicate SameElsewhere(m: Table, r: Table, a: SS.Token, b: SS.Token)
  {
    forall t | t in m && t != a && t != b :: t in r && r[t] == m[t]
  }

  /** The interest `t` was last asked for in `acts`, the registrations and actions in the order they were made. */
  function LastInterest(acts: seq<SS.Action>, t: SS.Token): Option<SS.Interest>
  {
    if acts == [] then None
    else if acts[|acts| - 1].token == t then Some(acts[|acts| - 1].interest)
    else LastInterest(acts[..|acts| - 1], t)
  }

  /** Requests that do not name `t` leave what `t` was last asked for. */
  lemma {:induction false} LastInterestSkips(acts: seq<SS.Action>, more: seq<SS.Action>, t: SS.Token)
    requires Unnamed(more, t)
    ensures LastInterest(acts + more, t) == LastInterest(acts, t)
    decreases |more|
  {
    if more == [] {
      assert acts + more == acts;
    } else {
      var k := more[..|more| - 1];
      var all := acts + more;
      assert all[..|all| - 1] == acts + k;
      assert all[|all| - 1] == more[|more| - 1] && more[|more| - 1] in more;
      assert LastInterest(all, t) == LastInterest(acts + k, t);
      LastInterestSkips(acts, k, t);
    }
  }

  /**
   * What the earlier server keeps of its control connections' buffers: each can be sliced at its
   * offset, or it is an emptied reply whose connection was last asked to read.
   */
  predicate StaleOnlyWhileReading(m: Table, acts: seq<SS.Action>)
  {
    forall t | t in m && m[t].CommandTransfer? ::
      Sound(m[t].toWrite) || (m[t].toWrite.buffer == [] && LastInterest(acts, t) == Some(SS.Readable))
  }

  /** No request in `acts` names `t`. */
  predicate Unnamed(acts: seq<SS.Action>, t: SS.Token)
  {
    forall x | x in acts :: x.token != t
  }

  /** A step that leaves every buffer it cannot slice as it was, and asks nothing of it, keeps the invariant. */
  lemma StaleKept(m: Table, r: Table, acts: seq<SS.Action>, more: seq<SS.Action>)
    requires StaleOnlyWhileReading(m, acts)
    requires forall t | t in r && r[t].CommandTransfer? && !Sound(r[t].toWrite) :: t in m && r[t] == m[t] && Unnamed(more, t)
    ensures StaleOnlyWhileReading(r, acts + more)
  {
    forall t | t in r && r[t].CommandTransfer? && !Sound(r[t].toWrite)
      ensures r[t].toWrite.buffer == [] && LastInterest(acts + more, t) == Some(SS.Readable)
    {
      LastInterestSkips(acts, more, t);
    }
  }

  /**
   * A read keeps the buffers as `StaleOnlyWhileReading` says: every reply it gives a control
   * connection, and every request to make one writable, comes with a buffer sent from offset 0.
   */
  lemma ReadKeepsStaleOnlyWhileReading(token: SS.Token, m: Table, env: ReadEnv, id: SS.Token, acts: seq<SS.Action>)
    requires StaleOnlyWhileReading(m, acts)
    ensures var e := Read(token, m, env, id); StaleOnlyWhileReading(e.table, acts + e.registered + e.pushed)
  {
    var e := Read(token, m, env, id);
    var more := e.registered + e.pushed;
    assert acts + e.registered + e.pushed == acts + more;
    if token in m && m[token].CommandTransfer? && env.received.Gives? && |env.received.value| < ReadBufferSize
       && LC.Parse(env.received.value).Parsed? && LC.Parse(env.received.value).command.Port? {
      var (table, pushed, _) := PortConnect(token, m, env.connected, id);
      assert e.table == table && more == pushed;
      PortConnectResets(token, m, env.connected, id);
    }
    StaleKept(m, e.table, acts, more);
  }

  /** The PORT closure leaves every control connection it cannot slice as it was, and asks only for `token`, which it resets. */
  lemma PortConnectResets(token: SS.Token, m: Table, connected: bool, id: SS.Token)
    ensures var (table, pushed, _) := PortConnect(token, m, connected, id);
      && (forall x | x in pushed :: x.token == token)
      && (forall t | t in table && table[t].CommandTransfer? && !Sound(table[t].toWrite) :: t in m && table[t] == m[t] && t != token)
  {
  }

  /** A new control connection is stored with its greeting from offset 0 and asked to be writable. */
  lemma AdmissionKeepsStaleOnlyWhileReading(m: Table, token: SS.Token, acts: seq<SS.Action>)
    requires StaleOnlyWhileReading(m, acts)
    ensures StaleOnlyWhileReading(m[token := CommandTransfer(SS.Open, NewBuffer(Greeting()), None)], acts + [SS.Action(token, SS.Writable)])
  {
    StaleKept(m, m[token := CommandTransfer(SS.Open, NewBuffer(Greeting()), None)], acts, [SS.Action(token, SS.Writable)]);
  }

  /**
   * A read that fails or fills the buffer changes nothing; a rejected line leaves the parser's
   * message in a 503 reply and registers the connection writable.
   */
  lemma ReadRejects(token: SS.Token, m: Table, env: ReadEnv, id: SS.Token)
    requires ReadPre(env) && token in m && m[token].CommandTransfer?
    ensures var e := Read(token, m, env, id);
      && (env.received.Fails? ==> e == ReadEffect(m, [], [], false, SS.IoError(env.received.kind)))
      && (env.received.Gives? && |env.received.value| == ReadBufferSize ==> e == ReadEffect(m, [], [], false, SS.IoError(SS.Other)))
      && (env.received.Gives? && |env.received.value| < ReadBufferSize && LC.Parse(env.received.value).Rejected? ==>
            && Replied(e.table[token], RC.BadSequenceOfCommands(), LC.Parse(env.received.value).message)
            && e.table[token].data == m[token].data && e.table.Keys == m.Keys && SameElsewhere(m, e.table, token, token)
            && e.registered == [SS.Action(token, SS.Writable)] && e.pushed == [] && e.result == SS.Done(()))
  {
    if env.received.Gives? && |env.received.value| < ReadBufferSize {
      RejectedAscii(env.received.value);
    }
  }

  /**
   * LIST leaves a bare text in the buffer: it is not a reply line, so a client reading replies
   * cannot read it as one.
   */
  lemma ListLeavesNoReply(token: SS.Token, m: Table, env: ReadEnv, id: SS.Token, path: seq<byte>)
    requires ReadPre(env) && token in m && m[token].CommandTransfer?
    requires env.received.Gives? && |env.received.value| < ReadBufferSize && LC.Parse(env.received.value) == LC.Parsed(LC.List(path))
    ensures var e := Read(token, m, env, id);
      && e.table[token].CommandTransfer? && Sound(e.table[token].toWrite)
      && Pending(e.table[token].toWrite) == AsciiBytes(UnimplementedList)
      && SS.ParseReply(Pending(e.table[token].toWrite)) == None
      && e.table.Keys == m.Keys && SameElsewhere(m, e.table, token, token)
      && e.registered == [SS.Action(token, SS.Writable)] && e.result == SS.Done(())
  {
    var u := AsciiBytes(UnimplementedList);
    assert u[0] == 'u' as int;
  }

  /**
   * PORT takes a fresh id. Once connected, the control connection names it as its data
   * connection and answers 200, and the id holds an active transfer with nothing to send,
   * linked back; a failed connect answers 503 and keeps the data link. Either way the control
   * connection is asked to become writable, and nothing else changes.
   */
  lemma PortLinks(token: SS.Token, m: Table, env: ReadEnv, id: SS.Token, ip: LC.SC.Ipv4, port: u16)
    requires ReadPre(env) && token in m && m[token].CommandTransfer? && id != token
    requires env.received.Gives? && |env.received.value| < ReadBufferSize && LC.Parse(env.received.value) == LC.Parsed(LC.Port(ip, port))
    ensures var e := Read(token, m, env, id);
      && e.takesId && e.registered == [] && e.pushed == [SS.Action(token, SS.Writable)] && e.result == SS.Done(())
      && SameElsewhere(m, e.table, token, id) && token in e.table
      && (env.connected ==>
            && Replied(e.table[token], RC.CommandOkay(), CommandOkay) && e.table[token].data == Some(id)
            && e.table[id] == FileTransferActive(SS.Open, Buffer(DefaultBuffer()), token)
            && e.table.Keys == m.Keys + {id})
      && (!env.connected ==>
            && Replied(e.table[token], RC.BadSequenceOfCommands(), BadSequence) && e.table[token].data == m[token].data
            && e.table.Keys == m.Keys)
  {
  }

  /**
   * A passive listener accepts once: it leaves the table, and the accepted stream is stored
   * under the fresh id as a passive transfer sending the test page, linked to the listener's
   * control connection.
   */
  lemma AcceptOnce(token: SS.Token, m: Table, env: ReadEnv, id: SS.Token)
    requires token in m && m[token].PassiveModePort? && id != token
    requires env.accepted.Gives? && env.registered
    ensures var e := Read(token, m, env, id);
      && token !in e.table && id in e.table && e.table.Keys == m.Keys - {token} + {id}
      && e.table[id].FileTransferPassive? && e.table[id].command == m[token].command
      && e.table[id].transfer.Buffer? && Sound(e.table[id].transfer.toWrite)
      && HtmlBody(Pending(e.table[id].transfer.toWrite)) == Some(AsciiBytes(Hello))
      && SameElsewhere(m, e.table, token, id)
      && e.registered == [SS.Action(id, SS.Writable)] && e.takesId && e.result == SS.Done(())
  {
    TestHtmlRoundTrip(AsciiBytes(Hello));
  }

  /** A read of a file transfer is not implemented: the server panics. */
  lemma TransferReadPanics(token: SS.Token, m: Table, env: ReadEnv, id: SS.Token)
    requires token in m && (m[token].FileTransferActive? || m[token].FileTransferPassive?)
    ensures Read(token, m, env, id) == ReadEffect(m, [], [], false, SS.Panicked)
  {
  }

  /**
   * Closing drops the connection and, for a control connection, its data connection, and
   * nothing else; closing an unknown token changes nothing.
   */
  lemma CloseDropsLinked(m: Table, token: SS.Token)
    ensures var r := Closing(m, token);
      && (token !in m ==> r == m)
      && (token in m && m[token].CommandTransfer? && m[token].data.Some? ==>
            r.Keys == m.Keys - {token, m[token].data.value})
      && (token in m && !(m[token].CommandTransfer? && m[token].data.Some?) ==> r.Keys == m.Keys - {token})
  {
  }
}
