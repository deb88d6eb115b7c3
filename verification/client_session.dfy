/**
 * The client's session (FTPclient/src/r0p3/Main.java): greeting, login, choice of the data
 * connection mode, then one command per round until the server stops answering or QUIT is
 * accepted. The keyboard, the control connection's replies, what the data connections deliver,
 * whether the operating system lets each data connection be set up, and the local files are
 * values given up front; the session is the list of things the client does and how it ends.
 */
module ClientSession {
  import opened Wrappers
  import Ascii
  import opened JvmText
  import CC = ClientCommand
  import ST = ClientStatus
  import CT = ClientTransfer

  /** What the client does, in order. Printing to the console is left out. */
  datatype Event =
    | Sent(line: string)                              // a line on the control connection
    | Received                                        // one control reply read
    | PassiveConnect(port: int)                       // `startPasive` to the announced port
    | Accepted                                        // `acceptConnection` on the client's own port
    | ListedData(text: string)                        // `listFile`
    | Stored(name: string, data: seq<Ascii.byte>)     // `downloadFile`, then `storeDataFile`
    | Uploaded(bytes: seq<Ascii.byte>)                // `uploadFile`
    | ClosedControl                                   // `fc.close`
    | ClosedData                                      // `ft.closeConnection`

  /** How `main` ends: returning, `System.exit`, or an uncaught exception. */
  datatype Ending = Finished | ExitedWith(status: int) | Crashed

  datatype Session = Session(events: seq<Event>, ending: Ending)

  /** What a local name denotes: a file with its bytes, or a directory. */
  datatype Entry = File(bytes: seq<Ascii.byte>) | Directory

  /**
   * Everything the session reads: the host name argument, the port the client's listening socket
   * got, the keyboard lines, the control replies, the lines of each listing and the bytes of each
   * download in the order the data connections deliver them, whether each data connection's
   * set-up (`startPasive`'s connect or `acceptConnection`) succeeds, the local files and
   * directories, and the names `new FileOutputStream` refuses besides the empty name and
   * directories (a missing parent directory, no permission).
   */
  datatype World = World(
    address: string,
    boundPort: nat,
    console: seq<string>,
    replies: seq<string>,
    listings: seq<seq<string>>,
    downloads: seq<seq<Ascii.byte>>,
    links: seq<bool>,
    localFiles: map<string, Entry>,
    unwritable: set<string>)

  /**
   * How far the session has read each input, how many data connections it has set up, the local
   * files as its downloads left them, and what it has done.
   */
  datatype Cursor = Cursor(console: nat, reply: nat, listed: nat, downloaded: nat, linked: nat,
                           files: map<string, Entry>, events: seq<Event>)

  /** The outcome of one part of the session: go on from a cursor, or the session is over. */
  datatype Step = Continue(next: Cursor) | Stop(session: Session)

  /** The events at the end of a step. */
  function EventsOf(r: Step): seq<Event>
  {
    if r.Continue? then r.next.events else r.session.events
  }

  /** The `k`-th data connection's content; one that was never provided delivers nothing. */
  function Nth<T>(xs: seq<seq<T>>, k: nat): seq<T>
  {
    if k < |xs| then xs[k] else []
  }

  /** Whether the `k`-th data connection's set-up succeeds; one never provided fails with an IOException. */
  predicate Linked(w: World, k: nat)
  {
    k < |w.links| && w.links[k]
  }

  /** `new FileOutputStream(new File(name))` opens: not the empty name, not a directory, not refused. */
  predicate Storable(files: map<string, Entry>, unwritable: set<string>, name: string)
  {
    name != "" && !(name in files && files[name].Directory?) && name !in unwritable
  }

  /** `mode.startsWith(Command.PASIVE)`. */
  predicate Passive(mode: string)
  {
    StartsWith(mode, "PASV")
  }

  /**
   * Sending the mode line and setting up the data connection: in passive mode the reply's port
   * is parsed (a reply that does not parse throws), the client connects to it (a port `Socket`
   * refuses, or a connect that fails, throws) and reads one more reply; in active mode it accepts
   * one connection (an accept that fails throws).
   */
  function Reconnect(w: World, mode: string, c: Cursor): (r: Step)
    ensures r.Continue? ==> r.next.reply >= c.reply && r.next.console == c.console
    ensures r.Continue? && c.reply <= |w.replies| ==> r.next.reply <= |w.replies|
    ensures r.Continue? ==> r.next.listed == c.listed && r.next.downloaded == c.downloaded
    ensures r.Continue? ==> r.next.files == c.files && r.next.linked == c.linked + 1 && Linked(w, c.linked)
    ensures r.Stop? ==> r.session.ending == Crashed
    ensures c.events <= EventsOf(r)
  {
    var (rcv, next) := CC.ReadLine(w.replies, c.reply);
    if Passive(mode) then
      match CT.PasvPort(rcv)
      case None => Stop(Session(c.events + [Sent(mode), Received], Crashed))
      case Some(port) =>
        if !CT.SocketPort(port) || !Linked(w, c.linked) then Stop(Session(c.events + [Sent(mode), Received], Crashed))
        else
          var (_, after) := CC.ReadLine(w.replies, next);
          Continue(c.(reply := after, linked := c.linked + 1,
                      events := c.events + [Sent(mode), Received, PassiveConnect(port), Received]))
    else if !Linked(w, c.linked) then Stop(Session(c.events + [Sent(mode), Received], Crashed))
    else
      Continue(c.(reply := next, linked := c.linked + 1, events := c.events + [Sent(mode), Received, Accepted]))
  }

  /**
   * `getDataFile`: while nothing of the given name exists, ask for another name. A null name
   * makes `new File` throw, and so does `readAllBytes` on a directory (None).
   */
  function DataFile(files: map<string, Entry>, console: seq<string>, name: Option<string>, pos: nat): (r: Option<(seq<Ascii.byte>, nat)>)
    ensures r.Some? ==> pos <= r.value.1 && File(r.value.0) in files.Values
    decreases |console| - pos
  {
    if name.None? then None
    else if name.value in files then
      match files[name.value]
      case File(bytes) => Some((bytes, pos))
      case Directory => None
    else if pos >= |console| then None
    else DataFile(files, console, Some(console[pos]), pos + 1)
  }

  /** What the classified reply leads to before the mode is sent again. */
  function Transfer(w: World, status: ST.Status, c: Cursor): (r: Step)
    ensures r.Continue? ==> r.next.reply >= c.reply && r.next.console >= c.console && r.next.linked == c.linked
    ensures r.Continue? ==> c.files.Keys <= r.next.files.Keys
    ensures r.Continue? && c.reply <= |w.replies| ==> r.next.reply <= |w.replies|
    ensures r.Stop? ==> r.session.ending == Crashed
    ensures c.events <= EventsOf(r)
  {
    if status == ST.List then
      var text := CT.ListText(Nth(w.listings, c.listed));
      var (_, next) := CC.ReadLine(w.replies, c.reply);
      Continue(c.(listed := c.listed + 1, reply := next, events := c.events + [ListedData(text), Received]))
    else if status == ST.Down then
      match CT.DownloadFile(Nth(w.downloads, c.downloaded))
      case Downloaded(data, _) =>
        var (name, pos) := CC.ReadLine(w.console, c.console);
        if name.None? || !Storable(c.files, w.unwritable, name.value) then Stop(Session(c.events, Crashed))
        else
          var (_, next) := CC.ReadLine(w.replies, c.reply);
          Continue(c.(console := pos, downloaded := c.downloaded + 1, reply := next,
                      files := c.files[name.value := File(data)],
                      events := c.events + [Stored(name.value, data), Received]))
      case _ => Stop(Session(c.events, Crashed))
    else if status == ST.Up then
      var (name, pos) := CC.ReadLine(w.console, c.console);
      match DataFile(c.files, w.console, name, pos)
      case None => Stop(Session(c.events, Crashed))
      case Some((data, pos2)) =>
        if |data| > IntMax then Stop(Session(c.events, Crashed))
        else
          var (_, next) := CC.ReadLine(w.replies, c.reply);
          Continue(c.(console := pos2, reply := next, events := c.events + [Uploaded(CT.Upload(data)), Received]))
    else if status == ST.Move then
      var (name, pos) := CC.ReadLine(w.console, c.console);
      var (_, next) := CC.ReadLine(w.replies, c.reply);
      Continue(c.(console := pos, reply := next, events := c.events + [Sent(CC.RenameTo(name)), Received]))
    else Continue(c)
  }

  /** What happens after the command's reply was read and classified. */
  function Act(w: World, mode: string, c: Cursor, command: string, rcv: Option<string>): (r: Step)
    ensures r.Continue? ==> r.next.reply >= c.reply
    ensures r.Continue? && c.reply <= |w.replies| ==> r.next.reply <= |w.replies|
    ensures r.Stop? ==> !r.session.ending.ExitedWith?
    ensures c.events <= EventsOf(r)
  {
    if rcv.None? then Stop(Session(c.events + [ClosedData, ClosedControl, ClosedData], Finished))
    else
      var status := ST.InterpretStatusCode(command, rcv).value;
      if status == ST.Exit then Stop(Session(c.events + [ClosedControl, ClosedData, ClosedData], Finished))
      else
        match Transfer(w, status, c)
        case Stop(s) => Stop(s)
        case Continue(c2) => Reconnect(w, mode, c2)
  }

  /** One round of the loop: read a command, send it, read its reply, act on it. */
  function Round(w: World, mode: string, c: Cursor): (r: Step)
    ensures r.Continue? ==> c.reply < r.next.reply <= |w.replies|
    ensures r.Stop? ==> !r.session.ending.ExitedWith?
    ensures c.events <= EventsOf(r)
  {
    var read := CC.InputCommandFrom(w.console, c.console);
    if read.EndOfInput? then Stop(Session(c.events, Crashed))
    else
      var (rcv, next) := CC.ReadLine(w.replies, c.reply);
      Act(w, mode, c.(console := read.next, reply := next, events := c.events + [Sent(read.Wire()), Received]), read.Wire(), rcv)
  }

  /** The loop from a cursor: rounds until one ends the session. */
  function Loop(w: World, mode: string, c: Cursor): Session
    decreases |w.replies| - c.reply
  {
    match Round(w, mode, c)
    case Stop(s) => s
    case Continue(c2) => Loop(w, mode, c2)
  }

  /** The events of the greeting and the login, for the keyboard's first two lines. */
  function LoginEvents(w: World): seq<Event>
  {
    var (user, k1) := CC.ReadLine(w.console, 0);
    var (pass, _) := CC.ReadLine(w.console, k1);
    [Received, Sent(CC.InputUserName(user)), Received, Sent(CC.InputPasswd(pass)), Received]
  }

  /** The server's answer to PASS: the third line, after the greeting and the answer to USER, and where reading goes on. */
  function PassReply(replies: seq<string>): (Option<string>, nat)
  {
    var (_, r1) := CC.ReadLine(replies, 0);
    var (_, r2) := CC.ReadLine(replies, r1);
    CC.ReadLine(replies, r2)
  }

  /** The whole session. */
  function Run(w: World): Session
  {
    if w.address != "localhost" then Session([], Crashed)
    else
      var (user, k1) := CC.ReadLine(w.console, 0);
      var (pass, k2) := CC.ReadLine(w.console, k1);
      var (passReply, r3) := PassReply(w.replies);
      var login := LoginEvents(w);
      match ST.InterpretStatusCode(CC.InputPasswd(pass), passReply)
      case None => Session(login, Crashed)
      case Some(result) =>
        if result == ST.Error then Session(login + [ClosedControl], ExitedWith(1))
        else
          Proceed(w, k2, r3, login)
  }

  /**
   * After a login that was not refused: the mode line is chosen from the next keyboard line, the
   * data connection set up, and the loop runs.
   */
  function Proceed(w: World, kpos: nat, rpos: nat, events: seq<Event>): (s: Session)
    ensures !s.ending.ExitedWith?
  {
    var (modeInput, k3) := CC.ReadLine(w.console, kpos);
    match CC.SelectMode(modeInput, CT.PortArgument(w.boundPort))
    case None => Session(events, Crashed)
    case Some(mode) =>
      match Reconnect(w, mode, Cursor(k3, rpos, 0, 0, 0, w.localFiles, events))
      case Stop(s) => s
      case Continue(c) => LoopEnding(w, mode, c); Loop(w, mode, c)
  }

  /** Sending the mode and setting up the data connection, on the client's FileTransfer object. */
  method Renegotiate(ft: CT.FileTransfer, w: World, mode: string, c: Cursor) returns (r: Step)
    modifies ft
    ensures r == Reconnect(w, mode, c)
  {
    var (rcv, next) := CC.ReadLine(w.replies, c.reply);
    if Passive(mode) {
      var parsed := ft.GetPortPasive(rcv);
      if !parsed || !CT.SocketPort(ft.port) || !Linked(w, c.linked) {
        return Stop(Session(c.events + [Sent(mode), Received], Crashed));
      }
      var (_, after) := CC.ReadLine(w.replies, next);
      r := Continue(c.(reply := after, linked := c.linked + 1,
                       events := c.events + [Sent(mode), Received, PassiveConnect(ft.port), Received]));
    } else if !Linked(w, c.linked) {
      r := Stop(Session(c.events + [Sent(mode), Received], Crashed));
    } else {
      r := Continue(c.(reply := next, linked := c.linked + 1, events := c.events + [Sent(mode), Received, Accepted]));
    }
  }

  /** `getDataFile`: the loop asking for a file name until something of that name exists. */
  method GetDataFile(w: World, files: map<string, Entry>, filename: Option<string>, pos: nat) returns (r: Option<(seq<Ascii.byte>, nat)>)
    ensures r == DataFile(files, w.console, filename, pos)
  {
    var name, p := filename, pos;
    while true
      invariant DataFile(files, w.console, name, p) == DataFile(files, w.console, filename, pos)
      decreases |w.console| - p
    {
      if name.None? {
        return None;
      }
      if name.value in files {
        if files[name.value].Directory? {
          return None;
        }
        return Some((files[name.value].bytes, p));
      }
      if p >= |w.console| {
        return None;
      }
      name, p := Some(w.console[p]), p + 1;
    }
  }

  /** The transfer, rename or nothing that a classified reply calls for. */
  method DoTransfer(w: World, status: ST.Status, c: Cursor) returns (r: Step)
    ensures r == Transfer(w, status, c)
  {
    if status == ST.List {
      var data := CT.ListFile(Nth(w.listings, c.listed));
      var (_, next) := CC.ReadLine(w.replies, c.reply);
      r := Continue(c.(listed := c.listed + 1, reply := next, events := c.events + [ListedData(data), Received]));
    } else if status == ST.Down {
      var download := CT.DownloadFile(Nth(w.downloads, c.downloaded));
      if !download.Downloaded? {
        return Stop(Session(c.events, Crashed));
      }
      var (filename, pos) := CC.ReadLine(w.console, c.console);
      if filename.None? || !Storable(c.files, w.unwritable, filename.value) {
        return Stop(Session(c.events, Crashed));
      }
      var (_, next) := CC.ReadLine(w.replies, c.reply);
      r := Continue(c.(console := pos, downloaded := c.downloaded + 1, reply := next,
                       files := c.files[filename.value := File(download.data)],
                       events := c.events + [Stored(filename.value, download.data), Received]));
    } else if status == ST.Up {
      var (filename, pos) := CC.ReadLine(w.console, c.console);
      var file := GetDataFile(w, c.files, filename, pos);
      if file.None? || |file.value.0| > IntMax {
        return Stop(Session(c.events, Crashed));
      }
      var (_, next) := CC.ReadLine(w.replies, c.reply);
      r := Continue(c.(console := file.value.1, reply := next,
                       events := c.events + [Uploaded(CT.Upload(file.value.0)), Received]));
    } else if status == ST.Move {
      var (name, pos) := CC.ReadLine(w.console, c.console);
      var command := CC.RenameTo(name);
      var (_, next) := CC.ReadLine(w.replies, c.reply);
      r := Continue(c.(console := pos, reply := next, events := c.events + [Sent(command), Received]));
    } else {
      r := Continue(c);
    }
  }

  /** The `main` method of the client: login, mode selection, then the command loop. */
  method RunSession(w: World) returns (s: Session)
    ensures s == Run(w)
  {
    var ft := CT.FileTransfer.New(w.address, w.boundPort);
    if ft == null {
      return Session([], Crashed);
    }
    var (_, r1) := CC.ReadLine(w.replies, 0);

    var (user, k1) := CC.ReadLine(w.console, 0);
    var userName := CC.InputUserName(user);
    var (_, r2) := CC.ReadLine(w.replies, r1);

    var (pass, k2) := CC.ReadLine(w.console, k1);
    var passwd := CC.InputPasswd(pass);
    var (rcv, r3) := CC.ReadLine(w.replies, r2);
    var events := [Received, Sent(userName), Received, Sent(passwd), Received];
    assert (rcv, r3) == PassReply(w.replies);
    var result := ST.InterpretStatusCode(passwd, rcv);
    if result.None? {
      return Session(events, Crashed);
    }
    if result.value == ST.Error {
      return Session(events + [ClosedControl], ExitedWith(1));
    }

    var (modeInput, k3) := CC.ReadLine(w.console, k2);
    var ipPort := ft.GetIpPort();
    var selected := CC.SelectMode(modeInput, ipPort.value);
    if selected.None? {
      return Session(events, Crashed);
    }
    var mode := selected.value;
    var step := Renegotiate(ft, w, mode, Cursor(k3, r3, 0, 0, 0, w.localFiles, events));
    if step.Stop? {
      return step.session;
    }
    var c := step.next;
    assert Loop(w, mode, c) == Run(w);

    while true
      invariant Loop(w, mode, c) == Run(w)
      invariant c.reply <= |w.replies|
      decreases |w.replies| - c.reply
    {
      var read := CC.InputCommand(w.console, c.console);
      if read.EndOfInput? {
        return Session(c.events, Crashed);
      }
      var command := read.Wire();
      var (reply, next) := CC.ReadLine(w.replies, c.reply);
      var c1 := c.(console := read.next, reply := next, events := c.events + [Sent(command), Received]);
      if reply.None? {
        return Session(c1.events + [ClosedData, ClosedControl, ClosedData], Finished);
      }
      var status := ST.InterpretStatusCode(command, reply).value;
      if status == ST.Exit {
        return Session(c1.events + [ClosedControl, ClosedData, ClosedData], Finished);
      }
      var after := DoTransfer(w, status, c1);
      if after.Stop? {
        return after.session;
      }
      step := Renegotiate(ft, w, mode, after.next);
      if step.Stop? {
        return step.session;
      }
      assert Round(w, mode, c) == step;
      c := step.next;
    }
  }

  /** The loop never ends with an exit status, and only adds events. */
  lemma {:induction false} LoopEnding(w: World, mode: string, c: Cursor)
    ensures !Loop(w, mode, c).ending.ExitedWith?
    ensures c.events <= Loop(w, mode, c).events
    decreases |w.replies| - c.reply
  {
    var r := Round(w, mode, c);
    if r.Continue? {
      LoopEnding(w, mode, r.next);
    }
  }

  /** The PASS line starts with the PASS keyword and a space. */
  lemma PassLine(pass: Option<string>)
    ensures CC.InputPasswd(pass) == "PASS " + (Shown(pass) + CC.CRLF)
    ensures ST.HasBranch(CC.InputPasswd(pass))
  {
    var line := CC.InputPasswd(pass);
    ST.Leading("PASS ", Shown(pass) + CC.CRLF);
    assert StartsWith(line, "PASS");
  }

  /**
   * The session exits with status 1 exactly when the host is "localhost" and the reply to PASS
   * arrives and does not start with 230; it then has closed the control connection right after
   * the login, before any mode line.
   */
  lemma ExitOnRejectedPassword(w: World)
    ensures Run(w).ending == ExitedWith(1) <==>
      w.address == "localhost" && |w.replies| >= 3 && !StartsWith(w.replies[2], "230")
    ensures Run(w).ending == ExitedWith(1) ==> Run(w).events == LoginEvents(w) + [ClosedControl]
  {
    if w.address == "localhost" {
      var (user, k1) := CC.ReadLine(w.console, 0);
      var (pass, k2) := CC.ReadLine(w.console, k1);
      PassLine(pass);
      if |w.replies| >= 3 {
        ST.PasswordOutcome(Shown(pass) + CC.CRLF, w.replies[2]);
      }
    }
  }

  /** Two worlds that differ at most in the replies before position `k`. */
  predicate AgreeFrom(w: World, v: World, k: nat)
  {
    && v == w.(replies := v.replies)
    && |v.replies| == |w.replies|
    && forall i | k <= i < |w.replies| :: v.replies[i] == w.replies[i]
  }

  lemma AgreeLater(w: World, v: World, k: nat, j: nat)
    requires AgreeFrom(w, v, k) && k <= j
    ensures AgreeFrom(w, v, j)
  {
  }

  lemma ReconnectAgree(w: World, v: World, mode: string, c: Cursor)
    requires AgreeFrom(w, v, c.reply)
    ensures Reconnect(w, mode, c) == Reconnect(v, mode, c)
  {
    assert CC.ReadLine(w.replies, c.reply) == CC.ReadLine(v.replies, c.reply);
    assert CC.ReadLine(w.replies, c.reply + 1) == CC.ReadLine(v.replies, c.reply + 1);
  }

  lemma TransferAgree(w: World, v: World, status: ST.Status, c: Cursor)
    requires AgreeFrom(w, v, c.reply)
    ensures Transfer(w, status, c) == Transfer(v, status, c)
  {
    assert CC.ReadLine(w.replies, c.reply) == CC.ReadLine(v.replies, c.reply);
  }

  lemma RoundAgree(w: World, v: World, mode: string, c: Cursor)
    requires AgreeFrom(w, v, c.reply)
    ensures Round(w, mode, c) == Round(v, mode, c)
  {
    var read := CC.InputCommandFrom(w.console, c.console);
    if read.Read? {
      var (rcv, next) := CC.ReadLine(w.replies, c.reply);
      assert CC.ReadLine(v.replies, c.reply) == (rcv, next);
      var c1 := c.(console := read.next, reply := next, events := c.events + [Sent(read.Wire()), Received]);
      if rcv.Some? {
        var status := ST.InterpretStatusCode(read.Wire(), rcv).value;
        AgreeLater(w, v, c.reply, c1.reply);
        TransferAgree(w, v, status, c1);
        var t := Transfer(w, status, c1);
        if t.Continue? {
          AgreeLater(w, v, c1.reply, t.next.reply);
          ReconnectAgree(w, v, mode, t.next);
        }
      }
    }
  }

  /** The loop from a cursor reads no reply before the cursor. */
  lemma {:induction false} LoopAgree(w: World, v: World, mode: string, c: Cursor)
    requires AgreeFrom(w, v, c.reply)
    ensures Loop(w, mode, c) == Loop(v, mode, c)
    decreases |w.replies| - c.reply
  {
    RoundAgree(w, v, mode, c);
    var r := Round(w, mode, c);
    if r.Continue? {
      AgreeLater(w, v, c.reply, r.next.reply);
      LoopAgree(w, v, mode, r.next);
    }
  }

  /** The answer to PASS does not depend on what the answer to USER said. */
  lemma PassReplyAfterUser(replies: seq<string>, x: string)
    requires |replies| >= 2
    ensures PassReply(replies[1 := x]) == PassReply(replies)
    ensures PassReply(replies).1 == if |replies| >= 3 then 3 else 2
  {
  }

  /** The reply to USER is read but never looked at: whatever it is, the session is the same. */
  lemma UserReplyIgnored(w: World, x: string)
    requires |w.replies| >= 2
    ensures Run(w.(replies := w.replies[1 := x])) == Run(w)
  {
    var v := w.(replies := w.replies[1 := x]);
    assert AgreeFrom(w, v, 2);
    if w.address == "localhost" {
      var (user, k1) := CC.ReadLine(w.console, 0);
      var (pass, k2) := CC.ReadLine(w.console, k1);
      var r3 := PassReply(w.replies).1;
      PassReplyAfterUser(w.replies, x);
      AgreeLater(w, v, 2, r3);
      ProceedAgree(w, v, k2, r3, LoginEvents(w));
    }
  }

  lemma ProceedAgree(w: World, v: World, kpos: nat, rpos: nat, events: seq<Event>)
    requires AgreeFrom(w, v, rpos)
    ensures Proceed(w, kpos, rpos, events) == Proceed(v, kpos, rpos, events)
  {
    var (modeInput, k3) := CC.ReadLine(w.console, kpos);
    var selected := CC.SelectMode(modeInput, CT.PortArgument(w.boundPort));
    if selected.Some? {
      var start := Cursor(k3, rpos, 0, 0, 0, w.localFiles, events);
      ReconnectAgree(w, v, selected.value, start);
      var r := Reconnect(w, selected.value, start);
      if r.Continue? {
        AgreeLater(w, v, rpos, r.next.reply);
        LoopAgree(w, v, selected.value, r.next);
      }
    }
  }

  /** "P" or "p" selects passive mode, any other line the PORT line with the client's own address and port. */
  lemma ModeOfInput(x: string, ipPort: string)
    ensures CC.SelectMode(Some(x), ipPort).Some?
    ensures Passive(CC.SelectMode(Some(x), ipPort).value) <==> x == "P" || x == "p"
  {
    var line := CC.SelectMode(Some(x), ipPort).value;
    if !(x == "P" || x == "p") {
      assert line[1] == 'O';
    }
  }

  /**
   * Setting up the data connection fails exactly when the operating system does not let it be
   * set up, or in passive mode when the reply has no port or one `Socket` refuses; the session
   * then crashes after the mode line and its reply. Otherwise passive mode connects to the port
   * of the reply and reads one more reply, and active mode accepts a connection without reading
   * more.
   */
  lemma ModeNegotiation(w: World, mode: string, c: Cursor)
    requires c.reply + 2 <= |w.replies|
    ensures var port := CT.PasvPort(Some(w.replies[c.reply]));
      Reconnect(w, mode, c).Stop? <==>
        !Linked(w, c.linked) || (Passive(mode) && (port.None? || !CT.SocketPort(port.value)))
    ensures Reconnect(w, mode, c).Stop? ==>
      Reconnect(w, mode, c).session == Session(c.events + [Sent(mode), Received], Crashed)
    ensures var port := CT.PasvPort(Some(w.replies[c.reply]));
      Passive(mode) && port.Some? && CT.SocketPort(port.value) && Linked(w, c.linked) ==>
      Reconnect(w, mode, c) == Continue(c.(reply := c.reply + 2, linked := c.linked + 1, events := c.events +
        [Sent(mode), Received, PassiveConnect(port.value), Received]))
    ensures !Passive(mode) && Linked(w, c.linked) ==>
      Reconnect(w, mode, c) == Continue(c.(reply := c.reply + 1, linked := c.linked + 1,
        events := c.events + [Sent(mode), Received, Accepted]))
  {
  }

  /**
   * A PASV reply announcing `x,y` with `x * 256 + y` of 65536 or more, such as
   * `227 (0,0,0,0,256,0)`, gives a port `new Socket` refuses: the client crashes whether or not a
   * connection could have been made.
   */
  lemma PortAboveRangeCrashes(w: World, mode: string, c: Cursor, prefix: string, lead: string, x: nat, y: nat, tail: string)
    requires Passive(mode) && c.reply < |w.replies|
    requires 0x1_0000 <= x * 256 + y <= IntMax
    requires forall k | 0 <= k < |lead| :: lead[k] > ' '
    requires forall k | 0 <= k < |tail| :: tail[k] > ' ' && tail[k] != ','
    requires w.replies[c.reply] == CT.PasvReply(prefix, lead, DecimalString(x), DecimalString(y), tail)
    ensures Reconnect(w, mode, c) == Stop(Session(c.events + [Sent(mode), Received], Crashed))
  {
    CT.PasvNumbersRead(prefix, lead, x, y, tail);
  }

  /** A passive reply that ends in the numerals of a port makes the client connect to that port. */
  lemma PassiveConnectsToAnnouncedPort(w: World, mode: string, c: Cursor, prefix: string, lead: string, port: nat, tail: string)
    requires Passive(mode) && c.reply + 2 <= |w.replies| && port < 0x1_0000 && Linked(w, c.linked)
    requires forall k | 0 <= k < |lead| :: lead[k] > ' '
    requires forall k | 0 <= k < |tail| :: tail[k] > ' ' && tail[k] != ','
    requires w.replies[c.reply] == CT.PasvReply(prefix, lead, CT.HighNumeral(port), CT.LowNumeral(port), tail)
    ensures Reconnect(w, mode, c).Continue?
    ensures PassiveConnect(port) in Reconnect(w, mode, c).next.events
  {
    CT.PasvPortRoundTrip(prefix, lead, port, tail);
    PassiveConnectsTo(w, mode, c, port);
  }

  /**
   * A passive reply from which a port `Socket` takes is read makes the client connect to that
   * port, when the connect succeeds.
   */
  lemma PassiveConnectsTo(w: World, mode: string, c: Cursor, port: nat)
    requires Passive(mode) && c.reply + 2 <= |w.replies| && port < 0x1_0000 && Linked(w, c.linked)
    requires CT.PasvPort(Some(w.replies[c.reply])) == Some(port)
    ensures Reconnect(w, mode, c).Continue?
    ensures PassiveConnect(port) in Reconnect(w, mode, c).next.events
  {
    ModeNegotiation(w, mode, c);
    var e := c.events + [Sent(mode), Received, PassiveConnect(port), Received];
    assert e[|c.events| + 2] == PassiveConnect(port);
  }

  /**
   * Each round first sends the command read from the keyboard and reads one reply; nothing else
   * happens before that reply is looked at.
   */
  lemma RoundSendsThenReads(w: World, mode: string, c: Cursor)
    requires CC.InputCommandFrom(w.console, c.console).Read?
    ensures c.events + [Sent(CC.InputCommandFrom(w.console, c.console).Wire()), Received] <= EventsOf(Round(w, mode, c))
  {
  }

  /** When the server has stopped answering, the round closes both connections and the session ends. */
  lemma ServerGoneEndsSession(w: World, mode: string, c: Cursor)
    requires c.reply >= |w.replies|
    ensures Round(w, mode, c).Stop?
    ensures var read := CC.InputCommandFrom(w.console, c.console);
      read.Read? ==> (Round(w, mode, c).session ==
        Session(c.events + [Sent(read.Wire()), Received, ClosedData, ClosedControl, ClosedData], Finished))
  {
  }

  /** QUIT ends the session whatever the server answers: both connections are closed, the data one twice. */
  lemma QuitEndsSession(w: World, mode: string, c: Cursor)
    requires c.reply < |w.replies|
    requires CC.InputCommandFrom(w.console, c.console) == CC.Read("QUIT", None, c.console + 1)
    ensures Round(w, mode, c) == Stop(Session(c.events + [Sent(CC.Quit), Received, ClosedControl, ClosedData, ClosedData], Finished))
  {
    ST.ReplyIgnored(CC.CRLF, w.replies[c.reply], w.replies[c.reply]);
    assert CC.Line("QUIT", None) == "QUIT" + CC.CRLF;
  }

  /**
   * LIST, RETR and STOR that went ahead read one more reply after the data transfer, and a rename
   * sends RNTO and reads its reply; the other outcomes do nothing before the mode is sent again.
   */
  lemma TransferReadsOneReply(w: World, status: ST.Status, c: Cursor)
    requires c.reply < |w.replies|
    ensures status in {ST.List, ST.Down, ST.Up, ST.Move} && Transfer(w, status, c).Continue? ==>
      var e := Transfer(w, status, c).next.events;
      Transfer(w, status, c).next.reply == c.reply + 1 && |e| == |c.events| + 2 && e[|e| - 1] == Received
    ensures status == ST.Move ==> (Transfer(w, status, c).Continue? &&
      StartsWith(Transfer(w, status, c).next.events[|c.events|].line, "RNTO"))
    ensures status !in {ST.List, ST.Down, ST.Up, ST.Move} ==> Transfer(w, status, c) == Continue(c)
  {
    if status == ST.Move {
      var (name, _) := CC.ReadLine(w.console, c.console);
      ST.Leading("RNTO", " " + Shown(name) + CC.CRLF);
      assert CC.RenameTo(name) == "RNTO" + (" " + Shown(name) + CC.CRLF);
    }
  }

  /**
   * RETR that went ahead goes on exactly when the data arrives whole, a name is read from the
   * keyboard and `new FileOutputStream` opens it; otherwise the session crashes. The bytes then
   * become the local file of that name, which a later `put` of the name finds without asking for
   * another.
   */
  lemma DownloadStored(w: World, c: Cursor, later: nat)
    ensures var name := CC.ReadLine(w.console, c.console).0;
      Transfer(w, ST.Down, c).Continue? <==>
        && CT.DownloadFile(Nth(w.downloads, c.downloaded)).Downloaded?
        && name.Some? && Storable(c.files, w.unwritable, name.value)
    ensures Transfer(w, ST.Down, c).Stop? ==> Transfer(w, ST.Down, c).session == Session(c.events, Crashed)
    ensures Transfer(w, ST.Down, c).Continue? ==>
      var name := CC.ReadLine(w.console, c.console).0;
      var data := CT.DownloadFile(Nth(w.downloads, c.downloaded)).data;
      && Transfer(w, ST.Down, c).next.files == c.files[name.value := File(data)]
      && DataFile(Transfer(w, ST.Down, c).next.files, w.console, name, later) == Some((data, later))
  {
  }

  /**
   * Every round that does not end the session sends the same mode line again and sets up a new
   * data connection: its events end with the mode line, its reply, and the connection.
   */
  lemma ModeResentEachRound(w: World, mode: string, c: Cursor)
    requires Round(w, mode, c).Continue?
    ensures var e := Round(w, mode, c).next.events;
      if Passive(mode) then
        |e| >= 4 && e[|e| - 4] == Sent(mode) && e[|e| - 3] == Received && e[|e| - 2].PassiveConnect? && e[|e| - 1] == Received
      else
        |e| >= 3 && e[|e| - 3] == Sent(mode) && e[|e| - 2] == Received && e[|e| - 1] == Accepted
  {
    var read := CC.InputCommandFrom(w.console, c.console);
    var (rcv, next) := CC.ReadLine(w.replies, c.reply);
    var c1 := c.(console := read.next, reply := next, events := c.events + [Sent(read.Wire()), Received]);
    assert Round(w, mode, c) == Act(w, mode, c1, read.Wire(), rcv);
    ActSendsMode(w, mode, c1, read.Wire(), rcv);
  }

  /** The events a round that goes on ends with: the mode line, its reply and the data connection. */
  predicate EndsWithMode(mode: string, e: seq<Event>)
  {
    if Passive(mode) then
      |e| >= 4 && e[|e| - 4] == Sent(mode) && e[|e| - 3] == Received && e[|e| - 2].PassiveConnect? && e[|e| - 1] == Received
    else
      |e| >= 3 && e[|e| - 3] == Sent(mode) && e[|e| - 2] == Received && e[|e| - 1] == Accepted
  }

  /** A command whose round goes on is followed by the mode line. */
  lemma ActSendsMode(w: World, mode: string, c: Cursor, command: string, rcv: Option<string>)
    requires Act(w, mode, c, command, rcv).Continue?
    ensures EndsWithMode(mode, Act(w, mode, c, command, rcv).next.events)
  {
    var status := ST.InterpretStatusCode(command, rcv).value;
    var c2 := Transfer(w, status, c).next;
    assert Act(w, mode, c, command, rcv) == Reconnect(w, mode, c2);
    ReconnectSendsMode(w, mode, c2);
  }

  /** Setting up the data connection ends with the mode line, its reply and the connection. */
  lemma ReconnectSendsMode(w: World, mode: string, c: Cursor)
    requires Reconnect(w, mode, c).Continue?
    ensures EndsWithMode(mode, Reconnect(w, mode, c).next.events)
  {
  }
}
