/**
 * How the client reads a reply (FTPclient/src/r0p3/StatusCode.java): the command it sent and the
 * first digits of the reply decide what the session does next.
 */
module ClientStatus {
  import opened Wrappers
  import opened JvmText

  /** The status constants, with the values the client gives them. */
  datatype Status = NoStatus | Error | Okay | Exit | Down | Up | List | Move
  {
    function Value(): int
    {
      match this
      case NoStatus => -1
      case Error => 0
      case Okay => 1
      case Exit => 2
      case Down => 3
      case Up => 4
      case List => 5
      case Move => 6
    }
  }

  /** Whether the classifier has a branch for `command`, and so looks at the reply. */
  predicate HasBranch(command: string)
  {
    || StartsWith(command, "USER") || StartsWith(command, "PASS") || StartsWith(command, "LIST")
    || StartsWith(command, "RETR") || StartsWith(command, "STOR") || StartsWith(command, "QUIT")
    || StartsWith(command, "PWD") || StartsWith(command, "CWD") || StartsWith(command, "MKD")
    || StartsWith(command, "RMD") || StartsWith(command, "DELE") || StartsWith(command, "RNFR")
  }

  /** The status a branch gives when the reply starts with `expected`, and otherwise. */
  function ByReply(response: string, expected: string, hit: Status, miss: Status): Status
  {
    if StartsWith(response, expected) then hit else miss
  }

  /**
   * `interpretStatusCode`: the first keyword `command` starts with picks the reply prefix that
   * means success. A null reply reaches `response.startsWith` in every branch and throws (None).
   */
  function InterpretStatusCode(command: string, response: Option<string>): (r: Option<Status>)
    ensures r.None? <==> response.None? && HasBranch(command)
    ensures r.Some? && r.value != NoStatus ==> HasBranch(command)
  {
    if StartsWith(command, "USER") then
      if response.None? then None else Some(ByReply(response.value, "331", Okay, Okay))
    else if StartsWith(command, "PASS") then
      if response.None? then None else Some(ByReply(response.value, "230", Okay, Error))
    else if StartsWith(command, "LIST") then
      if response.None? then None else Some(ByReply(response.value, "150", List, Error))
    else if StartsWith(command, "RETR") then
      if response.None? then None else Some(ByReply(response.value, "150", Down, Error))
    else if StartsWith(command, "STOR") then
      if response.None? then None else Some(ByReply(response.value, "150", Up, Error))
    else if StartsWith(command, "QUIT") then
      if response.None? then None else Some(ByReply(response.value, "225", Exit, Exit))
    else if StartsWith(command, "PWD") then
      if response.None? then None else Some(ByReply(response.value, "257", Okay, Okay))
    else if StartsWith(command, "CWD") then
      if response.None? then None else Some(ByReply(response.value, "257", Okay, Error))
    else if StartsWith(command, "MKD") then
      if response.None? then None else Some(ByReply(response.value, "257", Okay, Error))
    else if StartsWith(command, "RMD") then
      if response.None? then None else Some(ByReply(response.value, "250", Okay, Error))
    else if StartsWith(command, "DELE") then
      if response.None? then None else Some(ByReply(response.value, "250", Okay, Error))
    else if StartsWith(command, "RNFR") then
      if response.None? then None else Some(ByReply(response.value, "350", Move, Error))
    else
      Some(NoStatus)
  }

  /** `interpretList` and `interpretFile`: a transfer went well when its closing reply starts with 226. */
  function InterpretTransfer(line: string): (r: Status)
    ensures r == Okay <==> StartsWith(line, "226")
    ensures r == Okay || r == Error
  {
    if StartsWith(line, "226") then Okay else Error
  }

  /** USER, QUIT and PWD are classified the same whatever the reply says. */
  lemma ReplyIgnored(name: string, r1: string, r2: string)
    ensures InterpretStatusCode("USER " + name, Some(r1)) == InterpretStatusCode("USER " + name, Some(r2)) == Some(Okay)
    ensures InterpretStatusCode("QUIT" + name, Some(r1)) == InterpretStatusCode("QUIT" + name, Some(r2)) == Some(Exit)
    ensures InterpretStatusCode("PWD" + name, Some(r1)) == InterpretStatusCode("PWD" + name, Some(r2)) == Some(Okay)
  {
    Leading("USER ", name);
    Leading("QUIT", name);
    Differs("QUIT" + name, "USER", 0);
    Differs("QUIT" + name, "PASS", 0);
    Differs("QUIT" + name, "LIST", 0);
    Differs("QUIT" + name, "RETR", 0);
    Differs("QUIT" + name, "STOR", 0);
    Leading("PWD", name);
    Differs("PWD" + name, "USER", 0);
    Differs("PWD" + name, "PASS", 1);
    Differs("PWD" + name, "LIST", 0);
    Differs("PWD" + name, "RETR", 0);
    Differs("PWD" + name, "STOR", 0);
    Differs("PWD" + name, "QUIT", 0);
  }

  /** A PASS is accepted exactly when the reply starts with 230, otherwise it is an error. */
  lemma PasswordOutcome(password: string, reply: string)
    ensures InterpretStatusCode("PASS " + password, Some(reply)) ==
      Some(if StartsWith(reply, "230") then Okay else Error)
  {
    Leading("PASS ", password);
    Differs("PASS " + password, "USER", 0);
  }

  /** LIST, RETR and STOR start a transfer exactly on a 150 reply, and are errors otherwise. */
  lemma TransferOutcome(arg: string, reply: string)
    ensures InterpretStatusCode("LIST" + arg, Some(reply)) == Some(if StartsWith(reply, "150") then List else Error)
    ensures InterpretStatusCode("RETR" + arg, Some(reply)) == Some(if StartsWith(reply, "150") then Down else Error)
    ensures InterpretStatusCode("STOR" + arg, Some(reply)) == Some(if StartsWith(reply, "150") then Up else Error)
  {
    Leading("LIST", arg);
    Differs("LIST" + arg, "USER", 0);
    Differs("LIST" + arg, "PASS", 0);
    Leading("RETR", arg);
    Differs("RETR" + arg, "USER", 0);
    Differs("RETR" + arg, "PASS", 0);
    Differs("RETR" + arg, "LIST", 0);
    Leading("STOR", arg);
    Differs("STOR" + arg, "USER", 0);
    Differs("STOR" + arg, "PASS", 0);
    Differs("STOR" + arg, "LIST", 0);
    Differs("STOR" + arg, "RETR", 0);
  }

  /** CWD and MKD succeed on 257 and RMD on 250; anything else is an error. */
  lemma DirectoryOutcome(arg: string, reply: string)
    ensures InterpretStatusCode("CWD" + arg, Some(reply)) == Some(if StartsWith(reply, "257") then Okay else Error)
    ensures InterpretStatusCode("MKD" + arg, Some(reply)) == Some(if StartsWith(reply, "257") then Okay else Error)
    ensures InterpretStatusCode("RMD" + arg, Some(reply)) == Some(if StartsWith(reply, "250") then Okay else Error)
  {
    Leading("CWD", arg);
    Differs("CWD" + arg, "USER", 0);
    Differs("CWD" + arg, "PASS", 0);
    Differs("CWD" + arg, "LIST", 0);
    Differs("CWD" + arg, "RETR", 0);
    Differs("CWD" + arg, "STOR", 0);
    Differs("CWD" + arg, "QUIT", 0);
    Differs("CWD" + arg, "PWD", 0);
    Leading("MKD", arg);
    Differs("MKD" + arg, "USER", 0);
    Differs("MKD" + arg, "PASS", 0);
    Differs("MKD" + arg, "LIST", 0);
    Differs("MKD" + arg, "RETR", 0);
    Differs("MKD" + arg, "STOR", 0);
    Differs("MKD" + arg, "QUIT", 0);
    Differs("MKD" + arg, "PWD", 0);
    Differs("MKD" + arg, "CWD", 0);
    Leading("RMD", arg);
    Differs("RMD" + arg, "USER", 0);
    Differs("RMD" + arg, "PASS", 0);
    Differs("RMD" + arg, "LIST", 0);
    Differs("RMD" + arg, "RETR", 1);
    Differs("RMD" + arg, "STOR", 0);
    Differs("RMD" + arg, "QUIT", 0);
    Differs("RMD" + arg, "PWD", 0);
    Differs("RMD" + arg, "CWD", 0);
    Differs("RMD" + arg, "MKD", 0);
  }

  /** DELE succeeds on 250, and RNFR moves on to RNTO on 350; anything else is an error. */
  lemma FileOutcome(arg: string, reply: string)
    ensures InterpretStatusCode("DELE" + arg, Some(reply)) == Some(if StartsWith(reply, "250") then Okay else Error)
    ensures InterpretStatusCode("RNFR" + arg, Some(reply)) == Some(if StartsWith(reply, "350") then Move else Error)
  {
    Leading("DELE", arg);
    Differs("DELE" + arg, "USER", 0);
    Differs("DELE" + arg, "PASS", 0);
    Differs("DELE" + arg, "LIST", 0);
    Differs("DELE" + arg, "RETR", 0);
    Differs("DELE" + arg, "STOR", 0);
    Differs("DELE" + arg, "QUIT", 0);
    Differs("DELE" + arg, "PWD", 0);
    Differs("DELE" + arg, "CWD", 0);
    Differs("DELE" + arg, "MKD", 0);
    Differs("DELE" + arg, "RMD", 0);
    Leading("RNFR", arg);
    Differs("RNFR" + arg, "USER", 0);
    Differs("RNFR" + arg, "PASS", 0);
    Differs("RNFR" + arg, "LIST", 0);
    Differs("RNFR" + arg, "RETR", 1);
    Differs("RNFR" + arg, "STOR", 0);
    Differs("RNFR" + arg, "QUIT", 0);
    Differs("RNFR" + arg, "PWD", 0);
    Differs("RNFR" + arg, "CWD", 0);
    Differs("RNFR" + arg, "MKD", 0);
    Differs("RNFR" + arg, "RMD", 1);
    Differs("RNFR" + arg, "DELE", 0);
  }

  /** RNTO, PORT and PASV have no branch: they are never classified, whatever the reply. */
  lemma Unclassified(arg: string, reply: Option<string>)
    ensures InterpretStatusCode("RNTO" + arg, reply) == Some(NoStatus)
    ensures InterpretStatusCode("PORT" + arg, reply) == Some(NoStatus)
    ensures InterpretStatusCode("PASV" + arg, reply) == Some(NoStatus)
  {
    Leading("RNTO", arg);
    Differs("RNTO" + arg, "USER", 0);
    Differs("RNTO" + arg, "PASS", 0);
    Differs("RNTO" + arg, "LIST", 0);
    Differs("RNTO" + arg, "RETR", 1);
    Differs("RNTO" + arg, "STOR", 0);
    Differs("RNTO" + arg, "QUIT", 0);
    Differs("RNTO" + arg, "PWD", 0);
    Differs("RNTO" + arg, "CWD", 0);
    Differs("RNTO" + arg, "MKD", 0);
    Differs("RNTO" + arg, "RMD", 1);
    Differs("RNTO" + arg, "DELE", 0);
    Differs("RNTO" + arg, "RNFR", 2);
    Leading("PORT", arg);
    Differs("PORT" + arg, "USER", 0);
    Differs("PORT" + arg, "PASS", 1);
    Differs("PORT" + arg, "LIST", 0);
    Differs("PORT" + arg, "RETR", 0);
    Differs("PORT" + arg, "STOR", 0);
    Differs("PORT" + arg, "QUIT", 0);
    Differs("PORT" + arg, "PWD", 1);
    Differs("PORT" + arg, "CWD", 0);
    Differs("PORT" + arg, "MKD", 0);
    Differs("PORT" + arg, "RMD", 0);
    Differs("PORT" + arg, "DELE", 0);
    Differs("PORT" + arg, "RNFR", 0);
    Leading("PASV", arg);
    Differs("PASV" + arg, "USER", 0);
    Differs("PASV" + arg, "PASS", 3);
    Differs("PASV" + arg, "LIST", 0);
    Differs("PASV" + arg, "RETR", 0);
    Differs("PASV" + arg, "STOR", 0);
    Differs("PASV" + arg, "QUIT", 0);
    Differs("PASV" + arg, "PWD", 1);
    Differs("PASV" + arg, "CWD", 0);
    Differs("PASV" + arg, "MKD", 0);
    Differs("PASV" + arg, "RMD", 0);
    Differs("PASV" + arg, "DELE", 0);
    Differs("PASV" + arg, "RNFR", 0);
  }

  /** A text that differs from `p` at one of `p`'s positions does not start with `p`. */
  lemma Differs(s: string, p: string, i: nat)
    requires i < |p| && i < |s| && s[i] != p[i]
    ensures !StartsWith(s, p)
  {
  }

  /** The characters of a text that starts with `w` are those of `w`, as far as `w` goes. */
  lemma Leading(w: string, rest: string)
    ensures forall i | 0 <= i < |w| :: (w + rest)[i] == w[i]
  {
  }

  /** The first `n` characters, or all of them when there are fewer. */
  function Head(s: string, n: nat): string
  {
    if |s| <= n then s else s[..n]
  }

  /** Only the first four characters of the command and the first three of the reply matter. */
  lemma DependsOnPrefixes(c1: string, c2: string, r1: string, r2: string)
    requires Head(c1, 4) == Head(c2, 4) && Head(r1, 3) == Head(r2, 3)
    ensures InterpretStatusCode(c1, Some(r1)) == InterpretStatusCode(c2, Some(r2))
  {
    SameStart(c1, c2, 4, "USER");
    SameStart(c1, c2, 4, "PASS");
    SameStart(c1, c2, 4, "LIST");
    SameStart(c1, c2, 4, "RETR");
    SameStart(c1, c2, 4, "STOR");
    SameStart(c1, c2, 4, "QUIT");
    SameStart(c1, c2, 4, "PWD");
    SameStart(c1, c2, 4, "CWD");
    SameStart(c1, c2, 4, "MKD");
    SameStart(c1, c2, 4, "RMD");
    SameStart(c1, c2, 4, "DELE");
    SameStart(c1, c2, 4, "RNFR");
    SameStart(r1, r2, 3, "331");
    SameStart(r1, r2, 3, "230");
    SameStart(r1, r2, 3, "150");
    SameStart(r1, r2, 3, "225");
    SameStart(r1, r2, 3, "257");
    SameStart(r1, r2, 3, "250");
    SameStart(r1, r2, 3, "350");
  }

  /** Texts with the same first `n` characters agree on starting with a word of up to `n` characters. */
  lemma SameStart(s1: string, s2: string, n: nat, p: string)
    requires Head(s1, n) == Head(s2, n) && |p| <= n
    ensures StartsWith(s1, p) == StartsWith(s2, p)
  {
    if |s1| > n && |s2| > n {
      assert forall i | 0 <= i < |p| :: s1[i] == Head(s1, n)[i] && s2[i] == Head(s2, n)[i];
    }
  }
}
