/**
 * The lines the client sends (FTPclient/src/r0p3/Command.java). The keyboard is a sequence of
 * lines read from a position; reading past its end gives Java's null.
 */
module ClientCommand {
  import opened Wrappers
  import opened JvmText

  const CRLF := "\r\n"

  /** A wire template `"<keyword> %s\r\n"` filled in. */
  function WithArgument(keyword: string, arg: string): (r: string)
    ensures |r| == |keyword| + |arg| + 3
    ensures r[..|keyword|] == keyword && r[|keyword|] == ' '
    ensures r[|keyword| + 1..|r| - 2] == arg && r[|r| - 2..] == CRLF
  {
    keyword + " " + arg + CRLF
  }

  /** The lines without an argument. */
  const Pasive := "PASV" + CRLF
  const Ls := "LIST" + CRLF
  const Pwd := "PWD" + CRLF
  const Quit := "QUIT" + CRLF

  /** The line at `pos` and the position after it; at the end, null and the same position. */
  function ReadLine(console: seq<string>, pos: nat): (r: (Option<string>, nat))
    ensures r.0.Some? <==> pos < |console|
    ensures r.0.Some? ==> r.0.value == console[pos] && r.1 == pos + 1
    ensures r.0.None? ==> r.1 == pos
  {
    if pos < |console| then (Some(console[pos]), pos + 1) else (None, pos)
  }

  /**
   * `selectMode`: "P" or "p" asks for passive mode, anything else announces the client's own
   * port; a null line throws on `equals` (None).
   */
  function SelectMode(input: Option<string>, portNumber: string): (r: Option<string>)
    ensures r.None? <==> input.None?
    ensures r.Some? ==> (r.value == Pasive <==> input.value in {"P", "p"})
    ensures r.Some? && r.value != Pasive ==> r.value == WithArgument("PORT", portNumber)
  {
    match input
    case None => None
    case Some(line) =>
      if line == "P" || line == "p" then Some(Pasive) else Some(WithArgument("PORT", portNumber))
  }

  /** `inputUserName`: the line read, null included, after `USER`. */
  function InputUserName(input: Option<string>): (r: string)
    ensures |r| == |Shown(input)| + 7 && r[..5] == "USER " && r[5..|r| - 2] == Shown(input) && r[|r| - 2..] == CRLF
  {
    WithArgument("USER", Shown(input))
  }

  /** `inputPasswd`: the line read, null included, after `PASS`. */
  function InputPasswd(input: Option<string>): (r: string)
    ensures |r| == |Shown(input)| + 7 && r[..5] == "PASS " && r[5..|r| - 2] == Shown(input) && r[|r| - 2..] == CRLF
  {
    WithArgument("PASS", Shown(input))
  }

  /** `renameTo`: the new name after `RNTO`. */
  function RenameTo(name: Option<string>): (r: string)
    ensures |r| == |Shown(name)| + 7 && r[..5] == "RNTO " && r[5..|r| - 2] == Shown(name) && r[|r| - 2..] == CRLF
  {
    WithArgument("RNTO", Shown(name))
  }

  /** A command line: a keyword alone, or a keyword and its argument. */
  function Line(keyword: string, arg: Option<string>): (r: string)
    ensures StartsWith(r, keyword) && |r| >= 2 && r[|r| - 2..] == CRLF
  {
    match arg
    case None => keyword + CRLF
    case Some(a) => WithArgument(keyword, a)
  }

  /** What one keyboard line leads to: ask again, send a line, or read a name and send it after a keyword. */
  datatype Step = Reprompt | Send(keyword: string, arg: Option<string>) | AskName(keyword: string)

  /** cd, delete, "ls x", mkdir and rmdir need exactly two space-separated tokens. */
  function TwoTokens(line: string, keyword: string): Step
  {
    var c := JavaSplit(line, ' ');
    if |c| == 2 then Send(keyword, Some(c[1])) else Reprompt
  }

  /** The branch of `inputCommand` a line takes: the first test it passes, in the order they are written. */
  function Decide(line: string): Step
  {
    if line == "?" then Reprompt
    else if StartsWith(line, "cd") then TwoTokens(line, "CWD")
    else if StartsWith(line, "delete") then TwoTokens(line, "DELE")
    else if StartsWith(line, "get") then AskName("RETR")
    else if line == "ls" then Send("LIST", None)
    else if StartsWith(line, "ls") then TwoTokens(line, "LIST")
    else if StartsWith(line, "mkdir") then TwoTokens(line, "MKD")
    else if StartsWith(line, "put") then AskName("STOR")
    else if line == "pwd" then Send("PWD", None)
    else if line == "quit" then Send("QUIT", None)
    else if StartsWith(line, "rmdir") then TwoTokens(line, "RMD")
    else if StartsWith(line, "mv") then AskName("RNFR")
    else Reprompt
  }

  /**
   * What `inputCommand` returns: a command and the position after what it read, or the null line
   * that makes `equals` throw.
   */
  datatype CommandRead = Read(keyword: string, arg: Option<string>, next: nat) | EndOfInput
  {
    /** The line sent to the server. */
    function Wire(): string
      requires Read?
    {
      Line(keyword, arg)
    }
  }

  /** `inputCommand` from `pos`: lines are read until one gives a command. */
  function InputCommandFrom(console: seq<string>, pos: nat): CommandRead
    decreases |console| - pos
  {
    if pos >= |console| then EndOfInput
    else
      match Decide(console[pos])
      case Reprompt => InputCommandFrom(console, pos + 1)
      case Send(keyword, arg) => Read(keyword, arg, pos + 1)
      case AskName(keyword) =>
        var (name, next) := ReadLine(console, pos + 1);
        Read(keyword, Some(Shown(name)), next)
  }

  /** `inputCommand`: the prompt loop. */
  method InputCommand(console: seq<string>, start: nat) returns (r: CommandRead)
    ensures r == InputCommandFrom(console, start)
  {
    var pos := start;
    while true
      invariant InputCommandFrom(console, pos) == InputCommandFrom(console, start)
      decreases |console| - pos
    {
      if pos >= |console| {
        return EndOfInput;
      }
      var step := Decide(console[pos]);
      match step {
        case Reprompt =>
          pos := pos + 1;
        case Send(keyword, arg) =>
          return Read(keyword, arg, pos + 1);
        case AskName(keyword) =>
          var (name, next) := ReadLine(console, pos + 1);
          return Read(keyword, Some(Shown(name)), next);
      }
    }
  }

  /** The keywords `inputCommand` sends: PWD and QUIT alone, LIST alone or with a path, the rest with an argument. */
  predicate IsClientCommand(keyword: string, arg: Option<string>)
  {
    if arg.None? then keyword in {"LIST", "PWD", "QUIT"}
    else keyword in {"CWD", "DELE", "RETR", "LIST", "MKD", "STOR", "RMD", "RNFR"}
  }

  /** Every command a keyboard line gives is one of the client's commands. */
  lemma DecideShape(line: string)
    ensures Decide(line).Send? ==> IsClientCommand(Decide(line).keyword, Decide(line).arg)
    ensures Decide(line).AskName? ==> Decide(line).keyword in {"RETR", "STOR", "RNFR"}
  {
  }

  /** The command `inputCommand` returns is one of the client's commands, read at or after `pos`. */
  lemma {:induction false} InputCommandShape(console: seq<string>, pos: nat)
    ensures InputCommandFrom(console, pos).Read? ==>
      && IsClientCommand(InputCommandFrom(console, pos).keyword, InputCommandFrom(console, pos).arg)
      && pos < InputCommandFrom(console, pos).next <= |console|
    decreases |console| - pos
  {
    if pos < |console| {
      DecideShape(console[pos]);
      if Decide(console[pos]).Reprompt? {
        InputCommandShape(console, pos + 1);
      }
    }
  }

  /** The command comes from the first line that is not refused; the refused lines before it are skipped. */
  lemma {:induction false} FirstAccepted(console: seq<string>, pos: nat, j: nat)
    requires pos <= j < |console|
    requires forall k | pos <= k < j :: Decide(console[k]) == Reprompt
    requires Decide(console[j]) != Reprompt
    ensures InputCommandFrom(console, pos) == InputCommandFrom(console, j)
    ensures InputCommandFrom(console, pos).Read?
    decreases j - pos
  {
    if pos < j {
      FirstAccepted(console, pos + 1, j);
    }
  }

  /** The loop only gives up, with a null line, when every line left is refused. */
  lemma {:induction false} EndOfInputExactly(console: seq<string>, pos: nat)
    ensures InputCommandFrom(console, pos) == EndOfInput <==>
      forall k | pos <= k < |console| :: Decide(console[k]) == Reprompt
    decreases |console| - pos
  {
    if pos < |console| {
      EndOfInputExactly(console, pos + 1);
    }
  }

  /** "?" is answered with help and asks again. */
  lemma HelpReprompts()
    ensures Decide("?") == Reprompt
  {
  }

  /** cd needs exactly two tokens after splitting on spaces, and sends the second. */
  lemma ChangeDirectoryTokens(line: string)
    requires StartsWith(line, "cd")
    ensures Decide(line) == TwoTokens(line, "CWD")
    ensures Decide(line).Send? <==> |JavaSplit(line, ' ')| == 2
    ensures Decide(line).Send? ==> Decide(line).arg == Some(JavaSplit(line, ' ')[1])
  {
    assert line[0] == 'c';
  }

  /** delete needs exactly two tokens, and sends the second after DELE. */
  lemma DeleteTokens(line: string)
    requires StartsWith(line, "delete")
    ensures Decide(line) == TwoTokens(line, "DELE")
    ensures Decide(line).Send? <==> |JavaSplit(line, ' ')| == 2
  {
    assert line[0] == 'd' && line[1] == 'e';
  }

  /** `ls` alone lists the current directory; `ls` followed by more needs exactly two tokens. */
  lemma ListTokens(line: string)
    requires StartsWith(line, "ls")
    ensures line == "ls" ==> Decide(line) == Send("LIST", None)
    ensures line != "ls" ==> Decide(line) == TwoTokens(line, "LIST")
  {
    assert line[0] == 'l' && line[1] == 's';
  }

  /** mkdir needs exactly two tokens, and sends the second after MKD. */
  lemma MakeDirectoryTokens(line: string)
    requires StartsWith(line, "mkdir")
    ensures Decide(line) == TwoTokens(line, "MKD")
  {
    assert line[0] == 'm' && line[1] == 'k';
  }

  /** rmdir needs exactly two tokens, and sends the second after RMD. */
  lemma RemoveDirectoryTokens(line: string)
    requires StartsWith(line, "rmdir")
    ensures Decide(line) == TwoTokens(line, "RMD")
  {
    assert line[0] == 'r' && line[1] == 'm';
  }

  /** get and put read the remote name from the next line; mv reads the current name. */
  lemma NameFromNextLine(line: string)
    ensures StartsWith(line, "get") ==> Decide(line) == AskName("RETR")
    ensures StartsWith(line, "put") ==> Decide(line) == AskName("STOR")
    ensures StartsWith(line, "mv") ==> Decide(line) == AskName("RNFR")
  {
    if StartsWith(line, "get") {
      assert line[0] == 'g';
    } else if StartsWith(line, "put") {
      assert line[0] == 'p' && line[1] == 'u';
    } else if StartsWith(line, "mv") {
      assert line[0] == 'm' && line[1] == 'v';
    }
  }

  /** PWD, QUIT and the bare LIST are sent for exactly the words pwd, quit and ls. */
  lemma ExactWords(line: string)
    ensures Decide(line) == Send("PWD", None) <==> line == "pwd"
    ensures Decide(line) == Send("QUIT", None) <==> line == "quit"
    ensures Decide(line) == Send("LIST", None) <==> line == "ls"
  {
    if line == "pwd" {
      assert line[0] == 'p' && line[1] == 'w';
    } else if line == "quit" {
      assert line[0] == 'q';
    } else if line == "ls" {
      assert line[0] == 'l' && line[1] == 's';
    }
  }

  /** The first matching test wins: "cdx y" starts with "cd", so it changes directory to "y". */
  lemma FirstMatchWins()
    ensures Decide("cdx y") == Send("CWD", Some("y"))
  {
    var line := "cdx y";
    assert line[0] == 'c' && line[1] == 'd';
    assert JoinWith(["cdx", "y"], ' ') == line;
    JoinSplit(["cdx", "y"], ' ');
  }
}
