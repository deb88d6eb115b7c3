# A verified model of a small FTP client and server

The repository holds an interactive FTP client in Java, two snapshots of a Rust FTP server
(`ftp_server/` and the earlier `FTPserver/rust_server/ftp_server/`), a user repository crate
(`user_manage/`) and a Kotlin connection form. This project models in Dafny the parts with
protocol meaning:

- **Server command parsing** (`ServerCommand`, `LegacyCommand`, `CommandFields`): the
  byte-level parser of CR LF terminated control lines (section 5.3 of RFC 959), including the
  bounded decimal reader `ascii_to_u8` and the six-field `PORT h1,h2,h3,h4,p1,p2` walk
  (section 4.1.2 of RFC 959). The index arithmetic of the field walk is modelled exactly, so a
  `PORT` line with three or fewer commas surfaces as the slice panic it is (`OutOfBounds`).
- **Reply codes and reply lines** (`ReplyCodes`, `LegacyReplyCodes`, `ServerState.CreateResponse`):
  category + group + last digit (section 4.2.1 of RFC 959). `cant_open_data_connection` is 455
  in the source, not the 425 of RFC 959; the model keeps 455.
- **Port pairs** (`PortPair`, `ClientTransfer`): a port split into `p1,p2` and read back, on the
  server side and through the client's PASV reply parser.
- **Server connection state** (`ServerState`, `LegacyServer`): the connection table shared by
  the server and its handlers, the outgoing buffer with its write offset, the id, passive port
  and admission counters.
- **Server handlers** (`ServerHandlerRead`, `ServerHandlerWrite`, `LegacyHandlerRead`,
  `LegacyHandlerWrite`, `LegacyHandlers`): one read or one write of a connection as a step over
  the table. Each handler is a class whose methods change the shared table and are proved equal
  to a pure step function; the properties (replies, links between control and data connections,
  bytes sent in order, control connections never lost) are lemmas about those functions.
  `ServerDispatch` models what the later server's read and write threads do with a handler's
  answer. In the earlier server a finished reply empties its buffer but keeps the offset; the
  model keeps that stale offset and proves that no write starts from it, because every step
  that asks for the connection to become writable again gives it a new buffer first.
- **User repositories** (`UserRepository`, `LegacyUsers`): users keyed by name, uid assignment,
  deletion with a password check, and a chroot-confined `change_dir` over an abstract file
  system (`FsPaths`).
- **Client** (`ClientCommand`, `ClientStatus`, `ClientTransfer`, `ClientSession`): the wire
  lines built from keyboard input, the classification of replies, the data connection's port
  handling and framing, and the session loop of `Main.java` as a state machine over given
  keyboard lines, replies and answers of the operating system (a connect or accept that fails,
  a file that cannot be opened for writing); downloaded files join the local files.
- **Helpers** (`SystemListing`, `ConnectionValidation`): the directory listing and path
  clean-up of the later server, and the IP and port checks of the Kotlin form.

Shared substrates: `Wrappers` (Option), `Ascii` (bytes and decimal numerals), `Utf8` (what
`String::from_utf8` accepts, section 3 of RFC 3629), `JvmText` (the Java and Kotlin string
functions the client uses) and `FsPaths` (`std::path` pushes, `starts_with` and `canonicalize`).

Where the prose description of the system and the code differ, the model follows the code:
the client frames uploads and downloads with a four-byte length (`writeInt`/`readInt`), not by
closing the connection; the client takes only the port from a PASV reply and keeps the address
it was started with; and the client announces `0,0,0,0,p1,p2` for "localhost" while any other
address throws in the constructor.

The two server snapshots do not compile against each other (the later `handler_write.rs`
matches a four-field `CommandTransfer` that the later `mod.rs` declares with three, and the
later `mod.rs` calls `HandlerRead::new` with six arguments where `handler_read.rs` takes three).
Each file's own logic is modelled. The earlier snapshot's `handler_read.rs` and
`handler_write.rs` use `callback_after_sending` and `ROOT`, which only the later `mod.rs`
defines, so they are modelled over the later server's types; `handlers.rs` is modelled over
the earlier `mod.rs` types.

## Model

| member | source | states |
|---|---|---|
| SystemListing.Ls | ftp_server/src/system/mod.rs:3-14 | `ls` is `Listing` of the directory read at the cleaned path: the `read_dir` error is passed up, unreadable items are skipped, a non-UTF-8 path panics, and every other item adds its path and CR LF, in order |
| SystemListing.LinesAppend | ftp_server/src/system/mod.rs:5-12 | the listing of two runs of items is the first's listing followed by the second's |
| SystemListing.LinesEmpty | ftp_server/src/system/mod.rs:5-12 | the listing is empty exactly when no item could be read |
| SystemListing.LinesEndInCrlf | ftp_server/src/system/mod.rs:10-11 | a listing with a readable item ends in CR LF |
| SystemListing.ClearPathUnchanged | ftp_server/src/system/mod.rs:16-20 | a path that does not hold the working directory is left as it is |
| SystemListing.ClearPathFirst | ftp_server/src/system/mod.rs:16-20 | only the first occurrence of the working directory becomes `.`; what follows, later occurrences included, is kept |
| SystemListing.ClearPathOfChild | ftp_server/src/system/mod.rs:16-29 | a path under the working directory comes back relative to it, as the test with `./root/user_01` expects |
| ReplyCodes.NewFromEnums | ftp_server/src/ftp/response.rs:26-28 | the sum of category, group and last digit is a code from 100 up that never leaves `u16` |
| ReplyCodes.NewFromEnumsDigits | ftp_server/src/ftp/response.rs:7-28 | with a last digit up to 9 the code's hundreds digit is the category, its tens digit the group and its units the last digit (section 4.2.1 of RFC 959) |
| ReplyCodes.NewFromEnumsInjective | ftp_server/src/ftp/response.rs:26-28 | with last digits up to 9, two equal codes were built from the same category, group and digit |
| ReplyCodes.ServiceReady | ftp_server/src/ftp/response.rs:30-32 | the greeting is 220 |
| ReplyCodes.SuccessTransferingFile | ftp_server/src/ftp/response.rs:34-36 | the reply is 201 |
| ReplyCodes.SuccessUploadingFile | ftp_server/src/ftp/response.rs:38-40 | the reply is 226 |
| ReplyCodes.ClosingDataConnection | ftp_server/src/ftp/response.rs:42-44 | the reply is 226 |
| ReplyCodes.FileActionNotTaken | ftp_server/src/ftp/response.rs:46-52 | the reply is 553 |
| ReplyCodes.CommandOkay | ftp_server/src/ftp/response.rs:54-56 | the reply is 200 |
| ReplyCodes.BadSequenceOfCommands | ftp_server/src/ftp/response.rs:58-64 | the reply is 503 |
| ReplyCodes.LoginSuccess | ftp_server/src/ftp/response.rs:66-72 | the reply is 230 |
| ReplyCodes.Unauthorized | ftp_server/src/ftp/response.rs:74-80 | the reply is 530 |
| ReplyCodes.UsernameOkay | ftp_server/src/ftp/response.rs:82-88 | the reply is 331 |
| ReplyCodes.PassiveOk | ftp_server/src/ftp/response.rs:90-92 | the reply is 227 |
| ReplyCodes.AllPortsTaken | ftp_server/src/ftp/response.rs:94-100 | the reply is 541 |
| ReplyCodes.ClosingControlConnectionSuccess | ftp_server/src/ftp/response.rs:102-104 | the reply is 221 |
| ReplyCodes.FileUnavailable | ftp_server/src/ftp/response.rs:106-112 | the reply is 550 |
| ReplyCodes.FileBusy | ftp_server/src/ftp/response.rs:114-120 | the reply is 450 |
| ReplyCodes.FileStatusOkay | ftp_server/src/ftp/response.rs:122-124 | the reply is 150 |
| ReplyCodes.FileActionOkay | ftp_server/src/ftp/response.rs:126-128 | the reply is 250 |
| ReplyCodes.FileActionPending | ftp_server/src/ftp/response.rs:130-132 | the reply is 350 |
| ReplyCodes.DirectoryActionOkay | ftp_server/src/ftp/response.rs:134-136 | the reply is 257 |
| ReplyCodes.CantOpenDataConnection | ftp_server/src/ftp/response.rs:138-144 | the reply is 455, built in the file-system group, where section 4.2.2 of RFC 959 gives 425 in the connections group |
| ReplyCodes.TransferClosingCodesAgree | ftp_server/src/ftp/response.rs:38-44 | the upload reply and the data-connection closing reply are the same code |
| LegacyReplyCodes.NewFromEnums | FTPserver/rust_server/ftp_server/src/ftp/response.rs:24-26 | the code is the same sum as the later server's; with a last digit up to 9 its three decimal digits are the category's, the group's and the last digit |
| LegacyReplyCodes.ServiceReady | FTPserver/rust_server/ftp_server/src/ftp/response.rs:28-30 | the greeting is code 220, as in the later server |
| LegacyReplyCodes.SuccessTransferingFile | FTPserver/rust_server/ftp_server/src/ftp/response.rs:32-34 | the transfer reply is code 201, as in the later server |
| PortPair.FtpPortPair | ftp_server/src/port/mod.rs:14-18 | the pair is the high and the low byte of the port, neither `as u8` cast truncates, and `p1 * 256 + p2` gives the port back |
| PortPair.PairParsesBack | ftp_server/src/port/mod.rs:14-18 | a PORT line carrying the pair of any port is read back by the server's PORT parser as that very address and port |
| ConnectionValidation.ToInts | ftp-client-gui/src/main/kotlin/com/example/demo/viewmodels/ConnectionViewModel.kt:19 | the conversion succeeds exactly when every piece is a number, and then gives each piece's number in order |
| ConnectionValidation.ValidIp | ftp-client-gui/src/main/kotlin/com/example/demo/viewmodels/ConnectionViewModel.kt:17-25 | an empty field is invalid; the check throws exactly when some piece between dots is not a number; it answers true exactly for four pieces that are all numbers from 0 to 255 |
| ConnectionValidation.CheckIp | ftp-client-gui/src/main/kotlin/com/example/demo/viewmodels/ConnectionViewModel.kt:17-25 | the check as written (convert, count, then loop over the numbers) answers what `ValidIp` does |
| ConnectionValidation.AllInRange | ftp-client-gui/src/main/kotlin/com/example/demo/viewmodels/ConnectionViewModel.kt:21-24 | the loop answers true exactly when every number is from 0 to 255 |
| ConnectionValidation.ValidPort | ftp-client-gui/src/main/kotlin/com/example/demo/viewmodels/ConnectionViewModel.kt:27-31 | an empty field is invalid; the check throws exactly when the text is not a number; it answers true exactly for a number of 0 or more |
| ConnectionValidation.Connect | ftp-client-gui/src/main/kotlin/com/example/demo/viewmodels/ConnectionViewModel.kt:33-36 | connecting always reports success |
| ConnectionValidation.DottedQuadValid | ftp-client-gui/src/main/kotlin/com/example/demo/viewmodels/ConnectionViewModel.kt:17-25 | every address written as four decimal octets joined by dots passes |
| ConnectionValidation.OctetTooLarge | ftp-client-gui/src/main/kotlin/com/example/demo/viewmodels/ConnectionViewModel.kt:22 | an address whose first number is above 255 is refused, not thrown on |
| ConnectionValidation.ThrowsBeforeCounting | ftp-client-gui/src/main/kotlin/com/example/demo/viewmodels/ConnectionViewModel.kt:19-20 | "1.2.x" and the empty text throw before the pieces are counted |
| ConnectionValidation.PortHasNoUpperBound | ftp-client-gui/src/main/kotlin/com/example/demo/viewmodels/ConnectionViewModel.kt:27-31 | every non-negative `Int`, 65536 and above included, is accepted as a port |
| ConnectionValidation.NegativePortRefused | ftp-client-gui/src/main/kotlin/com/example/demo/viewmodels/ConnectionViewModel.kt:29 | a minus sign before a positive number makes the port invalid |
| ClientStatus.InterpretStatusCode | FTPclient/src/r0p3/StatusCode.java:15-112 | a missing reply throws exactly for a command that has a branch, and only a command with a branch gets a status other than NONE |
| ClientStatus.InterpretTransfer | FTPclient/src/r0p3/StatusCode.java:115-130 | a transfer's closing line is OK exactly when it starts with 226, and ERROR otherwise |
| ClientStatus.ReplyIgnored | FTPclient/src/r0p3/StatusCode.java:23-27 | USER, QUIT and PWD get OK, EXIT and OK whatever the reply says |
| ClientStatus.PasswordOutcome | FTPclient/src/r0p3/StatusCode.java:29-34 | PASS is OK exactly when the reply starts with 230, and ERROR otherwise |
| ClientStatus.TransferOutcome | FTPclient/src/r0p3/StatusCode.java:36-61 | LIST, RETR and STOR give LIST, DOWN and UP exactly on a reply starting with 150, and ERROR otherwise |
| ClientStatus.DirectoryOutcome | FTPclient/src/r0p3/StatusCode.java:75-94 | CWD and MKD are OK exactly on 257 and RMD on 250, ERROR otherwise |
| ClientStatus.FileOutcome | FTPclient/src/r0p3/StatusCode.java:96-108 | DELE is OK exactly on 250 and RNFR gives MOVE exactly on 350, ERROR otherwise |
| ClientStatus.Unclassified | FTPclient/src/r0p3/StatusCode.java:109-111 | RNTO, PORT and PASV fall through to NONE, even with no reply |
| ClientStatus.DependsOnPrefixes | FTPclient/src/r0p3/StatusCode.java:15-112 | the status depends only on the first four characters of the command and the first three of the reply |
| ClientCommand.WithArgument | FTPclient/src/r0p3/Command.java:29-46 | a filled template is the keyword, one space, the argument and CR LF, and nothing else |
| ClientCommand.ReadLine | FTPclient/src/r0p3/Command.java:100-106 | `readLine` gives the next keyboard line and moves past it, or null at the end without moving |
| ClientCommand.SelectMode | FTPclient/src/r0p3/Command.java:67-79 | a null line throws; the answer is the PASV line exactly for "P" or "p", and otherwise the PORT line with the client's port |
| ClientCommand.InputUserName | FTPclient/src/r0p3/Command.java:82-89 | the line is "USER ", the text read (null written as "null") and CR LF |
| ClientCommand.InputPasswd | FTPclient/src/r0p3/Command.java:91-98 | the line is "PASS ", the text read (null written as "null") and CR LF |
| ClientCommand.RenameTo | FTPclient/src/r0p3/Command.java:108-110 | the line is "RNTO ", the name (null written as "null") and CR LF |
| ClientCommand.Line | FTPclient/src/r0p3/Command.java:29-46 | every command line starts with its keyword and ends in CR LF |
| ClientCommand.InputCommand | FTPclient/src/r0p3/Command.java:114-200 | the prompt loop returns what `InputCommandFrom` describes: lines are read until one gives a command, and a null line throws |
| ClientCommand.DecideShape | FTPclient/src/r0p3/Command.java:123-197 | every line that gives a command gives one of the client's commands: PWD, QUIT or LIST alone, or CWD, DELE, RETR, LIST, MKD, STOR, RMD or RNFR with an argument |
| ClientCommand.InputCommandShape | FTPclient/src/r0p3/Command.java:114-200 | the command returned is one of the client's, and it is read at or after the starting line, within the keyboard's lines |
| ClientCommand.FirstAccepted | FTPclient/src/r0p3/Command.java:118-198 | the command comes from the first line that is not refused, the refused lines before it skipped |
| ClientCommand.EndOfInputExactly | FTPclient/src/r0p3/Command.java:118-198 | the loop reaches the null line exactly when every line left is refused |
| ClientCommand.HelpReprompts | FTPclient/src/r0p3/Command.java:123-125 | "?" prints help and asks again |
| ClientCommand.ChangeDirectoryTokens | FTPclient/src/r0p3/Command.java:127-134 | cd sends CWD exactly when the line splits into two tokens on spaces, and sends the second |
| ClientCommand.DeleteTokens | FTPclient/src/r0p3/Command.java:136-143 | delete sends DELE exactly when the line splits into two tokens |
| ClientCommand.ListTokens | FTPclient/src/r0p3/Command.java:149-159 | a bare ls sends LIST alone; ls with more needs exactly two tokens |
| ClientCommand.MakeDirectoryTokens | FTPclient/src/r0p3/Command.java:161-168 | mkdir takes the two-token path to MKD |
| ClientCommand.RemoveDirectoryTokens | FTPclient/src/r0p3/Command.java:181-188 | rmdir takes the two-token path to RMD |
| ClientCommand.NameFromNextLine | FTPclient/src/r0p3/Command.java:145-192 | get, put and mv read the name from the next keyboard line and send RETR, STOR and RNFR |
| ClientCommand.ExactWords | FTPclient/src/r0p3/Command.java:149-179 | PWD, QUIT and the bare LIST are sent for exactly the lines pwd, quit and ls |
| ClientCommand.FirstMatchWins | FTPclient/src/r0p3/Command.java:127-134 | the tests run in order, so "cdx y" changes directory to "y" |
| ClientTransfer.FileTransfer.Localhost | FTPclient/src/r0p3/FileTransfer.java:28-30 | for "localhost" the announced argument is `0,0,0,0,p1,p2` of the bound port and the local address becomes 0.0.0.0 |
| ClientTransfer.FileTransfer.New | FTPclient/src/r0p3/FileTransfer.java:18-42 | the constructor succeeds exactly for "localhost"; every other address throws while indexing the split pieces |
| ClientTransfer.OtherAddressesThrow | FTPclient/src/r0p3/FileTransfer.java:32-35 | splitting with the pattern "." never leaves the four pieces the constructor indexes |
| ClientTransfer.FileTransfer.GetPortPasive | FTPclient/src/r0p3/FileTransfer.java:45-58 | the port becomes the one read from the reply when it parses; otherwise it throws and nothing changes |
| ClientTransfer.LastWord | FTPclient/src/r0p3/FileTransfer.java:47-51 | the last piece of splitting a reply at spaces is its last word |
| ClientTransfer.LastTwoPieces | FTPclient/src/r0p3/FileTransfer.java:51-56 | the two pieces indexed from the end are the last two comma-separated numbers |
| ClientTransfer.CutAtParen | FTPclient/src/r0p3/FileTransfer.java:56 | splitting at `)` keeps the digits before the parenthesis |
| ClientTransfer.ReplyLastWord | FTPclient/src/r0p3/FileTransfer.java:47-51 | the port of a reply is the port of its last word |
| ClientTransfer.WordLastPieces | FTPclient/src/r0p3/FileTransfer.java:51-56 | the port of a word is read from its last two comma-separated pieces |
| ClientTransfer.NumbersRoundTrip | FTPclient/src/r0p3/FileTransfer.java:55-57 | `p1 * 256 + p2` of the two numerals of a port gives the port back |
| ClientTransfer.Visible | FTPclient/src/r0p3/FileTransfer.java:51 | the last word of a well-formed PASV reply has no blank, so `trim` leaves it alone |
| ClientTransfer.PasvPortRoundTrip | FTPclient/src/r0p3/FileTransfer.java:45-58 | every PASV reply ending in the two numbers of a port, then `)`, gives that port |
| ClientTransfer.PasvNumbersRead | FTPclient/src/r0p3/FileTransfer.java:45-58 | a PASV reply ending in any two decimal numbers, then `)`, gives `x * 256 + y` when it fits an `int`, whether or not that is a port |
| ClientTransfer.PortArgumentRoundTrip | FTPclient/src/r0p3/FileTransfer.java:24-29 | the client's own PORT argument, read back as a PASV reply, gives the port it was built from |
| ClientTransfer.PasvExample | FTPclient/src/r0p3/FileTransfer.java:55-57 | `227 Entering Passive Mode (127,0,0,1,4,1).` announces port 1025 |
| ClientTransfer.IntBytes | FTPclient/src/r0p3/FileTransfer.java:123 | `writeInt` writes exactly four bytes |
| ClientTransfer.ReadInt | FTPclient/src/r0p3/FileTransfer.java:106 | `readInt` gives a signed 32-bit value |
| ClientTransfer.ReadIntBytes | FTPclient/src/r0p3/FileTransfer.java:106 | `readInt` reads back every value `writeInt` wrote |
| ClientTransfer.Upload | FTPclient/src/r0p3/FileTransfer.java:117-125 | an upload is four length bytes followed by the data unchanged |
| ClientTransfer.DownloadFile | FTPclient/src/r0p3/FileTransfer.java:96-115 | a download takes exactly the announced number of bytes after the length; a negative length or a stream that ends early throws |
| ClientTransfer.DownloadUpload | FTPclient/src/r0p3/FileTransfer.java:96-125 | downloading what was uploaded gives the same bytes and leaves what followed them |
| ClientTransfer.ListFile | FTPclient/src/r0p3/FileTransfer.java:76-94 | the listing is every line read, each followed by a newline |
| ClientTransfer.ListTextSnoc | FTPclient/src/r0p3/FileTransfer.java:84-85 | each line read adds itself and a newline at the end of the listing |
| ClientTransfer.ListTextJoin | FTPclient/src/r0p3/FileTransfer.java:76-94 | the listing is the lines joined by newlines, with one more at the end |
| ClientTransfer.ListTextSplit | FTPclient/src/r0p3/FileTransfer.java:76-94 | lines without newlines come back from splitting the listing at newlines |
| ClientSession.Reconnect | FTPclient/src/r0p3/Main.java:106-114 | re-sending the mode reads replies only forward and leaves the keyboard and local files alone; it can only crash, and going on means the data connection was set up; it only adds events |
| ClientSession.DataFile | FTPclient/src/r0p3/FileTransfer.java:137-154 | the bytes `getDataFile` returns are those of a local file (a directory of the given name throws), and the keyboard only moves forward |
| ClientSession.Transfer | FTPclient/src/r0p3/Main.java:75-102 | the transfer step reads replies and keyboard lines only forward, sets up no data connection, loses no local file, can only crash, and only adds events |
| ClientSession.Act | FTPclient/src/r0p3/Main.java:66-121 | after a reply the session goes on reading forward or stops, never with an exit status, and only adds events |
| ClientSession.Round | FTPclient/src/r0p3/Main.java:60-122 | a round that goes on reads at least one reply, so the loop always advances through the replies |
| ClientSession.Proceed | FTPclient/src/r0p3/Main.java:44-122 | once the login went through, the session never ends with an exit status |
| ClientSession.Renegotiate | FTPclient/src/r0p3/Main.java:106-114 | sending the mode and setting up the data connection on the client's FileTransfer object does what Reconnect describes |
| ClientSession.GetDataFile | FTPclient/src/r0p3/FileTransfer.java:137-154 | the loop asking for a file name until one exists gives what DataFile describes |
| ClientSession.DoTransfer | FTPclient/src/r0p3/Main.java:75-102 | the list, download, upload or rename step gives what Transfer describes |
| ClientSession.RunSession | FTPclient/src/r0p3/Main.java:7-125 | `main`, step by step, produces the session Run describes |
| ClientSession.LoopEnding | FTPclient/src/r0p3/Main.java:60-124 | the command loop never ends with an exit status and only adds events |
| ClientSession.PassLine | FTPclient/src/r0p3/Main.java:32-36 | the PASS line starts with the PASS keyword and a space, so its reply is judged as a password answer |
| ClientSession.ExitOnRejectedPassword | FTPclient/src/r0p3/Main.java:32-41 | the client exits with status 1 exactly when the reply to PASS arrives and does not start with 230, right after closing the control connection |
| ClientSession.LoopAgree | FTPclient/src/r0p3/Main.java:60-122 | the loop never reads a reply before its cursor |
| ClientSession.PassReplyAfterUser | FTPclient/src/r0p3/Main.java:29-34 | the reply to PASS is the third line, whatever the second one says |
| ClientSession.UserReplyIgnored | FTPclient/src/r0p3/Main.java:27-30 | the reply to USER is read and never looked at: any other reply gives the same session |
| ClientSession.ModeOfInput | FTPclient/src/r0p3/Main.java:45-49 | the session is passive exactly when the keyboard line was "P" or "p" |
| ClientSession.ModeNegotiation | FTPclient/src/r0p3/Main.java:45-56 | setting up the data connection crashes, right after the mode line and its reply, exactly when the connect or accept fails, or in passive mode when the reply has no port or one outside 0..65535 (FileTransfer.java:61); otherwise passive mode connects and reads one more reply, active mode accepts |
| ClientSession.PortAboveRangeCrashes | FTPclient/src/r0p3/FileTransfer.java:55-61 | a PASV reply announcing `x,y` with `x * 256 + y` of 65536 or more, such as `227 (0,0,0,0,256,0)`, crashes the client at `new Socket` |
| ClientSession.PassiveConnectsTo | FTPclient/src/r0p3/Main.java:49-53 | in passive mode the client connects to the port read from the reply, when it is a port and the connect succeeds |
| ClientSession.PassiveConnectsToAnnouncedPort | FTPclient/src/r0p3/Main.java:49-53 | a PASV reply ending in the two numbers of a port makes the client connect to that port, when the connect succeeds |
| ClientSession.DownloadStored | FTPclient/src/r0p3/Main.java:81-87 | a download goes on exactly when the data arrives whole, a name is read and `new FileOutputStream` opens it (not the empty name, a directory or a refused name, FileTransfer.java:128-135); the bytes then become the local file of that name, which a later `put` finds without asking again (FileTransfer.java:143) |
| ClientSession.RoundSendsThenReads | FTPclient/src/r0p3/Main.java:62-64 | each round first sends the command read from the keyboard, then reads one reply |
| ClientSession.ServerGoneEndsSession | FTPclient/src/r0p3/Main.java:117-124 | when no reply comes, the data connection and the control connection are closed, the data connection again after the loop, and the session ends |
| ClientSession.QuitEndsSession | FTPclient/src/r0p3/Main.java:70-74 | QUIT ends the session whatever the reply says, closing the control connection and then the data connection twice |
| ClientSession.TransferReadsOneReply | FTPclient/src/r0p3/Main.java:75-102 | list, download, upload and rename each read exactly one more reply, a rename after sending RNTO; other outcomes do nothing |
| ClientSession.ModeResentEachRound | FTPclient/src/r0p3/Main.java:104-114 | every round that goes on ends by sending the same mode line and setting up a new data connection |
| ClientSession.ActSendsMode | FTPclient/src/r0p3/Main.java:104-114 | whatever the reply was, a round that goes on is followed by the mode line and a new data connection |
| ClientSession.ReconnectSendsMode | FTPclient/src/r0p3/Main.java:106-114 | setting up the data connection ends with the mode line, its reply and the connection |
| CommandFields.AsciiToU8 | ftp_server/src/ftp/command.rs:80-96 | `ascii_to_u8` accepts exactly the runs of at most three decimal digits whose value fits a byte, and gives that value; its `u16` never overflows |
| CommandFields.DecimalU8Empty | ftp_server/src/ftp/command.rs:80-96 | an empty run reads as 0 |
| CommandFields.DecimalU8RoundTrip | ftp_server/src/ftp/command.rs:80-96 | every byte written in decimal reads back, and one leading zero is tolerated while the run stays within three digits |
| CommandFields.SplitJoin | ftp_server/src/ftp/command.rs:249-262 | pieces without commas, joined by commas, split back into themselves |
| CommandFields.FieldEnd | ftp_server/src/ftp/command.rs:251-253 | the inner loop never moves back, never moves from the CR on, and otherwise stops at the CR at the latest |
| CommandFields.AdvanceToComma | ftp_server/src/ftp/command.rs:250-253 | the inner `while` stops where FieldEnd says |
| CommandFields.WalkFields | ftp_server/src/ftp/command.rs:249-262 | a completed walk holds one value per remaining field; a bad field is one of the remaining ones |
| CommandFields.WalkPortFields | ftp_server/src/ftp/command.rs:244-262 | the six-field loop starting after "PORT " gives what WalkFields describes |
| CommandFields.WalkFieldsStep | ftp_server/src/ftp/command.rs:250-261 | one turn of the loop: a slice past the buffer panics, a field `ascii_to_u8` rejects stops the walk with its number, and a good field is kept before the next one |
| CommandFields.WalkBySplit | ftp_server/src/ftp/command.rs:249-267 | the index-based walk reads the same values as reading the comma-separated pieces of the argument one by one |
| CommandFields.ReadPieces | ftp_server/src/ftp/command.rs:249-267 | reading the pieces gives one value per field, or stops at one of the fields being read |
| CommandFields.NumeralsRead | ftp_server/src/ftp/command.rs:80-96 | byte values written in decimal hold no comma and read back as themselves |
| CommandFields.ReadExact | ftp_server/src/ftp/command.rs:249-267 | the walk ends just before the LF exactly when there are six pieces and each is a byte in decimal; the values are then those bytes |
| CommandFields.ReadRunsOff | ftp_server/src/ftp/command.rs:249-262 | the walk runs past the buffer exactly when every piece is a byte and three or more fields are missing |
| CommandFields.ReadBad | ftp_server/src/ftp/command.rs:249-262 | the walk stops at a bad field exactly when one of the first six pieces is not a byte in decimal |
| CommandFields.ReadStopsAt | ftp_server/src/ftp/command.rs:249-262 | the field it stops at is the first piece that is not a byte |
| ServerCommand.IsAuthCommand | ftp_server/src/ftp/command.rs:55-70 | a command needs a logged-in user exactly when it is not USER, PASS, PASV or QUIT |
| ServerCommand.ParsePath | ftp_server/src/ftp/command.rs:99-123 | a path is accepted exactly when the line is longer than six bytes, the keyword's tail matches, a space follows and the bytes before CR LF are UTF-8; those bytes are the path |
| ServerCommand.WithArgumentParts | ftp_server/src/ftp/command.rs:113-119 | a keyword line is the keyword, a space, the argument between the space and the CR, then CR LF |
| ServerCommand.ParseRetrLine | ftp_server/src/ftp/command.rs:188 | "RETR path" CR LF parses as RETR of that path |
| ServerCommand.ParseStorLine | ftp_server/src/ftp/command.rs:202 | "STOR path" CR LF parses as STOR of that path |
| ServerCommand.ParseDeleLine | ftp_server/src/ftp/command.rs:153 | "DELE path" CR LF parses as DELE of that path |
| ServerCommand.ParseMkdLine | ftp_server/src/ftp/command.rs:155 | "MKD path" CR LF parses as MKD of a non-empty path |
| ServerCommand.ParseCwdLine | ftp_server/src/ftp/command.rs:147-151 | "CWD path" CR LF parses as CWD of a non-empty path |
| ServerCommand.ParseRmdLine | ftp_server/src/ftp/command.rs:189-193 | "RMD path" CR LF parses as RMD of a non-empty path |
| ServerCommand.ParseRnfrLine | ftp_server/src/ftp/command.rs:195 | "RNFR path" CR LF parses as RNFR of that path |
| ServerCommand.ParseRntoLine | ftp_server/src/ftp/command.rs:196 | "RNTO path" CR LF parses as RNTO of that path |
| ServerCommand.ParseListLine | ftp_server/src/ftp/command.rs:165-185 | "LIST path" CR LF parses as LIST of that path |
| ServerCommand.ParseUserLine | ftp_server/src/ftp/command.rs:280-291 | "USER name" CR LF parses as USER of that name |
| ServerCommand.ParsePassLine | ftp_server/src/ftp/command.rs:220-225 | "PASS word" CR LF parses as PASS of that word |
| ServerCommand.ParseUnparse | ftp_server/src/ftp/command.rs:303-397 | every well-formed command reads back from the line a client sends for it, as the parser's test table expects |
| ServerCommand.PortOutcomeAsRead | ftp_server/src/ftp/command.rs:249-274 | the end of the PORT branch depends only on what the field walk read |
| ServerCommand.ParsePortLine | ftp_server/src/ftp/command.rs:231-274 | the PORT branch gives what reading the six fields from the comma-separated pieces of the argument gives |
| ServerCommand.ParsePortBranch | ftp_server/src/ftp/command.rs:204-242 | a PORT line reaches the field walk |
| ServerCommand.PortWalkReads | ftp_server/src/ftp/command.rs:244-274 | the field walk of a PORT line ends as the reference read of its pieces |
| ServerCommand.ParsePortAccepts | ftp_server/src/ftp/command.rs:231-274 | a PORT line is accepted exactly when its argument is six comma-separated bytes in decimal; they give the four address bytes and the port `p1 * 256 + p2` |
| ServerCommand.ParsePortOutOfBounds | ftp_server/src/ftp/command.rs:249-259 | the walk slices past the buffer and panics exactly when the argument holds at most three fields, all of them bytes |
| ServerCommand.ParsePortBadField | ftp_server/src/ftp/command.rs:254-260 | the first field that is not a byte decides the message: an address error for fields 1 to 4, a port error for 5 and 6 |
| ServerCommand.ParsePortBadFormat | ftp_server/src/ftp/command.rs:264-267 | fields that are all bytes but four, five or more than six of them give the format error |
| ServerCommand.ReadBadFormat | ftp_server/src/ftp/command.rs:264-267 | the format error, on the reference read of the pieces |
| ServerCommand.ParsePortUnparse | ftp_server/src/ftp/command.rs:366-380 | the PORT line a client writes reads back as its address and port |
| ServerCommand.PortLinePieces | ftp_server/src/ftp/command.rs:244-262 | the argument of a canonical PORT line splits into its six numerals |
| ServerCommand.PortPiecesValues | ftp_server/src/ftp/command.rs:270-273 | the six numerals read as the address bytes and the two halves of the port |
| ServerCommand.ReassembleLine | ftp_server/src/ftp/command.rs:113-119 | a line that starts with a keyword and a space and ends in CR LF is that keyword line |
| ServerCommand.ParsedRetrIsCanonical | ftp_server/src/ftp/command.rs:188 | an accepted RETR came from exactly the line a client sends for it |
| ServerCommand.ParsedStorIsCanonical | ftp_server/src/ftp/command.rs:202 | an accepted STOR came from exactly the line a client sends for it |
| ServerCommand.ParsedDeleIsCanonical | ftp_server/src/ftp/command.rs:153 | an accepted DELE came from exactly the line a client sends for it |
| ServerCommand.ParsedMkdIsCanonical | ftp_server/src/ftp/command.rs:155 | an accepted MKD came from exactly the line a client sends for it |
| ServerCommand.ParsedCwdIsCanonical | ftp_server/src/ftp/command.rs:147-151 | an accepted CWD came from exactly the line a client sends for it |
| ServerCommand.ParsedRmdIsCanonical | ftp_server/src/ftp/command.rs:189-193 | an accepted RMD came from exactly the line a client sends for it |
| ServerCommand.ParsedRnfrIsCanonical | ftp_server/src/ftp/command.rs:195 | an accepted RNFR came from exactly the line a client sends for it |
| ServerCommand.ParsedRntoIsCanonical | ftp_server/src/ftp/command.rs:196 | an accepted RNTO came from exactly the line a client sends for it |
| ServerCommand.ParsedListIsCanonical | ftp_server/src/ftp/command.rs:165-185 | an accepted LIST came from the line a client sends for it, or from the bare LIST line that means the current directory |
| ServerCommand.ListLineIsCanonical | ftp_server/src/ftp/command.rs:165-185 | the same, for the L branch |
| ServerCommand.ParsedUserIsCanonical | ftp_server/src/ftp/command.rs:280-291 | an accepted USER came from exactly the line a client sends for it |
| ServerCommand.ParsedPassIsCanonical | ftp_server/src/ftp/command.rs:220-225 | an accepted PASS came from exactly the line a client sends for it |
| ServerCommand.ParsedIsCanonical | ftp_server/src/ftp/command.rs:128-295 | every accepted command is well formed and, except PORT, QUIT and the bare LIST, came from exactly the line a client sends for it |
| ServerCommand.ParseRejectsUnframed | ftp_server/src/ftp/command.rs:129-141 | a line of at most two bytes is too short, and one not ending in CR LF is refused; an accepted line has at least five bytes |
| ServerCommand.ParseQuit | ftp_server/src/ftp/command.rs:157-162 | QUIT is accepted exactly for lines starting with QUIT and ending in CR LF, whatever lies between |
| ServerCommand.OutOfBoundsOnlyPort | ftp_server/src/ftp/command.rs:128-295 | only a PORT line makes the parser index past its buffer |
| LegacyCommand.PortLinesAgree | FTPserver/rust_server/ftp_server/src/ftp/command.rs:80-124 | the earlier and the later parser treat every PORT line alike: the same address and port, the same messages, the same panic |
| LegacyCommand.PortBranch | FTPserver/rust_server/ftp_server/src/ftp/command.rs:80-124 | a PORT line reaches the PORT field walk the later parser shares |
| LegacyCommand.PortLineBytes | FTPserver/rust_server/ftp_server/src/ftp/command.rs:80-91 | a PORT line has the bytes that lead to the field walk |
| LegacyCommand.ParseUnparse | FTPserver/rust_server/ftp_server/src/ftp/command.rs:136-169 | the LIST and PORT lines a client writes read back as their commands, as the test table expects |
| LegacyCommand.BareListRefused | FTPserver/rust_server/ftp_server/src/ftp/command.rs:61-64 | a LIST with no argument is refused for its length here, while the later parser reads it as the current directory |
| LegacyCommand.LaterParserAccepts | FTPserver/rust_server/ftp_server/src/ftp/command.rs:44-128 | every command the earlier parser accepts, the later one accepts as the same command |
| LegacyCommand.ListLinesAgree | FTPserver/rust_server/ftp_server/src/ftp/command.rs:61-78 | a LIST line the earlier parser accepts is the later parser's LIST of the same path |
| LegacyCommand.PortLineAgrees | FTPserver/rust_server/ftp_server/src/ftp/command.rs:80-123 | a PORT line the earlier parser accepts is the later parser's PORT of the same address and port |
| UserRepository.ResolveTarget | user_manage/src/lib.rs:77-91 | the target of a request is an absolute request walked from the canonical chroot, or a relative one walked from the current directory |
| UserRepository.ResolveOutcome | user_manage/src/lib.rs:77-101 | from a confined current directory, `change_dir` succeeds exactly when the target exists under the chroot, fails with "Directory not found" exactly when there is none, and fails with "Invalid directory" exactly when it lies outside |
| UserRepository.ResolveIsConfine | user_manage/src/lib.rs:77-101 | once the chroot and the pushed request are sound, resolution is the check on the canonical target |
| UserRepository.ConfineCases | user_manage/src/lib.rs:91-99 | the three outcomes of the chroot check, each as an if-and-only-if |
| UserRepository.PushText | user_manage/src/lib.rs:83-87 | pushing UTF-8 text on UTF-8 text gives text, so `to_str().unwrap()` does not panic |
| UserRepository.ResolveConfines | user_manage/src/lib.rs:94-97 | a successful `change_dir` leaves a current directory that is again confined, and leads to the target |
| UserRepository.ParentOfChrootRefused | user_manage/src/lib.rs:381-383 | ".." from the top of the chroot leaves it and is refused, as the crate's test expects |
| UserRepository.SlashReturnsToChroot | user_manage/src/lib.rs:400-401 | "/" leads back to the top of the chroot from any current directory |
| UserRepository.SlashWalksNowhere | user_manage/src/lib.rs:400-402 | walking "./" and then "/" from a directory stays in it |
| UserRepository.NewDir | user_manage/src/lib.rs:47-75 | `new_dir` succeeds and fails exactly as `change_dir` would, with the same messages |
| UserRepository.NewDirRoundTrip | user_manage/src/lib.rs:68-71 | the path `new_dir` answers canonicalizes back to where `change_dir` would go |
| UserRepository.ShownFromChroot | user_manage/src/lib.rs:123-137 | the path shown is the current directory seen from the chroot, as an absolute path |
| UserRepository.User.New | user_manage/src/lib.rs:31-40 | a new user has the chroot `./root/<name>`, the current directory `./` and the given password and uid |
| UserRepository.User.Clone | user_manage/src/lib.rs:16 | a clone has the same fields |
| UserRepository.User.ChangeDir | user_manage/src/lib.rs:77-101 | the current directory moves to the new directory exactly when the request resolves under the chroot; nothing else changes |
| UserRepository.NewUserConfined | user_manage/src/lib.rs:31-40 | a fresh user whose chroot exists is confined, at the top of the chroot |
| UserRepository.SystemUsers.LoadData | user_manage/src/lib.rs:164-180 | every loaded user starts at `./` and keeps its password, chroot and uid |
| UserRepository.SystemUsers.UserExists | user_manage/src/lib.rs:182-191 | a user exists exactly when a key is the name |
| UserRepository.SystemUsers.HasPasswd | user_manage/src/lib.rs:193-206 | true exactly when the user exists and the password matches |
| UserRepository.SystemUsers.GetUser | user_manage/src/lib.rs:208-222 | the user stored under the name, exactly when there is one |
| UserRepository.SystemUsers.GetUserClone | user_manage/src/lib.rs:224-230 | a fresh copy of the user stored under the name, exactly when there is one |
| UserRepository.SystemUsers.NextUid | user_manage/src/lib.rs:250-256 | the new uid is one more than the largest in use, or 0; a user with uid 65535 makes the addition overflow and panic |
| UserRepository.SystemUsers.CreateUser | user_manage/src/lib.rs:232-271 | a name in use is refused and nothing changes; otherwise a new user `./root/<name>` with a uid above every one in use is stored under the name, and no other entry changes |
| UserRepository.SystemUsers.DeleteUser | user_manage/src/lib.rs:273-314 | an unknown name or a wrong password is refused and nothing changes; otherwise exactly that user is removed and handed back |
| LegacyUsers.User.constructor | ftp_server/src/ftp/user_manage.rs:24-33 | a user holds the stored password, chroot, uid and current directory |
| LegacyUsers.User.ChangeDir | ftp_server/src/ftp/user_manage.rs:38-55 | the directory changes, to "." followed by the request, exactly when that path exists; a request not starting with "/" is always refused with "Directony doesn't exist"; nothing else changes |
| LegacyUsers.Candidate | ftp_server/src/ftp/user_manage.rs:43-47 | the path tried is non-empty exactly when the request starts with "/" |
| LegacyUsers.CandidateFromServerDirectory | ftp_server/src/ftp/user_manage.rs:45-49 | an absolute request is walked from the server's working directory, not from the user's chroot |
| LegacyUsers.RootAccepted | ftp_server/src/ftp/user_manage.rs:45-49 | "/" is the server's working directory, which always exists |
| LegacyUsers.ParentOfServerAccepted | ftp_server/src/ftp/user_manage.rs:45-49 | "/.." is accepted for every user, and leads above the server's working directory, out of every chroot |
| LegacyUsers.SystemUsers.LoadData | ftp_server/src/ftp/user_manage.rs:90-109 | every loaded user starts in its chroot and keeps its password, chroot and uid |
| LegacyUsers.SystemUsers.UserExists | ftp_server/src/ftp/user_manage.rs:112-118 | a user exists exactly when a key is the name |
| LegacyUsers.SystemUsers.HasPasswd | ftp_server/src/ftp/user_manage.rs:121-129 | true exactly when the user exists and the password matches |
| LegacyUsers.SystemUsers.GetUser | ftp_server/src/ftp/user_manage.rs:132-138 | a fresh copy of the user stored under the name, exactly when there is one |
| ServerState.DefaultBuffer | ftp_server/src/ftp/mod.rs:58-64 | the default buffer has nothing to send and no callback |
| ServerState.NewBuffer | ftp_server/src/ftp/mod.rs:66-72 | a new buffer has all of its bytes still to send, offset 0, and no callback |
| ServerState.Reset | ftp_server/src/ftp/mod.rs:74-77 | `reset` makes all of the new bytes pending, offset 0, and keeps the callback |
| ServerState.ResetStr | ftp_server/src/ftp/mod.rs:79-82 | `reset_str` makes the bytes of the text pending, offset 0, and keeps the callback |
| ServerState.CreateResponse | ftp_server/src/ftp/mod.rs:37-39 | a reply line starts with the code in decimal, ends in CR LF, and is three bytes longer than the code and the message together (the space and the CR LF) |
| ServerState.ReplyRoundTrip | ftp_server/src/ftp/mod.rs:37-39 | every reply line with a three-digit code reads back as exactly its code and its message |
| ServerState.CommandTokensUpdate | ftp_server/src/ftp/mod.rs:210-215 | storing a context changes the set of control connections only at its token |
| ServerState.CommandTokensRemove | ftp_server/src/ftp/mod.rs:621-625 | removing a token removes at most that control connection, and the count drops by one exactly when it was one |
| ServerState.CommandTokensSameKind | ftp_server/src/ftp/mod.rs:567-570 | replacing a context by one of the same kind keeps the control connections |
| ServerState.ConnectionDb.constructor | ftp_server/src/ftp/mod.rs:181 | the connection table starts empty |
| ServerState.ActionList.constructor | ftp_server/src/ftp/mod.rs:186 | the action list starts empty |
| ServerState.ActionList.Push | ftp_server/src/ftp/mod.rs:572 | pushing appends exactly one action |
| ServerState.FtpServer.New | ftp_server/src/ftp/mod.rs:176-191 | a new server has an empty table, ids from 0, passive ports from 50000, room for 50 control connections and none admitted |
| ServerState.FtpServer.WithConnectionCapacity | ftp_server/src/ftp/mod.rs:193-208 | the same, with the given capacity |
| ServerState.FtpServer.AddConnection | ftp_server/src/ftp/mod.rs:210-215 | stores a fresh context, with no user and not logged in, under the token, and changes nothing else |
| ServerState.FtpServer.NextId | ftp_server/src/ftp/mod.rs:303-306 | the id counter goes up by exactly one and the new value is answered |
| ServerState.FtpServer.NewPassiveListener | ftp_server/src/ftp/mod.rs:217-239 | the port and id counters each go up by one on every call; a port beyond `u16` cannot be written as an address; only a bound and registered listener is stored, under the new id, linked to the control connection |
| ServerState.FtpServer.NewConnection | ftp_server/src/ftp/mod.rs:308-345 | as written: at capacity the connection is stored `Closed` and not counted; below it the connection is counted before it is registered, then stored with the 220 greeting, so a failed registration keeps the count it took; the count never passes the capacity |
| ServerState.AdmissionAsWrittenBounded | ftp_server/src/ftp/mod.rs:320-344 | the admission as written keeps the control connections within the count and the count within the capacity; a failed registration below capacity raises the count and stores nothing |
| ServerState.FtpServer.CloseConnection | ftp_server/src/ftp/mod.rs:510-638 | an unknown token is left alone; an upload without its reply refuses with WriteZero and keeps its entry; otherwise the entry goes, a control connection takes its data connection with it, and the count drops exactly when a control connection is removed |
| ServerState.FtpServer.Release | ftp_server/src/ftp/mod.rs:540-611 | before its entry goes, a finished upload delivers its reply and a control connection drops its data connection |
| ServerState.FtpServer.DeliverUpload | ftp_server/src/ftp/mod.rs:555-575 | the control connection, when present, gets the upload's reply to send and one WRITABLE action |
| ServerState.Closing | ftp_server/src/ftp/mod.rs:510-638 | closing removes the token and never adds one; a control connection's data connection is gone too; any other kind removes exactly its own token |
| ServerState.AdmissionAsWrittenLeaksSlot | ftp_server/src/ftp/mod.rs:330-332 | as written, a failed registration below capacity still uses up a slot, so the next client is stored `Closed` although no control connection exists |
| ServerState.AdmissionCountsExactly | ftp_server/src/ftp/mod.rs:320-344 | with the count raised only after registration, the count equals the number of control connections and stays within the capacity; a client is stored `Closed` only at capacity |
| ServerHandlerRead.RetrBase | ftp_server/src/ftp/handler_read.rs:167-168 | the served directory `./root/username` is a relative path starting with "." |
| ServerHandlerRead.Answer | ftp_server/src/ftp/handler_read.rs:113-116 | answering resets the control connection's buffer to the reply and keeps its stream, data link and callback |
| ServerHandlerRead.ArmDownload | ftp_server/src/ftp/handler_read.rs:52-68 | a file transfer gets the file to send and keeps its stream, link and kind; anything else is NotFound |
| ServerHandlerRead.ListArm | ftp_server/src/ftp/handler_read.rs:234-311 | the LIST arm does what ListRead describes and only reads the table |
| ServerHandlerRead.PortArm | ftp_server/src/ftp/handler_read.rs:314-361 | the PORT arm does what PortRead describes |
| ServerHandlerRead.HandlerRead.constructor | ftp_server/src/ftp/handler_read.rs:39-50 | a new handler has the token and the shared table and no actions yet |
| ServerHandlerRead.HandlerRead.HandleRead | ftp_server/src/ftp/handler_read.rs:73-421 | `handle_read` produces the connection, table, actions and result that Read describes |
| ServerHandlerRead.HandlerRead.HandleCommand | ftp_server/src/ftp/handler_read.rs:129-373 | the dispatch on a parsed command does what CommandRead describes |
| ServerHandlerRead.HandlerRead.HandleQuit | ftp_server/src/ftp/handler_read.rs:130-149 | QUIT queues the 221 line with the callback that shuts the control connection, and asks for one WRITABLE |
| ServerHandlerRead.HandlerRead.HandleList | ftp_server/src/ftp/handler_read.rs:234-311 | LIST, as ListRead describes it |
| ServerHandlerRead.HandlerRead.HandlePort | ftp_server/src/ftp/handler_read.rs:314-361 | PORT, as PortRead describes it |
| ServerHandlerRead.HandlerRead.HandleRetr | ftp_server/src/ftp/handler_read.rs:151-232 | RETR, as RetrRead describes it |
| ServerHandlerRead.HandlerRead.HandleAccept | ftp_server/src/ftp/handler_read.rs:378-417 | the passive listener's accept, as AcceptRead describes it |
| ServerHandlerRead.QuitLineIsReply | ftp_server/src/ftp/handler_read.rs:137 | the literal QUIT line is the 221 reply line `create_response` would build |
| ServerHandlerRead.ReadFraming | ftp_server/src/ftp/handler_read.rs:81-102 | a failed read is passed up, a read without a line feed panics, a read filling the 10024-byte buffer is refused, and none of them changes anything |
| ServerHandlerRead.RejectedLineAnswered | ftp_server/src/ftp/handler_read.rs:104-123 | a line the parser rejects is answered 503 with the parser's message, asks for WRITABLE, and changes nothing else |
| ServerHandlerRead.QuitClosesControl | ftp_server/src/ftp/handler_read.rs:130-149 | QUIT answers 221 and leaves the callback that shuts the control connection once the line is sent |
| ServerHandlerRead.TransferNeedsDataConnection | ftp_server/src/ftp/handler_read.rs:157-163 | RETR and LIST without a data connection answer 503 "Bad sequence of commands." and change nothing else |
| ServerHandlerRead.ReadParsed | ftp_server/src/ftp/handler_read.rs:104-129 | a line that parses is handled as its command |
| ServerHandlerRead.RetrConfined | ftp_server/src/ftp/handler_read.rs:165-231 | once the served directory resolves, the file goes to the data connection with a 150 reply exactly when the target lies under the served directory, the file opens and the data connection is a transfer in the table; otherwise 550 and the table is unchanged |
| ServerHandlerRead.RetrOpened | ftp_server/src/ftp/handler_read.rs:188-224 | once the file opens, the data token is taken from the control connection whatever happens next |
| ServerHandlerRead.RetrServed | ftp_server/src/ftp/handler_read.rs:199-224 | with the data connection in the table, the download is armed there, answered 150, and its WRITABLE is queued for after the reply |
| ServerHandlerRead.ArmedLinks | ftp_server/src/ftp/handler_read.rs:61-64 | arming a download keeps the data connection's link to its control connection and touches no other entry |
| ServerHandlerRead.RetrRefused | ftp_server/src/ftp/handler_read.rs:189-198 | a data connection missing from the table gets the 550 "no access" reply and the table is unchanged |
| ServerHandlerRead.ListAnswers | ftp_server/src/ftp/handler_read.rs:250-310 | LIST with a data connection answers 150 and fills it with the 1000-byte buffer once the reply is sent, or answers 455 when it is not in the table |
| ServerHandlerRead.PortLinks | ftp_server/src/ftp/handler_read.rs:314-361 | PORT that connects links the control connection to the fresh id, which holds an active transfer with nothing to send, and answers 200; a failed connect answers 503 and changes nothing else |
| ServerHandlerRead.AcceptLinks | ftp_server/src/ftp/handler_read.rs:378-417 | an accept removes the listener, so it accepts once, stores a passive transfer under the fresh id for the listener's control connection, links it there and answers 200 |
| ServerHandlerRead.AcceptFailureKeepsListener | ftp_server/src/ftp/handler_read.rs:380 | a failed accept is passed up and changes nothing |
| ServerHandlerRead.OtherCommandsOnlyUpdateSession | ftp_server/src/ftp/handler_read.rs:364-372 | every other command only sets the session's user id to 3 and logged-in to false |
| ServerHandlerRead.ReadKeepsControlConnections | ftp_server/src/ftp/handler_read.rs:73-421 | a read never adds or removes a control connection, keeps the connection's own kind, and adds at most the fresh id |
| ServerHandlerRead.CommandKeepsControlConnections | ftp_server/src/ftp/handler_read.rs:129-373 | the same, for each parsed command |
| ServerHandlerRead.RetrKeepsControlConnections | ftp_server/src/ftp/handler_read.rs:151-232 | the same, for RETR |
| ServerHandlerRead.PortKeepsControlConnections | ftp_server/src/ftp/handler_read.rs:314-361 | the same, for PORT |
| ServerHandlerRead.RetrTableShape | ftp_server/src/ftp/handler_read.rs:189-224 | RETR changes at most the data connection's entry, which stays a file transfer |
| ServerHandlerRead.AcceptKeepsControlConnections | ftp_server/src/ftp/handler_read.rs:378-417 | the same, for an accept |
| ServerHandlerWrite.ChunkAt | ftp_server/src/ftp/handler_write.rs:151-162 | each read of the file into the 1024-byte buffer takes between 1 and 1024 bytes and never passes the end |
| ServerHandlerWrite.CloseChain | FTPserver/rust_server/ftp_server/src/ftp/handler_write.rs:10-44 | `close_connection_recursive` removes the connection and, for a control connection, its data connection; every remaining entry is unchanged, and an unknown token changes nothing |
| ServerHandlerWrite.SendFile | ftp_server/src/ftp/handler_write.rs:150-214 | the download loop only moves forward through the file and stops inside it |
| ServerHandlerWrite.AnswerCommand | ftp_server/src/ftp/handler_write.rs:123-136 | `answer_command` on the shared table, as AnswerTable and AnswerActions describe it |
| ServerHandlerWrite.CloseArm | ftp_server/src/ftp/handler_write.rs:41-49 | `close_connection` after the socket is shut, as Close describes it |
| ServerHandlerWrite.CommandWriteArm | ftp_server/src/ftp/handler_write.rs:64-106 | the control connection's write, as CommandWrite describes it |
| ServerHandlerWrite.BufferWriteArm | ftp_server/src/ftp/handler_write.rs:220-302 | the transfer's write of its buffer, as BufferWrite describes it |
| ServerHandlerWrite.SendFailStep | ftp_server/src/ftp/handler_write.rs:188-198 | a failed chunk write closes the connection, tells the control connection, and goes on with the next chunk |
| ServerHandlerWrite.SendEndStep | ftp_server/src/ftp/handler_write.rs:204-213 | the end of the file closes the connection and tells the control connection the file was sent |
| ServerHandlerWrite.SendFileArm | ftp_server/src/ftp/handler_write.rs:150-214 | the download loop, as SendFile describes it |
| ServerHandlerWrite.SendFileBlocks | ftp_server/src/ftp/handler_write.rs:164-187 | a chunk write that would block seeks back, asks for WRITABLE and stops there |
| ServerHandlerWrite.SendFileFinishes | ftp_server/src/ftp/handler_write.rs:159-160 | at the end of the file the connection is closed and the control connection answered 226 |
| ServerHandlerWrite.SendFileFails | ftp_server/src/ftp/handler_write.rs:188-198 | a failed chunk write closes the connection, answers the control connection with the error and carries on |
| ServerHandlerWrite.SendFileWrites | ftp_server/src/ftp/handler_write.rs:199-202 | a chunk written whole is appended to what was sent and the loop goes on past it |
| ServerHandlerWrite.CommandWriteSendsInOrder | ftp_server/src/ftp/handler_write.rs:69-88 | the bytes the socket took are the front of what was pending and the rest stays pending; once all is sent the buffer empties, the connection reads again and the callback is handed back; otherwise it writes again |
| ServerHandlerWrite.WouldBlockWaits | ftp_server/src/ftp/handler_write.rs:89-95 | a write that would block changes nothing and waits for WRITABLE, for a reply and for a transfer's buffer |
| ServerHandlerWrite.CommandWriteFailure | ftp_server/src/ftp/handler_write.rs:96-104 | a failed reply write shuts the socket; this server keeps the entry and asks for WRITABLE, the earlier one drops the entry and its data connection |
| ServerHandlerWrite.BufferTransferSends | ftp_server/src/ftp/handler_write.rs:272-273 | a partly sent buffer keeps the unsent rest, in order, and waits for WRITABLE |
| ServerHandlerWrite.BufferTransferFinishes | ftp_server/src/ftp/handler_write.rs:234-270 | a fully sent buffer shuts the socket, removes the entry, and a control connection in the table loses its data link and gets the 226 line; nothing else changes |
| ServerHandlerWrite.SendFileDelivers | ftp_server/src/ftp/handler_write.rs:150-214 | over a socket that never fails outright, the bytes sent are the file from the start position on; at the end the socket is shut and the control connection told, and on a blocked write nothing else changes |
| ServerHandlerWrite.SendFileSends | ftp_server/src/ftp/handler_write.rs:152-203 | the bytes sent are the file from the start position up to where sending stopped, and it stops at the end exactly when it finished |
| ServerHandlerWrite.SendFileEnds | ftp_server/src/ftp/handler_write.rs:152-213 | where the loop stops, the socket, the table and the actions are those of the end, of the blocked write, or unchanged on a short write |
| ServerHandlerWrite.SentInOrder | ftp_server/src/ftp/handler_write.rs:162 | two chunks sent one after the other are the bytes between their ends |
| ServerHandlerWrite.SendFileKeepsControlConnections | ftp_server/src/ftp/handler_write.rs:150-214 | the download loop keeps the set of control connections and removes no entry in this server |
| ServerHandlerWrite.AnswerKeepsControlConnections | ftp_server/src/ftp/handler_write.rs:123-136 | closing a transfer and answering its control connection keeps the set of control connections |
| ServerHandlerWrite.WriteKeepsControlConnections | ftp_server/src/ftp/handler_write.rs:53-121 | a write keeps the set of control connections and the connection's kind, and a reply write leaves the table alone |
| ServerHandlerWrite.HandlerWrite.constructor | ftp_server/src/ftp/handler_write.rs:20-31 | a new handler has the token, the shared table and no actions |
| ServerHandlerWrite.HandlerWrite.HandleWrite | ftp_server/src/ftp/handler_write.rs:53-121 | `handle_write` produces the connection, table, actions and result that Write describes |
| ServerDispatch.ReadWouldBlockStalls | ftp_server/src/ftp/mod.rs:425-481 | as written, a control connection whose read would block is left unchanged and not shut down, and the thread pushes nothing, so the connection deregistered at mod.rs:413 is never registered again |
| ServerDispatch.ReadWouldBlockResumes | ftp_server/src/ftp/mod.rs:471-481 | with the WouldBlock branch reached, the same connection is left unchanged and asked to be readable again; every other answer settles as written |
| ServerDispatch.ReadSettlesAsWritten | ftp_server/src/ftp/mod.rs:434-498 | a read error other than WouldBlock shuts the connection down and drops the handler's actions; a rejected line's WRITABLE request is pushed |
| ServerDispatch.WriteSettles | ftp_server/src/ftp/mod.rs:369-391 | a handler error returns before any action is pushed or the callback run (a passive listener gets nothing); a finished reply has its callback run and the connection asked to read |
| LegacyHandlerWrite.CloseConnectionRecursive | FTPserver/rust_server/ftp_server/src/ftp/handler_write.rs:10-44 | `close_connection_recursive` on the shared table leaves what CloseChain describes |
| LegacyHandlerWrite.HandlerWrite.constructor | FTPserver/rust_server/ftp_server/src/ftp/handler_write.rs:57-67 | a new handler has the token, the shared table and no actions |
| LegacyHandlerWrite.HandlerWrite.HandleWrite | FTPserver/rust_server/ftp_server/src/ftp/handler_write.rs:86-151 | `handle_write` produces the connection, table, actions and result of the shared write step with failed connections dropped from the table |
| LegacyHandlerWrite.WriteOnlyCloses | FTPserver/rust_server/ftp_server/src/ftp/handler_write.rs:77-82 | a write only removes entries and never adds a control connection; a transfer's write keeps every control connection and removes at most its own entry |
| LegacyHandlerWrite.SendFileRemovesOwn | FTPserver/rust_server/ftp_server/src/ftp/handler_write.rs:168-240 | the download loop removes its own entry or nothing |
| LegacyHandlers.CloseChain | FTPserver/rust_server/ftp_server/src/ftp/handlers.rs:10-46 | `close_connection_recursive` removes the connection and, for a control connection, its data connection; every remaining entry is unchanged, and an unknown token changes nothing |
| LegacyHandlers.CloseChainAgreesWithClosing | FTPserver/rust_server/ftp_server/src/ftp/handlers.rs:33-41 | where the data connection is a transfer or gone, the recursive close removes the same entries as the server's `close_connection` |
| LegacyHandlers.CloseConnectionRecursive | FTPserver/rust_server/ftp_server/src/ftp/handlers.rs:10-46 | on the shared table it leaves what CloseChain describes |
| LegacyHandlers.HandlerWrite.constructor | FTPserver/rust_server/ftp_server/src/ftp/handlers.rs:59-71 | a new handler has the token, the shared table and the shared action list |
| LegacyHandlers.HandlerWrite.KeepInterest | FTPserver/rust_server/ftp_server/src/ftp/handlers.rs:73-80 | `keep_interest` appends one registration for this connection to the shared action list |
| LegacyHandlers.HandlerWrite.HandleWrite | FTPserver/rust_server/ftp_server/src/ftp/handlers.rs:89-126 | `handle_write` produces the connection, table, actions and result that Write describes |
| LegacyHandlers.HandlerWrite.WriteBufferFileTransfer | FTPserver/rust_server/ftp_server/src/ftp/handlers.rs:143-195 | `write_buffer_file_transfer` produces what BufferWrite describes |
| LegacyHandlers.SplitReplyLeavesStaleOffset | FTPserver/rust_server/ftp_server/src/ftp/handlers.rs:99-106 | a three-byte reply sent as 2 then 1 bytes leaves offset 2 on the emptied buffer, and the connection asks only to read |
| LegacyHandlers.CommandWriteSendsInOrder | FTPserver/rust_server/ftp_server/src/ftp/handlers.rs:95-106 | a reply is sent in order: a partial write sends the front of what was pending, keeps the rest and asks to write again; a complete one empties the buffer with the offset left as it was and asks to read |
| LegacyHandlers.WriteKeepsStaleOnlyWhileReading | FTPserver/rust_server/ftp_server/src/ftp/handlers.rs:89-195 | every write keeps each control connection's buffer sliceable at its offset, or emptied while the connection was last asked to read; the 201 notice resets the offset (handlers.rs:163-167) |
| LegacyHandlers.WriteNeverSlicesStale | FTPserver/rust_server/ftp_server/src/ftp/handlers.rs:95-96 | under that invariant a control connection last asked to become writable slices its buffer within bounds, so the stale offset is never sliced |
| LegacyHandlers.CommandWriteFailure | FTPserver/rust_server/ftp_server/src/ftp/handlers.rs:107-116 | a failed reply write shuts the socket and drops the entry and its data connection; a blocked one waits for WRITABLE |
| LegacyHandlers.BufferTransferNotifies | FTPserver/rust_server/ftp_server/src/ftp/handlers.rs:150-186 | a buffer fully sent shuts the stream, keeps the entry, and gives a control connection the 201 line and a WRITABLE; a partial write keeps the rest |
| LegacyHandlers.ActiveTransferNotWritten | FTPserver/rust_server/ftp_server/src/ftp/handlers.rs:121-124 | only passive transfers are written: an active transfer or a listener gets NotFound and changes nothing |
| LegacyHandlers.WriteOnlyRemoves | FTPserver/rust_server/ftp_server/src/ftp/handlers.rs:89-195 | a write only removes entries and changes no kept entry except the notified control connection |
| LegacyHandlerRead.HandlerRead.constructor | FTPserver/rust_server/ftp_server/src/ftp/handler_read.rs:36-47 | a new handler has the token, the shared table and no actions |
| LegacyHandlerRead.HandlerRead.HandleRead | FTPserver/rust_server/ftp_server/src/ftp/handler_read.rs:52-313 | `handle_read` produces the connection, table, actions and result that Read describes |
| LegacyHandlerRead.HandlerRead.HandleCommand | FTPserver/rust_server/ftp_server/src/ftp/handler_read.rs:97-273 | the dispatch on a parsed command does what CommandRead describes |
| LegacyHandlerRead.HandlerRead.HandleList | FTPserver/rust_server/ftp_server/src/ftp/handler_read.rs:142-220 | LIST runs the later server's LIST step |
| LegacyHandlerRead.HandlerRead.HandlePort | FTPserver/rust_server/ftp_server/src/ftp/handler_read.rs:223-270 | PORT runs the later server's PORT step |
| LegacyHandlerRead.HandlerRead.HandleAccept | FTPserver/rust_server/ftp_server/src/ftp/handler_read.rs:276-309 | the listener's accept, as AcceptRead describes it |
| LegacyHandlerRead.HandlerRead.HandleRetr | FTPserver/rust_server/ftp_server/src/ftp/handler_read.rs:98-140 | RETR, as RetrRead describes it |
| LegacyHandlerRead.ReadFraming | FTPserver/rust_server/ftp_server/src/ftp/handler_read.rs:65-91 | a failed read is that error, a read filling the 10024-byte buffer is an error, a rejected line is answered 503 with the parser's message; none touches the table |
| LegacyHandlerRead.TransferNeedsDataConnection | FTPserver/rust_server/ftp_server/src/ftp/handler_read.rs:104-110 | RETR and LIST without a data connection answer 503 and change nothing else |
| LegacyHandlerRead.RetrAlwaysRefused | FTPserver/rust_server/ftp_server/src/ftp/handler_read.rs:113-139 | RETR with a data connection always answers 550: a resolved path is absolute and never starts with "./root/username", so it is refused for lack of access, and an unresolved one is not found; only the reply changes |
| LegacyHandlerRead.ListAnswers | FTPserver/rust_server/ftp_server/src/ftp/handler_read.rs:159-219 | LIST with a data connection answers 150 and leaves the callback filling it, or 455 when it is not in the table |
| LegacyHandlerRead.PortLinks | FTPserver/rust_server/ftp_server/src/ftp/handler_read.rs:223-270 | a PORT that connects links the control connection to the fresh id, an active transfer with nothing to send, and answers 200; otherwise 503 and nothing else changes |
| LegacyHandlerRead.AcceptDropsListener | FTPserver/rust_server/ftp_server/src/ftp/handler_read.rs:276-309 | an accept stores a passive transfer with one byte to send under the fresh id, linked to the listener's control connection, drops the listener and asks for WRITABLE and deregistration; a failed accept changes nothing |
| LegacyHandlerRead.ReadKeepsControlConnections | FTPserver/rust_server/ftp_server/src/ftp/handler_read.rs:52-313 | a read never adds or removes a control connection, keeps the connection's kind and adds at most the fresh id |
| LegacyHandlerRead.CommandKeepsControlConnections | FTPserver/rust_server/ftp_server/src/ftp/handler_read.rs:97-273 | the same, for each parsed command |
| LegacyHandlerRead.RetrKeepsControlConnections | FTPserver/rust_server/ftp_server/src/ftp/handler_read.rs:98-140 | the same, for RETR |
| LegacyHandlerRead.PortKeepsControlConnections | FTPserver/rust_server/ftp_server/src/ftp/handler_read.rs:223-270 | the same, for PORT |
| LegacyHandlerRead.RetrKeepsTable | FTPserver/rust_server/ftp_server/src/ftp/handler_read.rs:98-140 | RETR changes only the control connection's reply |
| LegacyHandlerRead.AcceptKeepsControlConnections | FTPserver/rust_server/ftp_server/src/ftp/handler_read.rs:276-309 | the same, for an accept |
| LegacyServer.DefaultBuffer | FTPserver/rust_server/ftp_server/src/ftp/mod.rs:40-44 | the default buffer is sound and has nothing pending |
| LegacyServer.NewBuffer | FTPserver/rust_server/ftp_server/src/ftp/mod.rs:47-52 | a new buffer is sound and has exactly the given bytes pending |
| LegacyServer.Reset | FTPserver/rust_server/ftp_server/src/ftp/mod.rs:54-57 | a reset buffer is sound and has exactly the given bytes pending |
| LegacyServer.ResetStr | FTPserver/rust_server/ftp_server/src/ftp/mod.rs:59-62 | a buffer reset from a text has that text's bytes pending |
| LegacyServer.ConnectionDb.constructor | FTPserver/rust_server/ftp_server/src/ftp/mod.rs:134 | the table starts empty |
| LegacyServer.TestHtmlRoundTrip | FTPserver/rust_server/ftp_server/src/ftp/mod.rs:26-34 | what an accepted passive connection is given to send (`get_test_html("HELLO")`, mod.rs:446) reads back as its body: its Content-Length is the length of the body |
| LegacyServer.Closing | FTPserver/rust_server/ftp_server/src/ftp/mod.rs:464-511 | closing removes the connection and keeps every other entry unchanged |
| LegacyServer.FtpServer.New | FTPserver/rust_server/ftp_server/src/ftp/mod.rs:132-139 | a new server has an empty table and action list, id 0 and passive port 50000 |
| LegacyServer.FtpServer.AddConnection | FTPserver/rust_server/ftp_server/src/ftp/mod.rs:141-146 | the context is stored under its token |
| LegacyServer.FtpServer.NextId | FTPserver/rust_server/ftp_server/src/ftp/mod.rs:224-227 | the id counter goes up by one and the new value is returned |
| LegacyServer.FtpServer.NewPassiveListener | FTPserver/rust_server/ftp_server/src/ftp/mod.rs:148-170 | the port and the id always advance; it succeeds exactly when the port fits, binds and registers, then stores and registers a listener for the control connection, and otherwise reports which step failed |
| LegacyServer.FtpServer.NewConnection | FTPserver/rust_server/ftp_server/src/ftp/mod.rs:229-251 | a registered connection is stored as a control connection holding the 220 greeting and registered writable; a failed registration stores nothing |
| LegacyServer.FtpServer.ReadConnection | FTPserver/rust_server/ftp_server/src/ftp/mod.rs:288-462 | `read_connection` produces the table, registrations, actions and result that Read describes |
| LegacyServer.FtpServer.ReadCommandLine | FTPserver/rust_server/ftp_server/src/ftp/mod.rs:305-426 | the control connection's read, as Read describes it, with `reregister` taken to succeed |
| LegacyServer.FtpServer.ReadPassivePort | FTPserver/rust_server/ftp_server/src/ftp/mod.rs:428-458 | the listener's accept, as Read describes it |
| LegacyServer.FtpServer.PortThread | FTPserver/rust_server/ftp_server/src/ftp/mod.rs:353-402 | the PORT thread's work on the table, as PortConnect describes it |
| LegacyServer.FtpServer.CloseConnection | FTPserver/rust_server/ftp_server/src/ftp/mod.rs:464-511 | `close_connection` leaves the table Closing describes |
| LegacyServer.ReadRejects | FTPserver/rust_server/ftp_server/src/ftp/mod.rs:311-334 | a failed read or one filling the 10024-byte buffer changes nothing; a rejected line is answered 503 with the parser's message and registers the connection writable |
| LegacyServer.ListLeavesNoReply | FTPserver/rust_server/ftp_server/src/ftp/mod.rs:340-344 | LIST leaves a bare text in the buffer, which does not read as a reply line |
| LegacyServer.PortLinks | FTPserver/rust_server/ftp_server/src/ftp/mod.rs:346-402 | PORT takes a fresh id; once connected the control connection links to it, answers 200, and the id holds an active transfer linked back; a failed connect answers 503; either way it is made writable and nothing else changes |
| LegacyServer.AcceptOnce | FTPserver/rust_server/ftp_server/src/ftp/mod.rs:428-458 | a listener accepts once: it leaves the table and the fresh id holds a passive transfer sending the test page, linked to the listener's control connection |
| LegacyServer.TransferReadPanics | FTPserver/rust_server/ftp_server/src/ftp/mod.rs:460 | reading a file transfer is not implemented and panics |
| LegacyServer.ReadKeepsStaleOnlyWhileReading | FTPserver/rust_server/ftp_server/src/ftp/mod.rs:288-462 | every read that asks for a control connection to become writable first gives it a new buffer from offset 0 (mod.rs:327, 343, 373, 381), so the invariant that stale offsets occur only while reading is kept |
| LegacyServer.AdmissionKeepsStaleOnlyWhileReading | FTPserver/rust_server/ftp_server/src/ftp/mod.rs:229-251 | a new control connection holds its greeting from offset 0 when it is registered writable |
| LegacyServer.CloseDropsLinked | FTPserver/rust_server/ftp_server/src/ftp/mod.rs:464-511 | closing drops the connection and, for a control connection, its data connection, and nothing else; an unknown token changes nothing |

## Left out

- Sockets, listeners, the `mio` poll loop (`tcp/mod.rs`), threads, `Arc`/`Mutex` locking and wakers: a socket is open or shut, the poll's registrations are recorded as actions, and what the operating system answers (bytes read or written, a bind, a registration, a connect, an accept) is a parameter.
- The later `mod.rs` `read_connection` and `write_connection` are modelled as the handler step (`ServerHandlerRead.Read`, `ServerHandlerWrite.Write`) followed by what their thread does with its answer (`ServerDispatch.SettleReadAsWritten`, `ServerDispatch.SettleWrite`): on WouldBlock the read thread only appends to `./debug.txt` and its re-registration branch is never reached, so the connection stays deregistered; on any other read error it shuts the connection down and drops the handler's actions; on success it runs the session update and pushes the actions. The write thread returns on a handler error without pushing actions or waking the poll, and on success runs the callback and pushes the actions. The lookup, the deregistration and the locking around them are not modelled.
- `shutdown`, `deregister`, `waker.wake`, file reads and seeks are taken to succeed; their error paths are not modelled.
- LegacyServer.FtpServer.ReadCommandLine: the earlier `mod.rs` `reregister(...)?` (lines 331-332 and 341-342) is taken to succeed; its error return, which leaves the new reply in the buffer with the connection still registered readable, is not modelled.
- UserRepository.SystemUsers.NextUid: `get_uid() + 1` on uid 65535 is taken to panic, as a build with overflow checks (a debug build) does; a release build wraps to 0 and would hand out uid 0 again.
- ServerHandlerWrite.HandlerWrite.HandleWrite: the connection is required to be in the table under its token, so the `assert!` on removing it (ftp_server/src/ftp/handler_write.rs:237) is excluded rather than modelled as a panic.
- LegacyHandlerWrite.HandlerWrite.HandleWrite: likewise, the `assert!` on removing the connection (FTPserver/rust_server/ftp_server/src/ftp/handler_write.rs:257) is excluded by requiring the connection in the table.
- ClientCommand.ReadLine: `Command.java` wraps `System.in` in a fresh `BufferedReader` on every prompt (lines 68-69, 83-84, 92-93, 101-102, 115), and a reader's read-ahead can swallow lines meant for the next one; the model reads the keyboard as one line cursor, so it assumes each line reaches the prompt it was typed for.
- `canonicalize` is a walk over an abstract file system without symbolic links, and it does not check that intermediate names are directories.
- The JSON user store and log files (`load_data` reads a given map), `fs::create_dir` in `create_user`, `debug.txt` and `debug_write.txt` writes, `config.rs` and `main.rs`.
- `are_equal_paths` and `total_path_non_canon` in `user_manage/src/lib.rs`: only the tests use them.
- Plain field getters of the Rust and Java classes.
- Java's and Kotlin's `parseInt`/`toInt` also accept non-ASCII Unicode digits; the model reads only ASCII digits.
- Console output (`System.out`, `println!`, `print_stdout!`) and the Kotlin UI views.
- The client's keyboard, the control connection's replies, what data connections deliver, whether each data connection's connect or accept succeeds, the local files and directories, and the names the operating system refuses to open for writing are values given up front; `FtpClient.java` is not part of this model.
- ClientSession.Transfer: besides a refused `new FileOutputStream`, the client's other file and socket operations are taken to succeed: the listening socket's bind in the `FileTransfer` constructor, writes on the data connection, `fos.write`, `readAllBytes` of a regular file and the closes; a stored file is named exactly as typed, without resolving relative paths.

## Findings

| source | as written | input that shows it | evidently intended | confidence | as-written member | corrected member |
|---|---|---|---|---|---|---|
| ftp_server/src/ftp/mod.rs:330-332 | `current_connections` is raised before `register(...)?`, so a failed registration returns early with the slot taken and no entry to release it | a failed registration with capacity 1, then a second client | count a control connection only once it is registered, so the count equals the number of control connections | not executed | ServerState.AdmissionAsWrittenLeaksSlot | ServerState.AdmissionCountsExactly |
| ftp_server/src/ftp/mod.rs:440-481 | when `handle_read` answers WouldBlock the thread only logs to `./debug.txt`; the branch that pushes a READABLE request (`else if is_would_block`) comes after an `if is_would_block` and is never reached, so the connection, deregistered before the read, is never polled again | a readable event on a control connection whose read then would block | push the READABLE request, as the unreachable branch does, so the next command is read | not executed | ServerDispatch.ReadWouldBlockStalls | ServerDispatch.ReadWouldBlockResumes |
