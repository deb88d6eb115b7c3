/**
 * Reply codes of the server (ftp_server/src/ftp/response.rs): a code is the sum of a category
 * (the first digit, section 4.2.1 of RFC 959), a group (the second digit) and a last digit.
 */
module ReplyCodes {
  import opened Ascii

  /** The first digit of a reply: how the command went. */
  datatype CodeFirst =
    | PositivePreliminary
    | Positive
    | PositiveIntermediate
    | TransientNegativeCompletion
    | PermanentNegativeCompletion

  /** The second digit of a reply: what the reply is about. */
  datatype CodeSecond =
    | Syntax
    | Information
    | Connections
    | AuthenticationAndAccounting
    | Unspecified
    | FileSystem

  /** The enum discriminant `CodeFirst as u16`. */
  function FirstValue(f: CodeFirst): nat
  {
    match f
    case PositivePreliminary => 100
    case Positive => 200
    case PositiveIntermediate => 300
    case TransientNegativeCompletion => 400
    case PermanentNegativeCompletion => 500
  }

  /** The enum discriminant `CodeSecond as u16`. */
  function SecondValue(s: CodeSecond): nat
  {
    match s
    case Syntax => 0
    case Information => 10
    case Connections => 20
    case AuthenticationAndAccounting => 30
    case Unspecified => 40
    case FileSystem => 50
  }

  /** `new_from_enums`: the sum of the parts, which never leaves `u16` (at most 805). */
  function NewFromEnums(first: CodeFirst, second: CodeSecond, lastDigit: byte): (code: nat)
    ensures 100 <= code < 0x1_0000
  {
    FirstValue(first) + SecondValue(second) + lastDigit
  }

  /**
   * With a last digit of at most 9 the hundreds digit of a code is its category, the tens digit
   * its group and the units its last digit: a three-digit code whose first digit is 1 to 5.
   */
  lemma {:induction false} NewFromEnumsDigits(first: CodeFirst, second: CodeSecond, lastDigit: byte)
    requires lastDigit <= 9
    ensures NewFromEnums(first, second, lastDigit) / 100 == FirstValue(first) / 100
    ensures NewFromEnums(first, second, lastDigit) / 10 % 10 == SecondValue(second) / 10
    ensures NewFromEnums(first, second, lastDigit) % 10 == lastDigit
    ensures NewFromEnums(first, second, lastDigit) <= 559
  {
    var h, t := FirstValue(first), SecondValue(second);
    assert h % 100 == 0 && 100 <= h <= 500;
    assert t % 10 == 0 && t <= 50;
    var code := h + t + lastDigit;
    assert code == 100 * (h / 100) + 10 * (t / 10) + lastDigit;
    DigitsOf(h / 100, t / 10, lastDigit);
  }

  /** Decimal digits of a three-digit number. */
  lemma DigitsOf(a: nat, b: nat, c: nat)
    requires b <= 9 && c <= 9
    ensures (100 * a + 10 * b + c) / 100 == a
    ensures (100 * a + 10 * b + c) / 10 % 10 == b
    ensures (100 * a + 10 * b + c) % 10 == c
  {
    var n := 100 * a + 10 * b + c;
    assert n == 10 * (10 * a + b) + c;
    assert n / 10 == 10 * a + b;
    assert (10 * a + b) % 10 == b;
  }

  /** With last digits of at most 9, the parts of a code are determined by the code. */
  lemma NewFromEnumsInjective(f1: CodeFirst, s1: CodeSecond, d1: byte, f2: CodeFirst, s2: CodeSecond, d2: byte)
    requires d1 <= 9 && d2 <= 9
    requires NewFromEnums(f1, s1, d1) == NewFromEnums(f2, s2, d2)
    ensures f1 == f2 && s1 == s2 && d1 == d2
  {
    NewFromEnumsDigits(f1, s1, d1);
    NewFromEnumsDigits(f2, s2, d2);
  }

  function ServiceReady(): (c: nat)
    ensures c == 220
  {
    NewFromEnums(Positive, Connections, 0)
  }

  function SuccessTransferingFile(): (c: nat)
    ensures c == 201
  {
    NewFromEnums(Positive, Syntax, 1)
  }

  function SuccessUploadingFile(): (c: nat)
    ensures c == 226
  {
    NewFromEnums(Positive, Connections, 6)
  }

  function ClosingDataConnection(): (c: nat)
    ensures c == 226
  {
    NewFromEnums(Positive, Connections, 6)
  }

  function FileActionNotTaken(): (c: nat)
    ensures c == 553
  {
    NewFromEnums(PermanentNegativeCompletion, FileSystem, 3)
  }

  function CommandOkay(): (c: nat)
    ensures c == 200
  {
    NewFromEnums(Positive, Syntax, 0)
  }

  function BadSequenceOfCommands(): (c: nat)
    ensures c == 503
  {
    NewFromEnums(PermanentNegativeCompletion, Syntax, 3)
  }

  function LoginSuccess(): (c: nat)
    ensures c == 230
  {
    NewFromEnums(Positive, AuthenticationAndAccounting, 0)
  }

  function Unauthorized(): (c: nat)
    ensures c == 530
  {
    NewFromEnums(PermanentNegativeCompletion, AuthenticationAndAccounting, 0)
  }

  function UsernameOkay(): (c: nat)
    ensures c == 331
  {
    NewFromEnums(PositiveIntermediate, AuthenticationAndAccounting, 1)
  }

  function PassiveOk(): (c: nat)
    ensures c == 227
  {
    NewFromEnums(Positive, Connections, 7)
  }

  function AllPortsTaken(): (c: nat)
    ensures c == 541
  {
    NewFromEnums(PermanentNegativeCompletion, Unspecified, 1)
  }

  function ClosingControlConnectionSuccess(): (c: nat)
    ensures c == 221
  {
    NewFromEnums(Positive, Connections, 1)
  }

  function FileUnavailable(): (c: nat)
    ensures c == 550
  {
    NewFromEnums(PermanentNegativeCompletion, FileSystem, 0)
  }

  function FileBusy(): (c: nat)
    ensures c == 450
  {
    NewFromEnums(TransientNegativeCompletion, FileSystem, 0)
  }

  function FileStatusOkay(): (c: nat)
    ensures c == 150
  {
    NewFromEnums(PositivePreliminary, FileSystem, 0)
  }

  function FileActionOkay(): (c: nat)
    ensures c == 250
  {
    NewFromEnums(Positive, FileSystem, 0)
  }

  function FileActionPending(): (c: nat)
    ensures c == 350
  {
    NewFromEnums(PositiveIntermediate, FileSystem, 0)
  }

  function DirectoryActionOkay(): (c: nat)
    ensures c == 257
  {
    NewFromEnums(Positive, FileSystem, 7)
  }

  /**
   * `cant_open_data_connection` is built in the file-system group, so it is 455; section 4.2.2
   * of RFC 959 gives 425 (the connections group) for "Can't open data connection".
   */
  function CantOpenDataConnection(): (c: nat)
    ensures c == 455
    ensures NewFromEnums(TransientNegativeCompletion, Connections, 5) == 425 != c
  {
    NewFromEnums(TransientNegativeCompletion, FileSystem, 5)
  }

  /** The two replies that close a data transfer are the same code. */
  lemma TransferClosingCodesAgree()
    ensures SuccessUploadingFile() == ClosingDataConnection()
  {
  }
}
