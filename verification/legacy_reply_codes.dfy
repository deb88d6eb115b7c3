/**
 * Reply codes of the earlier server (FTPserver/rust_server/ftp_server/src/ftp/response.rs): the
 * same categories and groups as the later server, and only two named replies.
 */
module LegacyReplyCodes {
  import opened Ascii
  import RC = ReplyCodes

  /** `Response::new_from_enums`: the same sum of discriminants as the later server's. */
  function NewFromEnums(first: RC.CodeFirst, second: RC.CodeSecond, lastDigit: byte): (code: nat)
    ensures code == RC.NewFromEnums(first, second, lastDigit)
    ensures lastDigit <= 9 ==>
      && code / 100 == RC.FirstValue(first) / 100
      && code / 10 % 10 == RC.SecondValue(second) / 10
      && code % 10 == lastDigit
  {
    if lastDigit <= 9 then
      RC.NewFromEnumsDigits(first, second, lastDigit);
      RC.FirstValue(first) + RC.SecondValue(second) + lastDigit
    else
      RC.FirstValue(first) + RC.SecondValue(second) + lastDigit
  }

  function ServiceReady(): (c: nat)
    ensures c == 220 == RC.ServiceReady()
  {
    NewFromEnums(RC.Positive, RC.Connections, 0)
  }

  function SuccessTransferingFile(): (c: nat)
    ensures c == 201 == RC.SuccessTransferingFile()
  {
    NewFromEnums(RC.Positive, RC.Syntax, 1)
  }
}
