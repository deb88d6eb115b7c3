/**
 * What the later server's `read_connection` and `write_connection` (ftp_server/src/ftp/mod.rs)
 * do once the handler they run on a thread has answered: which actions reach the shared action
 * list, whether the connection is shut down, and which callback runs.
 */
module ServerDispatch {
  import opened Ascii
  import opened Wrappers
  import opened ServerState
  import HR = ServerHandlerRead
  import HW = ServerHandlerWrite
  import SC = ServerCommand

  /**
   * What the thread `read_connection` spawns does with `handle_read`'s answer: the actions it
   * pushes, whether it shuts the connection down, and the session update it applies.
   */
  datatype ReadSettled = ReadSettled(pushed: seq<Action>, shutdown: bool, update: Option<SessionUpdate>)

  /**
   * The thread as written. WouldBlock is only logged (to `./debug.txt`): the connection, which
   * `read_connection` deregistered before the read, is not asked for again. Any other error
   * shuts the connection down and drops the handler's actions; a panic ends the thread; success
   * applies the update and then pushes the handler's actions.
   */
  function SettleReadAsWritten(e: HR.ReadEffect): ReadSettled
  {
    match e.result
    case Done(update) => ReadSettled(e.actions, false, update)
    case IoError(kind) => ReadSettled([], kind != WouldBlock, None)
    case Panicked => ReadSettled([], false, None)
  }

  /** The thread with its WouldBlock branch reached: the connection is asked to be readable again. */
  function SettleRead(token: Token, e: HR.ReadEffect): ReadSettled
  {
    if e.result == IoError(WouldBlock) then ReadSettled([Action(token, Readable)], false, None)
    else SettleReadAsWritten(e)
  }

  /**
   * As written, a control connection whose read would block is left as it was, not shut down,
   * and nothing asks for it to be registered again: it is never read from again.
   */
  lemma ReadWouldBlockStalls(token: Token, own: RequestType, m: Table, env: HR.ReadEnv, nextId: Token)
    requires HR.ReadPre(token, own, m, env, nextId) && own.CommandTransfer? && env.received == Fails(WouldBlock)
    ensures var e := HR.Read(token, own, m, env, nextId); var s := SettleReadAsWritten(e);
      && e.own == own && e.table == m
      && s.pushed == [] && !s.shutdown && s.update.None?
  {
  }

  /**
   * With the WouldBlock branch reached, the same connection is left as it was and asked to be
   * readable again, so the next command is read; every other answer settles as written.
   */
  lemma ReadWouldBlockResumes(token: Token, own: RequestType, m: Table, env: HR.ReadEnv, nextId: Token)
    requires HR.ReadPre(token, own, m, env, nextId)
    ensures var e := HR.Read(token, own, m, env, nextId); var s := SettleRead(token, e);
      && (own.CommandTransfer? && env.received == Fails(WouldBlock) ==>
            && e.own == own && e.table == m
            && s.pushed == [Action(token, Readable)] && !s.shutdown && s.update.None?)
      && (e.result != IoError(WouldBlock) ==> s == SettleReadAsWritten(e))
  {
  }

  /**
   * A read's actions reach the action list only when the handler succeeds: a rejected line's
   * request to become writable is pushed, while a read that fails otherwise shuts the
   * connection down and pushes nothing.
   */
  lemma ReadSettlesAsWritten(token: Token, own: RequestType, m: Table, env: HR.ReadEnv, nextId: Token)
    requires HR.ReadPre(token, own, m, env, nextId) && own.CommandTransfer?
    ensures var e := HR.Read(token, own, m, env, nextId); var s := SettleReadAsWritten(e);
      && (env.received.Fails? && env.received.kind != WouldBlock ==> s == ReadSettled([], true, None))
      && (env.received.Gives? && LF in env.received.value && |env.received.value| < HR.ReadBufferSize &&
          SC.Parse(env.received.value).Rejected? ==>
            s == ReadSettled([Action(token, Writable)], false, None))
  {
  }

  /** What the thread `write_connection` spawns does with `handle_write`'s answer: the actions it pushes and the callback it runs. */
  datatype WriteSettled = WriteSettled(pushed: seq<Action>, callback: Option<Callback>)

  /**
   * The thread as written: on an error (or a panic) it returns at once, so the handler's
   * actions are dropped and nothing wakes the poll; on success it runs the callback, then
   * pushes the handler's actions.
   */
  function SettleWrite(e: HW.WriteEffect): WriteSettled
  {
    match e.result
    case Done(callback) => WriteSettled(e.actions, callback)
    case _ => WriteSettled([], None)
  }

  /**
   * A control connection that finishes its reply has its callback run and is then asked to be
   * readable; a passive listener, which the handler refuses, gets nothing pushed.
   */
  lemma WriteSettles(token: Token, own: RequestType, m: Table, env: HW.WriteEnv)
    requires HW.WritePre(token, own, m, env)
    ensures var s := SettleWrite(HW.Write(HW.ReRegister, token, own, m, env));
      && (own.PassiveModePort? ==> s == WriteSettled([], None))
      && (own.CommandTransfer? && env.written.Gives? && env.written.value == |Pending(own.toWrite)| ==>
            s == WriteSettled([Action(token, Readable)], own.toWrite.callback))
  {
  }
}
