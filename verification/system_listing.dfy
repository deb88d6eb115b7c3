/**
 * Directory listing and path clean-up of the later server (ftp_server/src/system/mod.rs). The
 * directory read and the canonical working directory are parameters; paths are UTF-8 bytes.
 */
module SystemListing {
  import opened Ascii
  import opened Utf8
  import opened Wrappers

  /** One item of `read_dir`: an entry whose read failed, or the path of the entry. */
  datatype DirEntry = Unreadable | Entry(path: seq<byte>)

  /** What `ls` ends in: the listing, the error of `read_dir`, or the panic of `to_str().unwrap()`. */
  datatype ListOutcome = Listed(bytes: seq<byte>) | ReadDirFailed | Panicked

  /** The line `ls` writes for one item: nothing for a failed read. */
  function EntryLine(e: DirEntry): seq<byte>
  {
    match e
    case Unreadable => []
    case Entry(p) => p + CRLF
  }

  /** The lines of the items, in the order `read_dir` yields them. */
  function Lines(es: seq<DirEntry>): seq<byte>
  {
    if es == [] then [] else Lines(es[..|es| - 1]) + EntryLine(es[|es| - 1])
  }

  /** An item whose path is not UTF-8 makes `to_str()` return None, and the unwrap panics. */
  predicate Printable(e: DirEntry)
  {
    e.Entry? ==> ValidUtf8(e.path)
  }

  /** The outcome of `ls` for the result of `read_dir`. */
  function Listing(dir: Option<seq<DirEntry>>): ListOutcome
  {
    match dir
    case None => ReadDirFailed
    case Some(es) => if AllPrintable(es) then Listed(Lines(es)) else Panicked
  }

  predicate AllPrintable(es: seq<DirEntry>)
  {
    forall k | 0 <= k < |es| :: Printable(es[k])
  }

  /** The items read so far are printable when those before were and the last one is. */
  lemma AllPrintableStep(es: seq<DirEntry>, i: nat)
    requires i < |es|
    ensures AllPrintable(es[..i + 1]) <==> AllPrintable(es[..i]) && Printable(es[i])
  {
    assert es[..i + 1][i] == es[i];
    assert forall k | 0 <= k < i :: es[..i + 1][k] == es[..i][k];
  }

  /** `ls`: reads the directory named by the cleaned path and appends one line per readable item. */
  method Ls(path: seq<byte>, cwd: seq<byte>, readDir: seq<byte> -> Option<seq<DirEntry>>)
    returns (r: ListOutcome)
    ensures r == Listing(readDir(ClearPath(path, cwd)))
  {
    var dir := readDir(ClearPath(path, cwd));
    if dir.None? {
      return ReadDirFailed;
    }
    var es := dir.value;
    var buff: seq<byte> := [];
    var i := 0;
    while i < |es|
      invariant 0 <= i <= |es|
      invariant buff == Lines(es[..i])
      invariant AllPrintable(es[..i])
    {
      LinesStep(es, i);
      AllPrintableStep(es, i);
      if es[i].Entry? {
        if !ValidUtf8(es[i].path) {
          NotAllPrintable(es, i);
          return Panicked;
        }
        buff := buff + es[i].path + CRLF;
      }
      i := i + 1;
    }
    assert es[..i] == es;
    r := Listed(buff);
  }

  /** One unprintable item makes the whole run unprintable. */
  lemma NotAllPrintable(es: seq<DirEntry>, i: nat)
    requires i < |es| && es[i].Entry? && !ValidUtf8(es[i].path)
    ensures !AllPrintable(es)
  {
    assert !Printable(es[i]);
  }

  /** One more item adds its line. */
  lemma LinesStep(es: seq<DirEntry>, i: nat)
    requires i < |es|
    ensures Lines(es[..i + 1]) == Lines(es[..i]) + EntryLine(es[i])
  {
    assert es[..i + 1][..i] == es[..i];
  }

  /** The listing of two runs of items is the listing of the first followed by that of the second. */
  lemma {:induction false} LinesAppend(a: seq<DirEntry>, b: seq<DirEntry>)
    ensures Lines(a + b) == Lines(a) + Lines(b)
    decreases |b|
  {
    if b == [] {
      assert a + b == a;
    } else {
      var init, last := b[..|b| - 1], b[|b| - 1];
      calc {
        Lines(a + b);
        == { assert a + b == (a + init) + [last]; }
        Lines((a + init) + [last]);
        == { LinesSnoc(a + init, last); }
        Lines(a + init) + EntryLine(last);
        == { LinesAppend(a, init); }
        (Lines(a) + Lines(init)) + EntryLine(last);
        == { ConcatAssoc(Lines(a), Lines(init), EntryLine(last)); }
        Lines(a) + (Lines(init) + EntryLine(last));
        == { assert b == init + [last]; LinesSnoc(init, last); }
        Lines(a) + Lines(b);
      }
    }
  }

  lemma ConcatAssoc(x: seq<byte>, y: seq<byte>, z: seq<byte>)
    ensures (x + y) + z == x + (y + z)
  {
  }

  /** One item after a run adds its line. */
  lemma LinesSnoc(es: seq<DirEntry>, e: DirEntry)
    ensures Lines(es + [e]) == Lines(es) + EntryLine(e)
  {
    assert (es + [e])[..|es|] == es;
  }

  /** The listing is empty exactly when no item could be read. */
  lemma {:induction false} LinesEmpty(es: seq<DirEntry>)
    ensures Lines(es) == [] <==> forall k | 0 <= k < |es| :: es[k] == Unreadable
  {
    if es != [] {
      var init, last := es[..|es| - 1], es[|es| - 1];
      LinesEmpty(init);
      assert Lines(es) == Lines(init) + EntryLine(last);
      EntryLineEmpty(last);
      AllUnreadableSplit(es, init);
    }
  }

  /** An item gives no line exactly when it could not be read. */
  lemma EntryLineEmpty(e: DirEntry)
    ensures EntryLine(e) == [] <==> e == Unreadable
  {
    if e.Entry? {
      assert |EntryLine(e)| >= |CRLF|;
    }
  }

  /** No item of a run could be read exactly when none of its first part and not its last could. */
  lemma AllUnreadableSplit(es: seq<DirEntry>, init: seq<DirEntry>)
    requires es != [] && init == es[..|es| - 1]
    ensures (forall k | 0 <= k < |es| :: es[k] == Unreadable) <==>
      (forall k | 0 <= k < |init| :: init[k] == Unreadable) && es[|es| - 1] == Unreadable
  {
    assert forall k | 0 <= k < |init| :: init[k] == es[k];
  }

  /** A listing with a readable item ends in CR LF, and it is at least that long. */
  lemma {:induction false} LinesEndInCrlf(es: seq<DirEntry>)
    requires exists k | 0 <= k < |es| :: es[k].Entry?
    ensures |Lines(es)| >= 2 && Lines(es)[|Lines(es)| - 2..] == CRLF
  {
    var init := es[..|es| - 1];
    if es[|es| - 1].Unreadable? {
      var k :| 0 <= k < |es| && es[k].Entry?;
      assert init[k] == es[k];
      LinesEndInCrlf(init);
    }
  }

  /** `pat` occurs in `s` starting at `j`. */
  predicate OccursAt(s: seq<byte>, pat: seq<byte>, j: nat)
  {
    j + |pat| <= |s| && s[j..j + |pat|] == pat
  }

  /** Where the first occurrence of `pat` in `s` at or after `from` starts, if any. */
  function FindFrom(s: seq<byte>, pat: seq<byte>, from: nat): (r: Option<nat>)
    requires from <= |s|
    ensures r.Some? ==> from <= r.value && OccursAt(s, pat, r.value)
    ensures forall j: nat | from <= j && (r.Some? ==> j < r.value) :: !OccursAt(s, pat, j)
    decreases |s| - from
  {
    if from + |pat| > |s| then None
    else if s[from..from + |pat|] == pat then Some(from)
    else FindFrom(s, pat, from + 1)
  }

  /** Rust's `replacen(pat, rep, 1)`: the first occurrence of `pat` replaced by `rep`. */
  function ReplaceFirst(s: seq<byte>, pat: seq<byte>, rep: seq<byte>): (r: seq<byte>)
  {
    match FindFrom(s, pat, 0)
    case None => s
    case Some(i) => assert OccursAt(s, pat, i); s[..i] + rep + s[i + |pat|..]
  }

  /** A text that starts with `pat` loses that start. */
  lemma ReplaceFirstAtStart(s: seq<byte>, pat: seq<byte>, rep: seq<byte>)
    requires OccursAt(s, pat, 0)
    ensures ReplaceFirst(s, pat, rep) == rep + s[|pat|..]
  {
    assert FindFrom(s, pat, 0) == Some(0);
  }

  /** `clear_path`: the first occurrence of the canonical working directory becomes `.`. */
  function ClearPath(path: seq<byte>, cwd: seq<byte>): seq<byte>
  {
    ReplaceFirst(path, cwd, ['.' as int])
  }

  /** A path that does not hold the working directory is left as it is. */
  lemma ClearPathUnchanged(path: seq<byte>, cwd: seq<byte>)
    requires forall j: nat :: !OccursAt(path, cwd, j)
    ensures ClearPath(path, cwd) == path
  {
  }

  /** Only the first occurrence is replaced: what follows it is kept, later occurrences included. */
  lemma ClearPathFirst(path: seq<byte>, cwd: seq<byte>, i: nat)
    requires OccursAt(path, cwd, i)
    requires forall j: nat | j < i :: !OccursAt(path, cwd, j)
    ensures ClearPath(path, cwd) == path[..i] + ['.' as int] + path[i + |cwd|..]
  {
  }

  /** A path under the working directory comes back relative to it, as `./root/user_01` does. */
  lemma ClearPathOfChild(cwd: seq<byte>, rest: seq<byte>)
    ensures ClearPath(cwd + rest, cwd) == ['.' as int] + rest
  {
    var path := cwd + rest;
    assert OccursAt(path, cwd, 0) by { assert path[0..|cwd|] == cwd; }
    ClearPathFirst(path, cwd, 0);
    assert path[|cwd|..] == rest;
  }
}
