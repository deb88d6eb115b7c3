/**
 * The user repository (user_manage/src/lib.rs): users keyed by name, each with a password, a
 * chroot, a uid and a current directory inside the chroot. Names, passwords and paths are the
 * UTF-8 bytes of Rust `String`s. The file system is a parameter (see FsPaths); the log file, the
 * JSON store and the directories `create_dir` makes are not part of this model.
 */
module UserRepository {
  import opened Ascii
  import opened Wrappers
  import opened Utf8
  import opened FsPaths
  import SL = SystemListing

  /** What a call ends in: its value, its `Err` message, or a panic. */
  datatype Outcome<T> = Done(value: T) | Failed(message: string) | Panicked

  const AlreadyExists := "User already exists"
  const InvalidPassword := "Invalid password"
  const NoSuchUser := "User do not exists"
  const DirectoryNotFound := "Directory not found"
  const InvalidDirectory := "Invalid directory"

  /** Where every chroot lives: `./root/<name>`. */
  const RootPrefix: seq<byte> := [DOT, SLASH, 114, 111, 111, 116, SLASH]

  /** The current directory of a fresh user, `./`. */
  const Here: seq<byte> := [DOT, SLASH]

  /** The path `change_dir` and `new_dir` agree on: the request written below the chroot, and where it leads. */
  datatype Resolution = Resolution(finalPath: seq<byte>, target: Canonical)

  /**
   * The part `change_dir` and `new_dir` share. The chroot is canonicalized (`unwrap`); the request
   * is pushed on the current directory and written as `./<path>` (`to_str().unwrap()`), joined
   * to the chroot and canonicalized; the target must lie under the canonical chroot.
   */
  function Resolve(fs: FileSystem, chroot: seq<byte>, actualDir: seq<byte>, newDir: seq<byte>): Outcome<Resolution>
  {
    match Canonicalize(fs, chroot)
    case None => Panicked
    case Some(root) =>
      var pathBuf := PathBuf(actualDir, newDir);
      if !ValidUtf8(pathBuf) then Panicked
      else Confine(root, Here + pathBuf, Canonicalize(fs, Push(chroot, Here + pathBuf)))
  }

  /** The buffer `change_dir` builds: an empty `PathBuf` with the current directory and then the request pushed on it. */
  function PathBuf(actualDir: seq<byte>, newDir: seq<byte>): seq<byte>
  {
    Push(Push([], actualDir), newDir)
  }

  /** The check on the canonical target: not found, outside the chroot, or the new directory. */
  function Confine(root: Canonical, finalPath: seq<byte>, total: Option<Canonical>): (r: Outcome<Resolution>)
  {
    match total
    case None => Failed(DirectoryNotFound)
    case Some(t) => if Under(t, root) then Done(Resolution(finalPath, t)) else Failed(InvalidDirectory)
  }

  /**
   * What holds of a user between calls: the current directory is text written `./…`, and it
   * resolves, from the chroot, to a path under the canonical chroot.
   */
  predicate Confined(fs: FileSystem, chroot: seq<byte>, actualDir: seq<byte>)
  {
    && ValidUtf8(actualDir) && |actualDir| >= 2 && actualDir[..2] == Here
    && Canonicalize(fs, chroot).Some?
    && Canonicalize(fs, Push(chroot, actualDir)).Some?
    && Under(Canonicalize(fs, Push(chroot, actualDir)).value, Canonicalize(fs, chroot).value)
  }

  /**
   * Where a request leads: an absolute path is walked from the canonical chroot, a relative one
   * from the current directory.
   */
  lemma ResolveTarget(fs: FileSystem, chroot: seq<byte>, actualDir: seq<byte>, newDir: seq<byte>)
    requires actualDir != [] && !IsAbsolute(actualDir)
    requires Canonicalize(fs, chroot).Some?
    ensures Canonicalize(fs, Push(chroot, Here + PathBuf(actualDir, newDir))) ==
      if IsAbsolute(newDir) then Walk(fs, Canonicalize(fs, chroot).value, Pieces(newDir))
      else (match Canonicalize(fs, Push(chroot, actualDir)) case None => None case Some(here) => Walk(fs, here, Pieces(newDir)))
  {
    var root := Canonicalize(fs, chroot).value;
    var pathBuf := PathBuf(actualDir, newDir);
    assert Push([], actualDir) == actualDir;
    PushRelative(fs, chroot, Here + pathBuf);
    DotSlash(fs, root, pathBuf);
    if !IsAbsolute(newDir) {
      WalkPush(fs, root, actualDir, newDir);
      PushRelative(fs, chroot, actualDir);
    }
  }

  /** `change_dir` to a path that leads outside the chroot fails; to one that leads inside it succeeds, or it is not found. */
  lemma ResolveOutcome(fs: FileSystem, chroot: seq<byte>, actualDir: seq<byte>, newDir: seq<byte>)
    requires Confined(fs, chroot, actualDir) && ValidUtf8(newDir)
    ensures var root := Canonicalize(fs, chroot).value;
      var here := Canonicalize(fs, Push(chroot, actualDir)).value;
      var target := Walk(fs, if IsAbsolute(newDir) then root else here, Pieces(newDir));
      && (Resolve(fs, chroot, actualDir, newDir).Done? <==> target.Some? && Under(target.value, root))
      && (Resolve(fs, chroot, actualDir, newDir) == Failed(DirectoryNotFound) <==> target.None?)
      && (Resolve(fs, chroot, actualDir, newDir) == Failed(InvalidDirectory) <==> target.Some? && !Under(target.value, root))
      && (Resolve(fs, chroot, actualDir, newDir).Done? ==> Resolve(fs, chroot, actualDir, newDir).value.target == target.value)
  {
    var root := Canonicalize(fs, chroot).value;
    var pathBuf := PathBuf(actualDir, newDir);
    ResolveTarget(fs, chroot, actualDir, newDir);
    PushText(actualDir, newDir);
    ResolveIsConfine(fs, chroot, actualDir, newDir);
    ConfineCases(root, Here + pathBuf, Canonicalize(fs, Push(chroot, Here + pathBuf)));
  }

  /** Once the chroot and the pushed request are both sound, `Resolve` is the check `Confine` makes. */
  lemma ResolveIsConfine(fs: FileSystem, chroot: seq<byte>, actualDir: seq<byte>, newDir: seq<byte>)
    requires Canonicalize(fs, chroot).Some? && ValidUtf8(PathBuf(actualDir, newDir))
    ensures Resolve(fs, chroot, actualDir, newDir)
         == Confine(Canonicalize(fs, chroot).value, Here + PathBuf(actualDir, newDir),
                    Canonicalize(fs, Push(chroot, Here + PathBuf(actualDir, newDir))))
  {
  }

  /** `Confine` fails with "not found" exactly when there is no target, and with "invalid" exactly when it is outside the root. */
  lemma ConfineCases(root: Canonical, finalPath: seq<byte>, total: Option<Canonical>)
    ensures Confine(root, finalPath, total).Done? <==> total.Some? && Under(total.value, root)
    ensures Confine(root, finalPath, total) == Failed(DirectoryNotFound) <==> total.None?
    ensures Confine(root, finalPath, total) == Failed(InvalidDirectory) <==> total.Some? && !Under(total.value, root)
    ensures Confine(root, finalPath, total).Done? ==> Confine(root, finalPath, total).value == Resolution(finalPath, total.value)
  {
  }

  /** Pushing text on text gives text. */
  lemma PushText(base: seq<byte>, p: seq<byte>)
    requires ValidUtf8(base) && ValidUtf8(p)
    ensures ValidUtf8(PathBuf(base, p))
  {
    assert Push([], base) == base;
    if !IsAbsolute(p) {
      if |base| > 0 && base[|base| - 1] != SLASH {
        AsciiBytesValid([SLASH]);
        ValidUtf8Concat(base, [SLASH]);
        ValidUtf8Concat(base + [SLASH], p);
      } else {
        ValidUtf8Concat(base, p);
      }
    }
  }

  /** A successful resolution leaves a confined current directory. */
  lemma ResolveConfines(fs: FileSystem, chroot: seq<byte>, actualDir: seq<byte>, newDir: seq<byte>)
    requires Resolve(fs, chroot, actualDir, newDir).Done?
    ensures Confined(fs, chroot, Resolve(fs, chroot, actualDir, newDir).value.finalPath)
    ensures Canonicalize(fs, Push(chroot, Resolve(fs, chroot, actualDir, newDir).value.finalPath)) ==
      Some(Resolve(fs, chroot, actualDir, newDir).value.target)
  {
    var root := Canonicalize(fs, chroot).value;
    var pathBuf := PathBuf(actualDir, newDir);
    var finalPath := Here + pathBuf;
    assert ValidUtf8(pathBuf);
    assert Canonicalize(fs, Push(chroot, finalPath)).Some?;
    assert Under(Canonicalize(fs, Push(chroot, finalPath)).value, root);
    AsciiBytesValid(Here);
    ValidUtf8Concat(Here, pathBuf);
    assert finalPath[..2] == Here;
  }

  /** ".." from the top of the chroot leaves it, and is refused. */
  lemma ParentOfChrootRefused(fs: FileSystem, chroot: seq<byte>, actualDir: seq<byte>)
    requires Confined(fs, chroot, actualDir)
    requires Canonicalize(fs, Push(chroot, actualDir)) == Canonicalize(fs, chroot)
    requires Canonicalize(fs, chroot).value != []
    ensures Resolve(fs, chroot, actualDir, [DOT, DOT]) == Failed(InvalidDirectory)
  {
    var root := Canonicalize(fs, chroot).value;
    NoSlashOnePiece([DOT, DOT]);
    assert Walk(fs, root, Pieces([DOT, DOT])) == Some(Parent(root)) by {
      assert Walk(fs, root, [[DOT, DOT]]) == Walk(fs, Parent(root), []);
    }
    assert !Under(Parent(root), root);
    AsciiBytesValid([DOT, DOT]);
    ResolveOutcome(fs, chroot, actualDir, [DOT, DOT]);
  }

  /** "/" always leads back to the top of the chroot, from any current directory. */
  lemma SlashReturnsToChroot(fs: FileSystem, chroot: seq<byte>, actualDir: seq<byte>)
    requires chroot != [] && Canonicalize(fs, chroot).Some?
    ensures Resolve(fs, chroot, actualDir, [SLASH]) == Done(Resolution(Here + [SLASH], Canonicalize(fs, chroot).value))
  {
    var root := Canonicalize(fs, chroot).value;
    AsciiBytesValid([SLASH]);
    assert PathBuf(actualDir, [SLASH]) == [SLASH];
    assert Resolve(fs, chroot, actualDir, [SLASH]) == Confine(root, Here + [SLASH], Canonicalize(fs, Push(chroot, Here + [SLASH])));
    PushRelative(fs, chroot, Here + [SLASH]);
    SlashWalksNowhere(fs, root);
  }

  /** Walking `./` and then `/` from a directory stays in it. */
  lemma SlashWalksNowhere(fs: FileSystem, at: Canonical)
    ensures Walk(fs, at, Pieces(Here + [SLASH])) == Some(at)
  {
    DotSlash(fs, at, [SLASH]);
    assert [SLASH] == [] + [SLASH] + [];
    PiecesConcat([], []);
    WalkStays(fs, at, Pieces([SLASH]));
  }

  /**
   * `new_dir`: the same resolution as `change_dir`, answering the canonical target written out
   * (`to_str().unwrap()`).
   */
  function NewDir(fs: FileSystem, chroot: seq<byte>, actualDir: seq<byte>, newDir: seq<byte>): (r: Outcome<seq<byte>>)
    ensures r.Done? ==> Resolve(fs, chroot, actualDir, newDir).Done?
    ensures r.Failed? <==> Resolve(fs, chroot, actualDir, newDir).Failed?
    ensures r.Failed? ==> r == Failed(Resolve(fs, chroot, actualDir, newDir).message)
  {
    match Resolve(fs, chroot, actualDir, newDir)
    case Panicked => Panicked
    case Failed(m) => Failed(m)
    case Done(res) => if ValidUtf8(Display(res.target)) then Done(Display(res.target)) else Panicked
  }

  /** The path `new_dir` answers canonicalizes back to where `change_dir` would go. */
  lemma NewDirRoundTrip(fs: FileSystem, chroot: seq<byte>, actualDir: seq<byte>, newDir: seq<byte>)
    requires WellFormed(fs) && NewDir(fs, chroot, actualDir, newDir).Done?
    ensures Canonicalize(fs, NewDir(fs, chroot, actualDir, newDir).value) == Some(Resolve(fs, chroot, actualDir, newDir).value.target)
  {
    var res := Resolve(fs, chroot, actualDir, newDir).value;
    CanonicalizeIdempotent(fs, Push(chroot, res.finalPath));
  }

  /**
   * `total_path_and_decano`: the canonical current directory written out, with the first
   * occurrence of the canonical chroot removed, and "/" when nothing is left; None for the
   * panics of its `unwrap`s.
   */
  function ShownPath(fs: FileSystem, chroot: seq<byte>, actualDir: seq<byte>): Option<seq<byte>>
  {
    match Canonicalize(fs, Push(chroot, actualDir))
    case None => None
    case Some(total) =>
      match Canonicalize(fs, chroot)
      case None => None
      case Some(root) =>
        if !ValidUtf8(Display(total)) || !ValidUtf8(Display(root)) then None
        else
          var t := SL.ReplaceFirst(Display(total), Display(root), []);
          Some(if t == [] then [SLASH] else t)
  }

  /** Below a chroot other than "/", the path shown is the current directory seen from the chroot, as an absolute path. */
  lemma ShownFromChroot(fs: FileSystem, chroot: seq<byte>, actualDir: seq<byte>, rest: Canonical)
    requires Canonicalize(fs, chroot).Some? && Canonicalize(fs, chroot).value != []
    requires Canonicalize(fs, Push(chroot, actualDir)) == Some(Canonicalize(fs, chroot).value + rest)
    requires ValidUtf8(Display(Canonicalize(fs, chroot).value + rest)) && ValidUtf8(Display(Canonicalize(fs, chroot).value))
    ensures ShownPath(fs, chroot, actualDir) == Some(Display(rest))
  {
    var root := Canonicalize(fs, chroot).value;
    var total := root + rest;
    SlashedAppend(root, rest);
    assert Display(total) == Display(root) + Slashed(rest);
    assert SL.OccursAt(Display(total), Display(root), 0) by {
      assert Display(total)[0..|Display(root)|] == Display(root);
    }
    SL.ReplaceFirstAtStart(Display(total), Display(root), []);
    var t := SL.ReplaceFirst(Display(total), Display(root), []);
    assert t == Slashed(rest) by {
      assert Display(total)[|Display(root)|..] == Slashed(rest);
    }
    if rest != [] {
      SlashedStart(rest);
    }
    assert ShownPath(fs, chroot, actualDir) == Some(if t == [] then [SLASH] else t);
  }

  /** A user, as `SystemUsers` holds it and `change_dir` updates it. */
  class User {
    var passwd: seq<byte>
    var chroot: seq<byte>
    var uid: u16
    var actualDir: seq<byte>

    /** `User::new`: chroot `./root/<name>` and current directory `./`. */
    constructor New(username: seq<byte>, passwd: seq<byte>, uid: u16)
      ensures this.passwd == passwd && chroot == RootPrefix + username && this.uid == uid && actualDir == Here
    {
      this.passwd := passwd;
      chroot := RootPrefix + username;
      this.uid := uid;
      actualDir := Here;
    }

    /** `clone`: a new user with the same fields. */
    constructor Clone(other: User)
      ensures passwd == other.passwd && chroot == other.chroot && uid == other.uid && actualDir == other.actualDir
    {
      passwd := other.passwd;
      chroot := other.chroot;
      uid := other.uid;
      actualDir := other.actualDir;
    }

    /** `has_passwd`. */
    predicate HasPasswd(p: seq<byte>)
      reads this
    {
      passwd == p
    }

    /** `change_dir`: the current directory moves only when the request resolves under the chroot. */
    method ChangeDir(fs: FileSystem, newDir: seq<byte>) returns (r: Outcome<()>)
      modifies this
      ensures passwd == old(passwd) && chroot == old(chroot) && uid == old(uid)
      ensures var res := Resolve(fs, chroot, old(actualDir), newDir);
        && (r.Done? <==> res.Done?)
        && (r.Panicked? <==> res.Panicked?)
        && (r.Failed? ==> res == Failed(r.message))
        && actualDir == (if res.Done? then res.value.finalPath else old(actualDir))
    {
      var res := Resolve(fs, chroot, actualDir, newDir);
      if res.Done? {
        actualDir := res.value.finalPath;
        r := Done(());
      } else if res.Panicked? {
        r := Panicked;
      } else {
        r := Failed(res.message);
      }
    }

    /** `total_path`: the canonical current directory, or None for its panic. */
    function TotalPath(fs: FileSystem): Option<Canonical>
      reads this
    {
      Canonicalize(fs, Push(chroot, actualDir))
    }

    /** `total_path_and_decano`. */
    function TotalPathAndDecano(fs: FileSystem): Option<seq<byte>>
      reads this
    {
      ShownPath(fs, chroot, actualDir)
    }
  }

  /** A fresh user whose chroot exists is confined, at the top of the chroot. */
  lemma NewUserConfined(fs: FileSystem, username: seq<byte>)
    requires Canonicalize(fs, RootPrefix + username).Some?
    ensures Confined(fs, RootPrefix + username, Here)
    ensures Canonicalize(fs, Push(RootPrefix + username, Here)) == Canonicalize(fs, RootPrefix + username)
  {
    var chroot := RootPrefix + username;
    var root := Canonicalize(fs, chroot).value;
    AsciiBytesValid(Here);
    PushRelative(fs, chroot, Here);
    assert Here == [DOT] + [SLASH] + [];
    PiecesConcat([DOT], []);
    NoSlashOnePiece([DOT]);
    WalkStays(fs, root, Pieces(Here));
  }

  /** All users, keyed by name. */
  class SystemUsers {
    var usersData: map<seq<byte>, User>

    /** The uids in use. */
    function Uids(): set<int>
      reads this, usersData.Values
    {
      set name | name in usersData :: usersData[name].uid
    }

    /** `load_data`, once the JSON is parsed: every user starts at `./`. */
    constructor LoadData(parsed: map<seq<byte>, User>)
      modifies parsed.Values
      ensures usersData == parsed
      ensures forall name | name in parsed :: parsed[name].actualDir == Here
      ensures forall u | u in parsed.Values :: u.passwd == old(u.passwd) && u.chroot == old(u.chroot) && u.uid == old(u.uid)
    {
      var left := parsed.Keys;
      while left != {}
        invariant left <= parsed.Keys
        invariant forall name | name in parsed.Keys - left :: parsed[name].actualDir == Here
        invariant forall u | u in parsed.Values :: u.passwd == old(u.passwd) && u.chroot == old(u.chroot) && u.uid == old(u.uid)
        decreases left
      {
        var name :| name in left;
        parsed[name].actualDir := Here;
        left := left - {name};
      }
      usersData := parsed;
    }

    /** `user_exists`: whether any key is the name. */
    function UserExists(name: seq<byte>): (r: bool)
      reads this
      ensures r <==> name in usersData
    {
      exists u | u in usersData.Keys :: u == name
    }

    /** `has_passwd`: false for an unknown name, the password compared otherwise. */
    function HasPasswd(name: seq<byte>, passwd: seq<byte>): (r: bool)
      reads this, usersData.Values
      ensures r <==> name in usersData && usersData[name].passwd == passwd
    {
      if name in usersData then usersData[name].HasPasswd(passwd) else false
    }

    /** `get_user` (and `get_user_mut`, the same reference here): the user under the name, if any. */
    function GetUser(name: seq<byte>): (r: Option<User>)
      reads this
      ensures r.Some? <==> name in usersData
      ensures r.Some? ==> r.value == usersData[name]
    {
      if UserExists(name) then Some(usersData[name]) else None
    }

    /** `get_user_clone`: a copy of the user under the name, or null. */
    method GetUserClone(name: seq<byte>) returns (u: User?)
      ensures u != null <==> name in usersData
      ensures u != null ==> (
        && fresh(u) && u.passwd == usersData[name].passwd && u.chroot == usersData[name].chroot
        && u.uid == usersData[name].uid && u.actualDir == usersData[name].actualDir)
    {
      if UserExists(name) {
        u := new User.Clone(usersData[name]);
      } else {
        u := null;
      }
    }

    /**
     * The uid loop of `create_user`: one more than the largest uid in use, 0 when there is none.
     * A user with uid 65535 makes `uid + 1` overflow, which panics (None).
     */
    method NextUid() returns (r: Option<u16>)
      ensures r.None? <==> 0xFFFF in Uids()
      ensures r.Some? ==> forall x | x in Uids() :: x < r.value
      ensures r.Some? ==> r.value == 0 || r.value - 1 in Uids()
    {
      var uid: u16 := 0;
      var left := usersData.Keys;
      while left != {}
        invariant left <= usersData.Keys
        invariant forall name | name in usersData.Keys - left :: usersData[name].uid < uid
        invariant uid == 0 || exists name | name in usersData.Keys - left :: usersData[name].uid == uid - 1
        decreases left
      {
        var name :| name in left;
        var u := usersData[name].uid;
        if uid <= u {
          if u == 0xFFFF {
            assert u in Uids();
            return None;
          }
          uid := u + 1;
        }
        left := left - {name};
      }
      assert usersData.Keys - left == usersData.Keys;
      r := Some(uid);
    }

    /**
     * `create_user`: refused for a name in use; otherwise a new user `./root/<name>` with the
     * next uid is stored under the name.
     */
    method CreateUser(name: seq<byte>, passwd: seq<byte>) returns (r: Outcome<()>)
      modifies this
      ensures old(name in usersData) ==> r == Failed(AlreadyExists) && usersData == old(usersData)
      ensures name !in old(usersData) && 0xFFFF in old(Uids()) ==> r == Panicked && usersData == old(usersData)
      ensures name !in old(usersData) && 0xFFFF !in old(Uids()) ==>
        && r == Done(())
        && name in usersData && usersData == old(usersData)[name := usersData[name]]
        && fresh(usersData[name])
        && usersData[name].passwd == passwd && usersData[name].chroot == RootPrefix + name
        && usersData[name].actualDir == Here
        && (forall x | x in old(Uids()) :: x < usersData[name].uid)
        && (usersData[name].uid == 0 || usersData[name].uid - 1 in old(Uids()))
    {
      if name in usersData {
        return Failed(AlreadyExists);
      }
      var uid := NextUid();
      if uid.None? {
        return Panicked;
      }
      var user := new User.New(name, passwd, uid.value);
      usersData := usersData[name := user];
      r := Done(());
    }

    /**
     * `delete_user`: an unknown name or a wrong password is refused and nothing changes;
     * otherwise the user is removed and handed back.
     */
    method DeleteUser(name: seq<byte>, passwd: seq<byte>) returns (r: Outcome<User>)
      modifies this
      ensures name !in old(usersData) ==> r == Failed(NoSuchUser) && usersData == old(usersData)
      ensures name in old(usersData) && old(usersData[name].passwd) != passwd ==>
        r == Failed(InvalidPassword) && usersData == old(usersData)
      ensures name in old(usersData) && old(usersData[name].passwd) == passwd ==>
        r == Done(old(usersData[name])) && usersData == old(usersData) - {name}
    {
      if name in usersData {
        if !usersData[name].HasPasswd(passwd) {
          return Failed(InvalidPassword);
        }
        var user := usersData[name];
        usersData := usersData - {name};
        return Done(user);
      }
      r := Failed(NoSuchUser);
    }
  }
}
