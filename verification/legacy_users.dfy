/**
 * The earlier user store of the server (ftp_server/src/ftp/user_manage.rs): the same map from
 * name to user, read-only, and a `change_dir` that checks only that the requested path exists,
 * as seen from the server's own working directory. The log file and the JSON store are not part
 * of this model.
 */
module LegacyUsers {
  import opened Ascii
  import opened Wrappers
  import opened FsPaths

  const NoSuchDirectory := "Directony doesn't exist"

  /** A user; `actual_dir` is not read from the store. */
  class User {
    var passwd: seq<byte>
    var chroot: seq<byte>
    var uid: u16
    var actualDir: seq<byte>

    /** A user as the store holds it. */
    constructor (passwd: seq<byte>, chroot: seq<byte>, uid: u16, actualDir: seq<byte>)
      ensures this.passwd == passwd && this.chroot == chroot && this.uid == uid && this.actualDir == actualDir
    {
      this.passwd := passwd;
      this.chroot := chroot;
      this.uid := uid;
      this.actualDir := actualDir;
    }

    /** `has_passwd`. */
    predicate HasPasswd(p: seq<byte>)
      reads this
    {
      passwd == p
    }

    /**
     * `change_dir`: a path starting with "/" is tried as "." followed by the path; anything else
     * is tried as the empty path, which never exists. The directory changes only when the
     * candidate exists.
     */
    method ChangeDir(fs: FileSystem, newDir: seq<byte>) returns (r: Result<()>)
      modifies this
      ensures passwd == old(passwd) && chroot == old(chroot) && uid == old(uid)
      ensures r.Ok? <==> Canonicalize(fs, Candidate(newDir)).Some?
      ensures r.Err? ==> r.error == NoSuchDirectory
      ensures actualDir == if r.Ok? then Candidate(newDir) else old(actualDir)
      ensures !IsAbsolute(newDir) ==> r.Err? && actualDir == old(actualDir)
    {
      var tempDir: seq<byte> := [];
      if IsAbsolute(newDir) {
        tempDir := [DOT] + newDir;
      }
      if Canonicalize(fs, tempDir).Some? {
        actualDir := tempDir;
        r := Ok(());
      } else {
        r := Err(NoSuchDirectory);
      }
    }
  }

  /** The path `change_dir` tries. */
  function Candidate(newDir: seq<byte>): (r: seq<byte>)
    ensures IsAbsolute(newDir) <==> r != []
  {
    if IsAbsolute(newDir) then [DOT] + newDir else []
  }

  /**
   * The candidate of an absolute path is walked from the server's working directory, not from
   * the user's chroot.
   */
  lemma CandidateFromServerDirectory(fs: FileSystem, newDir: seq<byte>)
    requires IsAbsolute(newDir)
    ensures Canonicalize(fs, Candidate(newDir)) == Walk(fs, fs.cwd, Pieces(newDir))
  {
    var rest := newDir[1..];
    assert newDir == [] + [SLASH] + rest;
    assert Candidate(newDir) == [DOT] + [SLASH] + rest;
    PiecesConcat([DOT], rest);
    PiecesConcat([], rest);
    NoSlashOnePiece([DOT]);
    WalkConcat(fs, fs.cwd, [[DOT]], Pieces(rest));
    WalkConcat(fs, fs.cwd, [[]], Pieces(rest));
  }

  /** "/" is the server's working directory itself, which always exists. */
  lemma RootAccepted(fs: FileSystem)
    ensures Canonicalize(fs, Candidate([SLASH])) == Some(fs.cwd)
  {
    CandidateFromServerDirectory(fs, [SLASH]);
    assert [SLASH] == [] + [SLASH] + [];
    PiecesConcat([], []);
    WalkStays(fs, fs.cwd, Pieces([SLASH]));
  }

  /** "/.." is accepted whatever the user: it leads above the server's working directory, out of every chroot. */
  lemma ParentOfServerAccepted(fs: FileSystem)
    ensures Canonicalize(fs, Candidate([SLASH, DOT, DOT])) == Some(Parent(fs.cwd))
  {
    CandidateFromServerDirectory(fs, [SLASH, DOT, DOT]);
    assert [SLASH, DOT, DOT] == [] + [SLASH] + [DOT, DOT];
    PiecesConcat([], [DOT, DOT]);
    NoSlashOnePiece([DOT, DOT]);
    assert Pieces([SLASH, DOT, DOT]) == [[], [DOT, DOT]];
    assert Walk(fs, fs.cwd, [[], [DOT, DOT]]) == Walk(fs, fs.cwd, [[DOT, DOT]]);
    assert Walk(fs, fs.cwd, [[DOT, DOT]]) == Walk(fs, Parent(fs.cwd), []);
  }

  /** All users, keyed by name. */
  class SystemUsers {
    var usersData: map<seq<byte>, User>

    /** `load_data`, once the JSON is parsed: every user starts in its chroot. */
    constructor LoadData(parsed: map<seq<byte>, User>)
      modifies parsed.Values
      ensures usersData == parsed
      ensures forall name | name in parsed :: parsed[name].actualDir == parsed[name].chroot
      ensures forall u | u in parsed.Values :: u.passwd == old(u.passwd) && u.chroot == old(u.chroot) && u.uid == old(u.uid)
    {
      var left := parsed.Keys;
      while left != {}
        invariant left <= parsed.Keys
        invariant forall name | name in parsed.Keys - left :: parsed[name].actualDir == parsed[name].chroot
        invariant forall u | u in parsed.Values :: u.passwd == old(u.passwd) && u.chroot == old(u.chroot) && u.uid == old(u.uid)
        decreases left
      {
        var name :| name in left;
        parsed[name].actualDir := parsed[name].chroot;
        left := left - {name};
      }
      usersData := parsed;
    }

    /** `user_exists`: whether any key is the name. */
    function UserExists(name: seq<byte>): (r: bool)
      reads this
      ensures r <==> name in usersData
    {
      exists u | u in usersData.Keys :: u == name
    }

    /** `has_passwd`: false for an unknown name, the password compared otherwise. */
    function HasPasswd(name: seq<byte>, passwd: seq<byte>): (r: bool)
      reads this, usersData.Values
      ensures r <==> name in usersData && usersData[name].passwd == passwd
    {
      if name in usersData then usersData[name].HasPasswd(passwd) else false
    }

    /** `get_user`: a copy of the user under the name, or null. */
    method GetUser(name: seq<byte>) returns (u: User?)
      ensures u != null <==> name in usersData
      ensures u != null ==> (
        && fresh(u) && u.passwd == usersData[name].passwd && u.chroot == usersData[name].chroot
        && u.uid == usersData[name].uid && u.actualDir == usersData[name].actualDir)
    {
      if UserExists(name) {
        var found := usersData[name];
        u := new User(found.passwd, found.chroot, found.uid, found.actualDir);
      } else {
        u := null;
      }
    }
  }
}
