/**
 * Unix paths as `std::path` treats them, over an abstract file system. A path is its bytes;
 * `canonicalize` is modelled as a walk over the path's pieces from the working directory (or the
 * root, for an absolute path): "" and "." stay where they are, ".." goes to the parent (the root
 * is its own parent), and any other name must exist below the directory reached so far.
 * Symbolic links are not part of this model.
 */
module FsPaths {
  import opened Ascii
  import opened Wrappers
  import opened Utf8

  const SLASH: byte := 47
  const DOT: byte := 46

  /** One name between slashes. */
  type Name = seq<byte>

  /** A canonical path: the names leading from the root, none of them "", "." or "..". */
  type Canonical = seq<Name>

  /** The process's canonical working directory and the canonical paths that exist (the root always does). */
  datatype FileSystem = FileSystem(cwd: Canonical, entries: set<Canonical>)

  predicate Exists(fs: FileSystem, p: Canonical)
  {
    p == [] || p in fs.entries
  }

  /** A path is absolute when it starts with `/`. */
  predicate IsAbsolute(p: seq<byte>)
  {
    |p| > 0 && p[0] == SLASH
  }

  /** The pieces of `p` between slashes, empty ones included: one more than there are slashes. */
  function Pieces(p: seq<byte>): (r: seq<Name>)
    ensures |r| >= 1
    ensures forall k | 0 <= k < |r| :: SLASH !in r[k]
  {
    if p == [] then [[]]
    else
      var rest := Pieces(p[1..]);
      if p[0] == SLASH then [[]] + rest else [[p[0]] + rest[0]] + rest[1..]
  }

  /** Splitting at a slash splits each side. */
  lemma {:induction false} PiecesConcat(x: seq<byte>, y: seq<byte>)
    ensures Pieces(x + [SLASH] + y) == Pieces(x) + Pieces(y)
  {
    if x == [] {
      assert x + [SLASH] + y == [SLASH] + y;
      assert ([SLASH] + y)[1..] == y;
    } else {
      assert (x + [SLASH] + y)[1..] == x[1..] + [SLASH] + y;
      PiecesConcat(x[1..], y);
    }
  }

  /** Bytes without a slash are a single piece. */
  lemma {:induction false} NoSlashOnePiece(s: seq<byte>)
    requires SLASH !in s
    ensures Pieces(s) == [s]
  {
    if s != [] {
      NoSlashOnePiece(s[1..]);
      assert s == [s[0]] + s[1..];
    }
  }

  /** `PathBuf::push`: an absolute path replaces the buffer; otherwise a slash is added when the buffer does not end in one. */
  function Push(base: seq<byte>, p: seq<byte>): (r: seq<byte>)
    ensures IsAbsolute(p) ==> r == p
    ensures !IsAbsolute(p) ==> |r| >= |base| + |p| && r[..|base|] == base && r[|r| - |p|..] == p
  {
    if IsAbsolute(p) then p
    else if |base| > 0 && base[|base| - 1] != SLASH then base + [SLASH] + p
    else base + p
  }

  /** The directory above `p`; the root is its own parent. */
  function Parent(p: Canonical): (r: Canonical)
    ensures p != [] ==> r == p[..|p| - 1]
    ensures p == [] ==> r == []
  {
    if p == [] then [] else p[..|p| - 1]
  }

  /** Whether a piece names nothing new: "" and ".". */
  predicate Stays(piece: Name)
  {
    piece == [] || piece == [DOT]
  }

  /** One piece of the walk from `at`. */
  function Step(fs: FileSystem, at: Canonical, piece: Name): Option<Canonical>
  {
    if Stays(piece) then Some(at)
    else if piece == [DOT, DOT] then Some(Parent(at))
    else if Exists(fs, at + [piece]) then Some(at + [piece])
    else None
  }

  /** The walk over all the pieces, or None at the first name that does not exist. */
  function Walk(fs: FileSystem, at: Canonical, pieces: seq<Name>): Option<Canonical>
    decreases |pieces|
  {
    if pieces == [] then Some(at)
    else
      match Step(fs, at, pieces[0])
      case None => None
      case Some(next) => Walk(fs, next, pieces[1..])
  }

  /** `canonicalize`: the empty path does not exist; others are walked from the root or the working directory. */
  function Canonicalize(fs: FileSystem, p: seq<byte>): Option<Canonical>
  {
    if p == [] then None
    else Walk(fs, if IsAbsolute(p) then [] else fs.cwd, Pieces(p))
  }

  /** Walking two runs of pieces is walking the first, then the second from where it ends. */
  lemma {:induction false} WalkConcat(fs: FileSystem, at: Canonical, a: seq<Name>, b: seq<Name>)
    ensures Walk(fs, at, a + b) == (match Walk(fs, at, a) case None => None case Some(m) => Walk(fs, m, b))
    decreases |a|
  {
    if a == [] {
      assert a + b == b;
    } else {
      assert (a + b)[0] == a[0];
      assert (a + b)[1..] == a[1..] + b;
      match Step(fs, at, a[0])
      case None =>
      case Some(next) => WalkConcat(fs, next, a[1..], b);
    }
  }

  /** Pieces that name nothing new leave the walk where it is. */
  lemma {:induction false} WalkStays(fs: FileSystem, at: Canonical, pieces: seq<Name>)
    requires forall k | 0 <= k < |pieces| :: Stays(pieces[k])
    ensures Walk(fs, at, pieces) == Some(at)
    decreases |pieces|
  {
    if pieces != [] {
      WalkStays(fs, at, pieces[1..]);
    }
  }

  /** Walking a relative path pushed on a non-empty one walks the first, then the second. */
  lemma WalkPush(fs: FileSystem, at: Canonical, base: seq<byte>, p: seq<byte>)
    requires base != [] && !IsAbsolute(p)
    ensures Walk(fs, at, Pieces(Push(base, p))) ==
      (match Walk(fs, at, Pieces(base)) case None => None case Some(b) => Walk(fs, b, Pieces(p)))
  {
    if base[|base| - 1] != SLASH {
      PiecesConcat(base, p);
      WalkConcat(fs, at, Pieces(base), Pieces(p));
    } else {
      var x := base[..|base| - 1];
      assert base == x + [SLASH] + [];
      assert Push(base, p) == x + [SLASH] + p;
      PiecesConcat(x, p);
      PiecesConcat(x, []);
      WalkConcat(fs, at, Pieces(x), Pieces(p));
      WalkConcat(fs, at, Pieces(x), Pieces([]));
      match Walk(fs, at, Pieces(x))
      case None =>
      case Some(m) => WalkStays(fs, m, Pieces([]));
    }
  }

  /** `Path::join` of a relative path: it is resolved from where the first path leads. */
  lemma PushRelative(fs: FileSystem, base: seq<byte>, p: seq<byte>)
    requires base != [] && !IsAbsolute(p)
    ensures Canonicalize(fs, Push(base, p)) ==
      (match Canonicalize(fs, base) case None => None case Some(b) => Walk(fs, b, Pieces(p)))
  {
    assert IsAbsolute(Push(base, p)) == IsAbsolute(base);
    WalkPush(fs, if IsAbsolute(base) then [] else fs.cwd, base, p);
  }

  /** `"./" + p` for a relative `p` is walked like `p` from the working directory. */
  lemma DotSlash(fs: FileSystem, at: Canonical, p: seq<byte>)
    ensures Walk(fs, at, Pieces([DOT, SLASH] + p)) == Walk(fs, at, Pieces(p))
  {
    assert [DOT, SLASH] + p == [DOT] + [SLASH] + p;
    PiecesConcat([DOT], p);
    NoSlashOnePiece([DOT]);
    WalkConcat(fs, at, [[DOT]], Pieces(p));
  }

  /** `Path::starts_with` on canonical paths: the names of `root` begin those of `p`. */
  predicate Under(p: Canonical, root: Canonical)
  {
    root <= p
  }

  /** The names each after a slash. */
  function Slashed(p: Canonical): seq<byte>
  {
    if p == [] then [] else Slashed(p[..|p| - 1]) + [SLASH] + p[|p| - 1]
  }

  /** `to_str` of a canonical path: "/" for the root, "/a/b" below it. */
  function Display(p: Canonical): (r: seq<byte>)
    ensures |r| > 0 && r[0] == SLASH
  {
    if p == [] then [SLASH] else SlashedStart(p); Slashed(p)
  }

  lemma {:induction false} SlashedStart(p: Canonical)
    requires p != []
    ensures |Slashed(p)| > 0 && Slashed(p)[0] == SLASH
  {
    if |p| > 1 {
      SlashedStart(p[..|p| - 1]);
    }
  }

  /** The written form of a longer path starts with that of its beginning. */
  lemma {:induction false} SlashedAppend(p: Canonical, q: Canonical)
    ensures Slashed(p + q) == Slashed(p) + Slashed(q)
    decreases |q|
  {
    if q == [] {
      assert p + q == p;
    } else {
      assert (p + q)[..|p + q| - 1] == p + q[..|q| - 1];
      SlashedAppend(p, q[..|q| - 1]);
    }
  }
  /** A name a canonical path can hold. */
  predicate Proper(n: Name)
  {
    n != [] && n != [DOT] && n != [DOT, DOT] && SLASH !in n
  }

  /** Every name of `p` is proper, and every path leading to it, itself included, exists. */
  predicate Reachable(fs: FileSystem, p: Canonical)
  {
    forall k | 0 < k <= |p| :: Proper(p[k - 1]) && Exists(fs, p[..k])
  }

  /** The working directory is a path that exists. */
  predicate WellFormed(fs: FileSystem)
  {
    Reachable(fs, fs.cwd)
  }

  /** One step from a reachable path, with a piece free of slashes, reaches a reachable path. */
  lemma StepReachable(fs: FileSystem, at: Canonical, piece: Name)
    requires Reachable(fs, at) && SLASH !in piece
    ensures Step(fs, at, piece).Some? ==> Reachable(fs, Step(fs, at, piece).value)
  {
    if !Stays(piece) && piece != [DOT, DOT] && Exists(fs, at + [piece]) {
      var q := at + [piece];
      forall k | 0 < k <= |q|
        ensures Proper(q[k - 1]) && Exists(fs, q[..k])
      {
        if k <= |at| {
          assert q[..k] == at[..k];
        } else {
          assert q[..k] == q;
        }
      }
    } else if piece == [DOT, DOT] && at != [] {
      var q := at[..|at| - 1];
      forall k | 0 < k <= |q|
        ensures Proper(q[k - 1]) && Exists(fs, q[..k])
      {
        assert q[..k] == at[..k];
      }
    }
  }

  /** A walk from a reachable path reaches a reachable path. */
  lemma {:induction false} WalkReachable(fs: FileSystem, at: Canonical, pieces: seq<Name>)
    requires Reachable(fs, at)
    requires forall k | 0 <= k < |pieces| :: SLASH !in pieces[k]
    ensures Walk(fs, at, pieces).Some? ==> Reachable(fs, Walk(fs, at, pieces).value)
    decreases |pieces|
  {
    if pieces != [] {
      StepReachable(fs, at, pieces[0]);
      match Step(fs, at, pieces[0])
      case None =>
      case Some(next) => WalkReachable(fs, next, pieces[1..]);
    }
  }

  /** What `canonicalize` gives is reachable. */
  lemma CanonicalizeReachable(fs: FileSystem, p: seq<byte>)
    requires WellFormed(fs)
    ensures Canonicalize(fs, p).Some? ==> Reachable(fs, Canonicalize(fs, p).value)
  {
    if p != [] {
      WalkReachable(fs, if IsAbsolute(p) then [] else fs.cwd, Pieces(p));
    }
  }

  /** The written form of a path splits into an empty piece and its names. */
  lemma {:induction false} PiecesSlashed(p: Canonical)
    requires forall k | 0 <= k < |p| :: SLASH !in p[k]
    ensures Pieces(Slashed(p)) == [[]] + p
  {
    if p != [] {
      var init := p[..|p| - 1];
      PiecesSlashed(init);
      PiecesConcat(Slashed(init), p[|p| - 1]);
      NoSlashOnePiece(p[|p| - 1]);
      assert p == init + [p[|p| - 1]];
    }
  }

  /** From any path leading to a reachable `p`, walking the rest of its names reaches `p`. */
  lemma {:induction false} WalkNames(fs: FileSystem, p: Canonical, k: nat)
    requires Reachable(fs, p) && k <= |p|
    ensures Walk(fs, p[..k], p[k..]) == Some(p)
    decreases |p| - k
  {
    if k < |p| {
      assert Proper(p[k]) && Exists(fs, p[..k + 1]);
      assert p[..k] + [p[k]] == p[..k + 1];
      assert p[k..][1..] == p[k + 1..];
      WalkNames(fs, p, k + 1);
    } else {
      assert p[..k] == p;
    }
  }

  /** `canonicalize` of the written form of a canonical path gives the path back. */
  lemma CanonicalRoundTrip(fs: FileSystem, p: Canonical)
    requires Reachable(fs, p)
    ensures Canonicalize(fs, Display(p)) == Some(p)
  {
    if p == [] {
      assert Display(p) == [] + [SLASH] + [];
      PiecesConcat([], []);
      WalkStays(fs, [], Pieces(Display(p)));
    } else {
      assert forall k | 0 <= k < |p| :: SLASH !in p[k] by {
        forall k | 0 <= k < |p|
          ensures SLASH !in p[k]
        {
          assert Exists(fs, p[..k + 1]);
        }
      }
      PiecesSlashed(p);
      WalkNames(fs, p, 0);
      assert p[..0] == [] && p[0..] == p;
      assert ([[]] + p)[1..] == p;
    }
  }

  /** `canonicalize` is idempotent: what it gives, written out, canonicalizes to itself. */
  lemma CanonicalizeIdempotent(fs: FileSystem, path: seq<byte>)
    requires WellFormed(fs) && Canonicalize(fs, path).Some?
    ensures Canonicalize(fs, Display(Canonicalize(fs, path).value)) == Canonicalize(fs, path)
  {
    CanonicalizeReachable(fs, path);
    CanonicalRoundTrip(fs, Canonicalize(fs, path).value);
  }

  /** What `Path::components` yields on Unix. */
  datatype Component = RootDir | CurDir | ParentDir | Normal(name: Name)

  /** The components of a run of pieces: "" and "." vanish, ".." is `ParentDir`, a name is `Normal`. */
  function Named(pieces: seq<Name>): (r: seq<Component>)
    ensures RootDir !in r && CurDir !in r
  {
    if pieces == [] then []
    else
      (if Stays(pieces[0]) then [] else if pieces[0] == [DOT, DOT] then [ParentDir] else [Normal(pieces[0])])
      + Named(pieces[1..])
  }

  /** `Path::components`: a leading slash is `RootDir`, and a leading "." of a relative path is `CurDir`. */
  function Components(p: seq<byte>): seq<Component>
  {
    var ps := Pieces(p);
    if IsAbsolute(p) then [RootDir] + Named(ps[1..])
    else if ps[0] == [DOT] then [CurDir] + Named(ps[1..])
    else Named(ps)
  }

  /** `Path::starts_with`: the components of `base` begin those of `p`. */
  predicate StartsWith(p: seq<byte>, base: seq<byte>)
  {
    Components(base) <= Components(p)
  }

  /** Each name of a canonical path whose names are proper is one `Normal` component. */
  lemma {:induction false} NamedProper(c: Canonical)
    requires forall k | 0 <= k < |c| :: Proper(c[k])
    ensures |Named(c)| == |c|
    ensures forall k | 0 <= k < |c| :: Named(c)[k] == Normal(c[k])
  {
    if c != [] {
      NamedProper(c[1..]);
    }
  }

  /** The components of a canonical path's written form: the root, then its names. */
  lemma DisplayComponents(c: Canonical)
    requires forall k | 0 <= k < |c| :: Proper(c[k])
    ensures |Components(Display(c))| == |c| + 1 && Components(Display(c))[0] == RootDir
    ensures forall k | 0 <= k < |c| :: Components(Display(c))[k + 1] == Normal(c[k])
  {
    if c == [] {
      assert Display(c) == [SLASH];
      assert Pieces([SLASH]) == [[], []] by { assert [SLASH][1..] == []; }
      var empty: seq<Name> := [[]];
      assert Named(empty) == [] by { assert Stays(empty[0]) && empty[1..] == []; }
    } else {
      PiecesSlashed(c);
      assert Pieces(Display(c))[1..] == c;
      NamedProper(c);
    }
  }

  /** On canonical paths with proper names, `starts_with` on their written forms is `Under`. */
  lemma StartsWithDisplay(p: Canonical, root: Canonical)
    requires forall k | 0 <= k < |p| :: Proper(p[k])
    requires forall k | 0 <= k < |root| :: Proper(root[k])
    ensures StartsWith(Display(p), Display(root)) <==> Under(p, root)
  {
    DisplayComponents(p);
    DisplayComponents(root);
    var cp, cr := Components(Display(p)), Components(Display(root));
    if Under(p, root) {
      forall k | 0 <= k < |cr|
        ensures cr[k] == cp[k]
      {
        if k > 0 { assert root[k - 1] == p[k - 1]; }
      }
    }
    if cr <= cp {
      forall k | 0 <= k < |root|
        ensures root[k] == p[k]
      {
        assert cr[k + 1] == cp[k + 1];
      }
    }
  }

  /** The names of a reachable path are proper. */
  lemma ReachableProper(fs: FileSystem, p: Canonical)
    requires Reachable(fs, p)
    ensures forall k | 0 <= k < |p| :: Proper(p[k])
  {
    forall k | 0 <= k < |p|
      ensures Proper(p[k])
    {
      assert Exists(fs, p[..k + 1]);
    }
  }

  /** A relative base starting with "." never begins an absolute path. */
  lemma AbsoluteNotUnderDotted(p: seq<byte>, base: seq<byte>)
    requires IsAbsolute(p) && !IsAbsolute(base) && Pieces(base)[0] == [DOT]
    ensures !StartsWith(p, base)
  {
    assert Components(base)[0] == CurDir;
    assert Components(p)[0] == RootDir;
  }
}
