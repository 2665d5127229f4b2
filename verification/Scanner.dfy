/**
 The files of a repository that a turn looks at: a walk that leaves out whole
 directories, and asks git about every file it meets.
 */
module Scanner {
  import opened Common
  import opened Text
  import opened Paths
  import opened Workspace

  datatype FileSnapshot = FileSnapshot(path: AbsPath, size: int, mtime: int)

  datatype Node = File(size: int, mtime: int) | Dir(listing: Listing)

  // The entries of a directory, in the order they are visited.
  datatype Listing = Empty | More(name: string, node: Node, rest: Listing)

  predicate ValidNode(node: Node) {
    node.File? || ValidListing(node.listing)
  }

  // No name twice.
  predicate ValidListing(l: Listing) {
    l.Empty? || (IsName(l.name) && !HasName(l.rest, l.name) && ValidNode(l.node) && ValidListing(l.rest))
  }

  predicate HasName(l: Listing, name: string) {
    l.More? && (l.name == name || HasName(l.rest, name))
  }

  function Base(p: AbsPath): string {
    if p == [] then "/" else p[|p| - 1]
  }

  const EXCLUDED_DIRS: set<string> :=
    {"tmp", "temp", "logs", "log", ".cache", "node_modules", "vendor", "dist", "build", "target"}

  predicate ShouldSkipDir(repo: AbsPath, dir: AbsPath) {
    dir == JoinTo(repo, ".git") || dir == JoinTo(repo, ".leros") || ToLower(Base(dir)) in EXCLUDED_DIRS
  }

  predicate BuiltinExcludedFile(file: AbsPath) {
    var base := Base(file);
    base == ".DS_Store" || base == "Thumbs.db" || base == ".gitignore" ||
    HasSuffix(base, ".swp") || HasSuffix(base, ".swo") || HasSuffix(base, ".log")
  }

  // git: what check-ignore says, None when it cannot be asked.
  predicate Ignored(git: AbsPath -> Option<bool>, file: AbsPath) {
    BuiltinExcludedFile(file) || git(file) == Some(true)
  }

  /** Asks git once per file and keeps the answer. */
  class IgnoreChecker {
    const git: AbsPath -> Option<bool>
    var cache: map<AbsPath, bool>

    ghost predicate Valid()
      reads this
    {
      forall p :: p in cache ==> cache[p] == Ignored(git, p)
    }

    constructor (git: AbsPath -> Option<bool>)
      ensures Valid() && this.git == git
    {
      this.git := git;
      cache := map[];
    }

    method IsIgnored(file: AbsPath) returns (ignored: bool)
      requires Valid()
      modifies this`cache
      ensures Valid() && ignored == Ignored(git, file)
    {
      if file in cache {
        return cache[file];
      }
      if BuiltinExcludedFile(file) {
        cache := cache[file := true];
        return true;
      }
      match git(file) {
        case Some(answer) =>
          cache := cache[file := answer];
          return answer;
        case None =>
      }
      cache := cache[file := false];
      return false;
    }
  }

  function Child(dir: AbsPath, name: string): (r: AbsPath)
    requires IsName(name)
    ensures dir <= r && |r| == |dir| + 1
  {
    dir + [name]
  }

  // The walk, leaving out whole directories on the way.
  function Scan(git: AbsPath -> Option<bool>, repo: AbsPath, at: AbsPath, node: Node): (r: seq<FileSnapshot>)
    requires ValidNode(node)
    decreases node
  {
    match node
    case File(size, mtime) => if Ignored(git, at) then [] else [FileSnapshot(at, size, mtime)]
    case Dir(listing) => if ShouldSkipDir(repo, at) then [] else ScanListing(git, repo, at, listing)
  }

  function ScanListing(git: AbsPath -> Option<bool>, repo: AbsPath, at: AbsPath, l: Listing): seq<FileSnapshot>
    requires ValidListing(l)
    decreases l
  {
    match l
    case Empty => []
    case More(name, node, rest) => Scan(git, repo, Child(at, name), node) + ScanListing(git, repo, at, rest)
  }

  lemma {:induction false} Regroup(a: seq<FileSnapshot>, b: seq<FileSnapshot>, c: seq<FileSnapshot>)
    ensures a + b + c == a + (b + c)
  {
  }

  method WalkNode(checker: IgnoreChecker, repo: AbsPath, at: AbsPath, node: Node, seen: seq<FileSnapshot>)
    returns (snapshots: seq<FileSnapshot>)
    requires ValidNode(node) && checker.Valid()
    modifies checker`cache
    ensures checker.Valid() && snapshots == seen + Scan(checker.git, repo, at, node)
    decreases node
  {
    match node {
      case File(size, mtime) =>
        var ignored := checker.IsIgnored(at);
        snapshots := if ignored then seen else seen + [FileSnapshot(at, size, mtime)];
      case Dir(listing) =>
        if ShouldSkipDir(repo, at) {
          return seen;
        }
        snapshots := WalkListing(checker, repo, at, listing, seen);
    }
  }

  method WalkListing(checker: IgnoreChecker, repo: AbsPath, at: AbsPath, l: Listing, seen: seq<FileSnapshot>)
    returns (snapshots: seq<FileSnapshot>)
    requires ValidListing(l) && checker.Valid()
    modifies checker`cache
    ensures checker.Valid() && snapshots == seen + ScanListing(checker.git, repo, at, l)
    decreases l
  {
    match l {
      case Empty =>
        snapshots := seen;
      case More(name, node, rest) =>
        snapshots := WalkNode(checker, repo, Child(at, name), node, seen);
        snapshots := WalkListing(checker, repo, at, rest, snapshots);
        Regroup(seen, Scan(checker.git, repo, Child(at, name), node), ScanListing(checker.git, repo, at, rest));
    }
  }

  method ScanRepoFiles(git: AbsPath -> Option<bool>, repo: AbsPath, root: Node) returns (snapshots: seq<FileSnapshot>)
    requires ValidNode(root)
    ensures snapshots == Scan(git, repo, repo, root)
  {
    var checker := new IgnoreChecker(git);
    snapshots := WalkNode(checker, repo, repo, root, []);
  }

  function AllFiles(at: AbsPath, node: Node): seq<FileSnapshot>
    requires ValidNode(node)
    decreases node
  {
    match node
    case File(size, mtime) => [FileSnapshot(at, size, mtime)]
    case Dir(listing) => AllListed(at, listing)
  }

  function AllListed(at: AbsPath, l: Listing): seq<FileSnapshot>
    requires ValidListing(l)
    decreases l
  {
    match l
    case Empty => []
    case More(name, node, rest) => AllFiles(Child(at, name), node) + AllListed(at, rest)
  }

  // No directory from the starting point down is skipped, and the file is not ignored.
  ghost predicate Visible(git: AbsPath -> Option<bool>, repo: AbsPath, start: nat, p: AbsPath) {
    (forall k :: start <= k < |p| ==> !ShouldSkipDir(repo, p[..k])) && !Ignored(git, p)
  }

  // Names of directories that are left out wherever they are, in any case of letters.
  predicate ExcludedName(name: string) {
    ToLower(name) in EXCLUDED_DIRS
  }

  predicate ExcludedFileName(name: string) {
    || name in {".DS_Store", "Thumbs.db", ".gitignore"}
    || HasSuffix(name, ".swp") || HasSuffix(name, ".swo") || HasSuffix(name, ".log")
  }

  // The repository's own directories of these names.
  predicate OwnDir(repo: AbsPath, p: AbsPath, k: nat, name: string)
    requires repo < p
  {
    k == |repo| + 1 && p[|repo|] == name
  }

  lemma {:induction false} OwnDirExactly(repo: AbsPath, p: AbsPath, k: nat, name: string)
    requires repo < p && |repo| <= k < |p| && IsName(name)
    ensures p[..k] == JoinTo(repo, name) <==> OwnDir(repo, p, k, name)
  {
    JoinedName(repo, name);
    if k == |repo| + 1 {
      assert p[..k] == repo + [p[|repo|]];
      assert (repo + [name])[|repo|] == name && (repo + [p[|repo|]])[|repo|] == p[|repo|];
    }
  }

  lemma {:induction false} JoinedName(repo: AbsPath, name: string)
    requires IsName(name)
    ensures JoinTo(repo, name) == repo + [name]
  {
    assert Join([name], '/') == name;
    JoinToAppends(repo, [name]);
  }

  lemma {:induction false} OwnNames()
    ensures IsName(".git") && IsName(".leros")
  {
  }

  // The directory that the first k segments of the path name.
  predicate SkippedAt(repo: AbsPath, p: AbsPath, k: nat)
    requires repo < p && k <= |p|
  {
    OwnDir(repo, p, k, ".git") || OwnDir(repo, p, k, ".leros") || ExcludedName(Base(p[..k]))
  }

  lemma {:induction false} SkippedExactly(repo: AbsPath, p: AbsPath, k: nat)
    requires repo < p && |repo| <= k < |p|
    ensures ShouldSkipDir(repo, p[..k]) <==> SkippedAt(repo, p, k)
  {
    OwnNames();
    OwnDirExactly(repo, p, k, ".git");
    OwnDirExactly(repo, p, k, ".leros");
  }

  /** Which file of the repository is visible: none of the directories it lies in, the
      repository's own included, has an excluded name, in any case of letters, or is the
      repository's .git or .leros; and neither its own name nor git leaves it out. */
  lemma {:induction false} VisibleExactly(git: AbsPath -> Option<bool>, repo: AbsPath, p: AbsPath)
    requires repo < p
    ensures Visible(git, repo, |repo|, p) <==>
      && (forall k :: |repo| <= k < |p| ==> !SkippedAt(repo, p, k))
      && !ExcludedFileName(p[|p| - 1]) && git(p) != Some(true)
  {
    forall k | |repo| <= k < |p| ensures ShouldSkipDir(repo, p[..k]) <==> SkippedAt(repo, p, k) {
      SkippedExactly(repo, p, k);
    }
  }

  ghost function VisibleOnly(
    git: AbsPath -> Option<bool>, repo: AbsPath, start: nat, files: seq<FileSnapshot>): seq<FileSnapshot>
  {
    if files == [] then []
    else
      var front := VisibleOnly(git, repo, start, files[..|files| - 1]);
      var f := files[|files| - 1];
      if Visible(git, repo, start, f.path) then front + [f] else front
  }

  lemma {:induction false} VisibleConcat(
    git: AbsPath -> Option<bool>, repo: AbsPath, start: nat, a: seq<FileSnapshot>, b: seq<FileSnapshot>)
    ensures VisibleOnly(git, repo, start, a + b) == VisibleOnly(git, repo, start, a) + VisibleOnly(git, repo, start, b)
    decreases |b|
  {
    if b == [] {
      assert a + b == a;
    } else {
      assert (a + b)[..|a + b| - 1] == a + b[..|b| - 1];
      VisibleConcat(git, repo, start, a, b[..|b| - 1]);
    }
  }

  lemma {:induction false} VisibleStep(git: AbsPath -> Option<bool>, repo: AbsPath, at: AbsPath, p: AbsPath)
    requires at <= p && |at| < |p|
    ensures Visible(git, repo, |at|, p) <==> !ShouldSkipDir(repo, at) && Visible(git, repo, |at| + 1, p)
  {
    assert p[..|at|] == at;
  }

  // One level further up changes nothing, or leaves nothing.
  lemma {:induction false} VisibleFromAbove(
    git: AbsPath -> Option<bool>, repo: AbsPath, at: AbsPath, files: seq<FileSnapshot>)
    requires forall f :: f in files ==> at <= f.path && |at| < |f.path|
    ensures VisibleOnly(git, repo, |at|, files) ==
      if ShouldSkipDir(repo, at) then [] else VisibleOnly(git, repo, |at| + 1, files)
    decreases |files|
  {
    if files != [] {
      var f := files[|files| - 1];
      assert f in files;
      VisibleFromAbove(git, repo, at, files[..|files| - 1]);
      VisibleStep(git, repo, at, f.path);
    }
  }

  lemma {:induction false} FilesLieBelow(at: AbsPath, node: Node)
    requires ValidNode(node)
    ensures forall f :: f in AllFiles(at, node) ==> at <= f.path
    decreases node
  {
    if node.Dir? {
      ListedLieBelow(at, node.listing);
    }
  }

  lemma {:induction false} ListedLieBelow(at: AbsPath, l: Listing)
    requires ValidListing(l)
    ensures forall f :: f in AllListed(at, l) ==> at <= f.path && |at| < |f.path|
    decreases l
  {
    if l.More? {
      FilesLieBelow(Child(at, l.name), l.node);
      ListedLieBelow(at, l.rest);
    }
  }

  /** Skipping directories on the way gives every file that none of its directories hides. */
  lemma {:induction false} ScanIsFilter(git: AbsPath -> Option<bool>, repo: AbsPath, at: AbsPath, node: Node)
    requires ValidNode(node)
    ensures Scan(git, repo, at, node) == VisibleOnly(git, repo, |at|, AllFiles(at, node))
    decreases node
  {
    match node
    case File(size, mtime) =>
      assert [FileSnapshot(at, size, mtime)][..0] == [];
    case Dir(listing) =>
      ListedLieBelow(at, listing);
      VisibleFromAbove(git, repo, at, AllListed(at, listing));
      ScanListingIsFilter(git, repo, at, listing);
  }

  lemma {:induction false} ScanListingIsFilter(git: AbsPath -> Option<bool>, repo: AbsPath, at: AbsPath, l: Listing)
    requires ValidListing(l)
    ensures ScanListing(git, repo, at, l) == VisibleOnly(git, repo, |at| + 1, AllListed(at, l))
    decreases l
  {
    match l
    case Empty =>
    case More(name, node, rest) =>
      var child := Child(at, name);
      ScanIsFilter(git, repo, child, node);
      ScanListingIsFilter(git, repo, at, rest);
      VisibleConcat(git, repo, |at| + 1, AllFiles(child, node), AllListed(at, rest));
  }

  // ------------------------------------------------------------- no file twice

  predicate DistinctPaths(files: seq<FileSnapshot>) {
    forall i, j :: 0 <= i < j < |files| ==> files[i].path != files[j].path
  }

  lemma {:induction false} ListedUnderNames(at: AbsPath, l: Listing)
    requires ValidListing(l)
    ensures forall f :: f in AllListed(at, l) ==> |at| < |f.path| && HasName(l, f.path[|at|])
    decreases l
  {
    if l.More? {
      FilesLieBelow(Child(at, l.name), l.node);
      ListedUnderNames(at, l.rest);
    }
  }

  lemma {:induction false} DistinctConcat(a: seq<FileSnapshot>, b: seq<FileSnapshot>)
    requires DistinctPaths(a) && DistinctPaths(b)
    requires forall f, g :: f in a && g in b ==> f.path != g.path
    ensures DistinctPaths(a + b)
  {
    var c := a + b;
    forall i, j | 0 <= i < j < |c| ensures c[i].path != c[j].path {
      if i < |a| <= j {
        assert a[i] in a && b[j - |a|] in b;
      }
    }
  }

  lemma {:induction false} FilesAreDistinct(at: AbsPath, node: Node)
    requires ValidNode(node)
    ensures DistinctPaths(AllFiles(at, node))
    decreases node
  {
    if node.Dir? {
      ListedAreDistinct(at, node.listing);
    }
  }

  lemma {:induction false} ListedAreDistinct(at: AbsPath, l: Listing)
    requires ValidListing(l)
    ensures DistinctPaths(AllListed(at, l))
    decreases l
  {
    match l
    case Empty =>
    case More(name, node, rest) =>
      var child := Child(at, name);
      FilesAreDistinct(child, node);
      ListedAreDistinct(at, rest);
      FilesLieBelow(child, node);
      ListedUnderNames(at, rest);
      forall f, g | f in AllFiles(child, node) && g in AllListed(at, rest) ensures f.path != g.path {
        assert f.path[|at|] == child[|at|] == name;
      }
      DistinctConcat(AllFiles(child, node), AllListed(at, rest));
  }

  lemma {:induction false} VisibleAreDistinct(
    git: AbsPath -> Option<bool>, repo: AbsPath, start: nat, files: seq<FileSnapshot>)
    requires DistinctPaths(files)
    ensures DistinctPaths(VisibleOnly(git, repo, start, files))
    ensures forall f :: f in VisibleOnly(git, repo, start, files) ==> f in files && Visible(git, repo, start, f.path)
    decreases |files|
  {
    if files != [] {
      var n := |files| - 1;
      VisibleAreDistinct(git, repo, start, files[..n]);
      forall f | f in VisibleOnly(git, repo, start, files[..n]) ensures f in files && f.path != files[n].path {
        var i :| 0 <= i < n && files[..n][i] == f;
        assert files[i] == f;
      }
    }
  }

  /** A scan finds no path twice, and everything it finds is visible and below the repository. */
  lemma {:induction false} ScanIsDistinct(git: AbsPath -> Option<bool>, repo: AbsPath, node: Node)
    requires ValidNode(node)
    ensures DistinctPaths(Scan(git, repo, repo, node))
    ensures forall f :: f in Scan(git, repo, repo, node) ==>
      f in AllFiles(repo, node) && Visible(git, repo, |repo|, f.path)
  {
    ScanIsFilter(git, repo, repo, node);
    FilesAreDistinct(repo, node);
    VisibleAreDistinct(git, repo, |repo|, AllFiles(repo, node));
  }
}
