/**
 The links a skill can be imported from. url.Parse is a parameter: it gives the
 host and the decoded path, or nothing.
 */
module GitHubLinks {
  import opened Common
  import opened Text
  import opened Paths

  datatype LinkError =
    | Required
    | InvalidShortPath
    | InvalidURL
    | InvalidWebPath
    | InvalidRawPath
    | UnsupportedLink
    | UnsupportedHost
    | NotSkillFile
    | IncompleteIdentifier

  datatype URL = URL(hostname: string, path: string)

  // The identifier and the ref, which may be empty.
  datatype Skill = Skill(id: string, ref: string)

  // ------------------------------------------------------------------ names

  // Simple case folding, for what folds to an ASCII letter.
  function Fold(c: char): char {
    if c as int == 0x17F then 's' else if c as int == 0x130 then c else Lower(c)
  }

  predicate EqualFold(a: string, b: string) {
    |a| == |b| && forall i :: 0 <= i < |a| ==> Fold(a[i]) == Fold(b[i])
  }

  predicate IsSkillFile(name: string) {
    EqualFold(name, "SKILL.md")
  }

  predicate IsSlash(c: char) {
    c == '/'
  }

  function TrimSlashes(s: string): string {
    Trim(s, IsSlash)
  }

  // path.Base
  function Base(p: string): string {
    if p == "" then "."
    else
      var parts := Split(TrimRight(p, IsSlash), '/');
      var last := parts[|parts| - 1];
      if last == "" then "/" else last
  }

  // path.Dir
  function Dir(p: string): string {
    var parts := Split(p, '/');
    Clean(if |parts| == 1 then "" else Join(parts[..|parts| - 1], '/') + "/")
  }

  function SkillDirFromSkillMDPath(file: string): Result<string, LinkError> {
    var clean := TrimSlashes(Clean(TrimSpace(file)));
    if clean == "." || clean == "" || !IsSkillFile(Base(clean)) then Err(NotSkillFile)
    else
      var dir := Dir(clean);
      Ok(if dir == "" then "." else dir)
  }

  function NormalizeGitHubSkillIdentifier(owner: string, repo: string, skillPath: string): Result<string, LinkError> {
    var o := TrimSpace(owner);
    var r := CutSuffix(TrimSpace(repo), ".git");
    var p := TrimSlashes(TrimSpace(skillPath));
    if o == "" || r == "" || p == "" then Err(IncompleteIdentifier)
    else if IsSkillFile(Base(p)) then
      match SkillDirFromSkillMDPath(p)
      case Err(e) => Err(e)
      case Ok(dir) => Ok(o + "/" + r + "/" + dir)
    else Ok(o + "/" + r + "/" + p)
  }

  // ------------------------------------------------------------------ paths

  function KeptParts(raw: seq<string>): seq<string> {
    if raw == [] then []
    else
      var front, part := KeptParts(raw[..|raw| - 1]), TrimSpace(raw[|raw| - 1]);
      if part != "" then front + [part] else front
  }

  function CleanParts(rawPath: string): seq<string> {
    var cleaned := TrimSlashes(rawPath);
    if cleaned == "" then [] else KeptParts(Split(cleaned, '/'))
  }

  method SplitCleanPath(rawPath: string) returns (parts: seq<string>)
    ensures parts == CleanParts(rawPath)
  {
    var cleaned := TrimSlashes(rawPath);
    if cleaned == "" {
      return [];
    }
    var rawParts := Split(cleaned, '/');
    parts := [];
    for i := 0 to |rawParts|
      invariant parts == KeptParts(rawParts[..i])
    {
      assert rawParts[..i + 1][..i] == rawParts[..i];
      var part := TrimSpace(rawParts[i]);
      if part != "" {
        parts := parts + [part];
      }
    }
    assert rawParts[..|rawParts|] == rawParts;
  }

  function WithRef(id: Result<string, LinkError>, ref: string): Result<Skill, LinkError> {
    match id
    case Ok(value) => Ok(Skill(value, ref))
    case Err(e) => Err(e)
  }

  function ParseGitHubWebPath(parts: seq<string>): Result<Skill, LinkError> {
    if |parts| < 2 then Err(InvalidWebPath)
    else if |parts| < 3 then WithRef(NormalizeGitHubSkillIdentifier(parts[0], parts[1], "."), "")
    else if parts[2] == "tree" && |parts| == 4 then
      WithRef(NormalizeGitHubSkillIdentifier(parts[0], parts[1], "."), parts[3])
    else if parts[2] == "tree" && |parts| >= 5 then
      WithRef(NormalizeGitHubSkillIdentifier(parts[0], parts[1], Join(parts[4..], '/')), parts[3])
    else if parts[2] == "blob" && |parts| >= 5 then
      match SkillDirFromSkillMDPath(Join(parts[4..], '/'))
      case Err(e) => Err(e)
      case Ok(dir) => WithRef(NormalizeGitHubSkillIdentifier(parts[0], parts[1], dir), parts[3])
    else Err(UnsupportedLink)
  }

  function ParseGitHubRawPath(parts: seq<string>): Result<Skill, LinkError> {
    if |parts| < 4 then Err(InvalidRawPath)
    else
      match SkillDirFromSkillMDPath(Join(parts[3..], '/'))
      case Err(e) => Err(e)
      case Ok(dir) => WithRef(NormalizeGitHubSkillIdentifier(parts[0], parts[1], dir), parts[2])
  }

  function ParseShortPath(parts: seq<string>): Result<Skill, LinkError> {
    if |parts| < 2 then Err(InvalidShortPath)
    else
      var skillPath := if |parts| == 2 then "." else Join(parts[2..], '/');
      WithRef(NormalizeGitHubSkillIdentifier(parts[0], parts[1], skillPath), "")
  }

  predicate Contains(s: string, t: string) {
    exists i :: 0 <= i <= |s| && t <= s[i..]
  }

  function ParseGitHubSkillImportURL(parse: string -> Option<URL>, raw: string): Result<Skill, LinkError> {
    var input := TrimSpace(raw);
    if input == "" then Err(Required)
    else if !Contains(input, "://") then ParseShortPath(CleanParts(input))
    else
      match parse(input)
      case None => Err(InvalidURL)
      case Some(url) =>
        var host, parts := ToLower(url.hostname), CleanParts(url.path);
        if host == "github.com" || host == "www.github.com" then ParseGitHubWebPath(parts)
        else if host == "raw.githubusercontent.com" then ParseGitHubRawPath(parts)
        else Err(UnsupportedHost)
  }

  // ----------------------------------------------------------- clean parts

  // A segment splitting gives back.
  predicate IsPart(s: string) {
    s != "" && '/' !in s && Trimmed(s, IsSpace)
  }

  // One that cleaning keeps as well.
  predicate IsCleanPart(s: string) {
    IsPart(s) && IsName(s)
  }

  predicate AllParts(parts: seq<string>) {
    forall i :: 0 <= i < |parts| ==> IsPart(parts[i])
  }

  predicate AllCleanParts(parts: seq<string>) {
    AllParts(parts) && AllNames(parts)
  }

  predicate AllSlashes(s: string) {
    forall i :: 0 <= i < |s| ==> s[i] == '/'
  }

  lemma {:induction false} PartsAreSlashless(parts: seq<string>)
    requires AllParts(parts)
    ensures Slashless(parts)
  {
    forall p | p in parts ensures '/' !in p {
      var i :| 0 <= i < |parts| && parts[i] == p;
      assert IsPart(parts[i]);
    }
  }

  lemma {:induction false} LastCharacter(parts: seq<string>)
    requires parts != [] && parts[|parts| - 1] != ""
    ensures var s, last := Join(parts, '/'), parts[|parts| - 1]; s != "" && s[|s| - 1] == last[|last| - 1]
    decreases |parts|
  {
    if |parts| > 1 {
      LastCharacter(parts[1..]);
    }
  }

  // Joined clean parts have nothing to trim.
  lemma {:induction false} JoinedEdges(parts: seq<string>)
    requires AllParts(parts) && parts != []
    ensures var s := Join(parts, '/'); s != "" && Trimmed(s, IsSpace) && Trimmed(s, IsSlash)
  {
    var first, last := parts[0], parts[|parts| - 1];
    assert IsPart(first) && IsPart(last);
    FirstCharacter(parts);
    LastCharacter(parts);
    assert first[0] in first && last[|last| - 1] in last;
  }

  lemma {:induction false} JoinedFixed(parts: seq<string>)
    requires AllParts(parts) && parts != []
    ensures var s := Join(parts, '/'); s != "" && TrimSpace(s) == s && TrimSlashes(s) == s && TrimRight(s, IsSlash) == s
  {
    JoinedEdges(parts);
    TrimmedIsFixed(Join(parts, '/'), IsSpace);
    TrimmedIsFixed(Join(parts, '/'), IsSlash);
  }

  lemma {:induction false} SplitsBack(parts: seq<string>)
    requires AllParts(parts) && parts != []
    ensures Split(Join(parts, '/'), '/') == parts
  {
    PartsAreSlashless(parts);
    SplitJoin(parts, '/');
  }

  lemma {:induction false} KeptOneMore(raw: seq<string>, part: string)
    requires IsPart(part)
    ensures KeptParts(raw + [part]) == KeptParts(raw) + [part]
  {
    TrimmedIsFixed(part, IsSpace);
    assert (raw + [part])[..|raw|] == raw;
  }

  lemma {:induction false} KeptAreClean(parts: seq<string>)
    requires AllParts(parts)
    ensures KeptParts(parts) == parts
    decreases |parts|
  {
    if parts != [] {
      var n := |parts| - 1;
      var front, last := parts[..n], parts[n];
      assert parts == front + [last] && IsPart(last);
      KeptAreClean(front);
      KeptOneMore(front, last);
    }
  }

  /** Slashes around a path do not matter, and clean parts come back. */
  lemma {:induction false} CleanPartsBack(a: string, parts: seq<string>, b: string)
    requires AllParts(parts) && parts != [] && AllSlashes(a) && AllSlashes(b)
    ensures CleanParts(a + Join(parts, '/') + b) == parts
  {
    var s := Join(parts, '/');
    JoinedFixed(parts);
    JoinedEdges(parts);
    assert a + s + b == a + (s + b);
    TrimPrefix(a, s + b, IsSlash);
    assert TrimLeft(s + b, IsSlash) == s + b;
    TrimSuffix(s, b, IsSlash);
    SplitsBack(parts);
    KeptAreClean(parts);
  }

  // ------------------------------------------------------- skill directories

  // A directory as it stands in an identifier.
  function DirText(dirs: seq<string>): string {
    if dirs == [] then "." else Join(dirs, '/')
  }

  // Without a last segment that looks like the skill file.
  function WithoutSkillFile(dirs: seq<string>): seq<string> {
    if dirs != [] && IsSkillFile(dirs[|dirs| - 1]) then dirs[..|dirs| - 1] else dirs
  }

  lemma {:induction false} BaseIsLast(parts: seq<string>)
    requires AllParts(parts) && parts != []
    ensures Base(Join(parts, '/')) == parts[|parts| - 1]
  {
    JoinedFixed(parts);
    SplitsBack(parts);
    assert IsPart(parts[|parts| - 1]);
  }

  lemma {:induction false} CleanKeeps(parts: seq<string>)
    requires AllCleanParts(parts) && parts != []
    ensures Clean(Join(parts, '/')) == Join(parts, '/')
  {
    PartsAreSlashless(parts);
    PrintParse(Path(false, parts));
  }

  lemma {:induction false} CleanDropsLastSlash(parts: seq<string>)
    requires AllCleanParts(parts) && parts != []
    ensures Clean(Join(parts, '/') + "/") == Join(parts, '/')
  {
    var s := Join(parts, '/');
    assert s + "/" == s + ['/'] + "";
    PartsAreSlashless(parts);
    SplitsBack(parts);
    SplitConcat(s, "", '/');
    assert Split("", '/') == [""];
    WalkKeeps(false, [], parts);
    assert [] + parts == parts;
    WalkConcat(false, [], parts, [""]);
    LastEmptyPart(parts);
    JoinedEdges(parts);
    assert (s + "/")[0] == s[0];
  }

  lemma {:induction false} LastEmptyPart(done: seq<string>)
    requires Canonical(false, done)
    ensures Walk(false, done, [""]) == done
  {
    assert [""][1..] == [];
  }

  lemma {:induction false} DirIsFront(parts: seq<string>)
    requires AllCleanParts(parts) && parts != []
    ensures Dir(Join(parts, '/')) == DirText(parts[..|parts| - 1])
  {
    SplitsBack(parts);
    if |parts| == 1 {
      EmptyIsDot("");
    } else {
      CleanDropsLastSlash(parts[..|parts| - 1]);
    }
  }

  lemma {:induction false} EmptyIsDot(s: string)
    requires |s| == 0
    ensures Clean(s) == "."
  {
    LastEmptyPart([]);
    assert s == "" && Split(s, '/') == [""];
  }

  /** The directory of a skill file, and an error for any other file. */
  lemma {:induction false} SkillDirExactly(parts: seq<string>)
    requires AllCleanParts(parts) && parts != []
    ensures var last := parts[|parts| - 1];
      SkillDirFromSkillMDPath(Join(parts, '/')) ==
        if IsSkillFile(last) then Ok(DirText(parts[..|parts| - 1])) else Err(NotSkillFile)
  {
    var s := Join(parts, '/');
    JoinedFixed(parts);
    CleanKeeps(parts);
    BaseIsLast(parts);
    DirIsFront(parts);
    LastIsShort(parts);
    if |parts| > 1 {
      JoinedFixed(parts[..|parts| - 1]);
    }
  }

  lemma {:induction false} LastIsShort(parts: seq<string>)
    requires parts != []
    ensures |parts[|parts| - 1]| <= |Join(parts, '/')|
    decreases |parts|
  {
    if |parts| > 1 {
      LastIsShort(parts[1..]);
    }
  }

  // -------------------------------------------------------------- identifier

  function Identifier(owner: string, repo: string, dirs: seq<string>): Result<string, LinkError> {
    var r := CutSuffix(repo, ".git");
    if r == "" then Err(IncompleteIdentifier) else Ok(owner + "/" + r + "/" + DirText(WithoutSkillFile(dirs)))
  }

  lemma {:induction false} DotIsNoSkillFile(s: string)
    requires |s| == 1 && s[0] == '.'
    ensures TrimSpace(s) == s && TrimSlashes(s) == s && !IsSkillFile(Base(s))
  {
    TrimmedIsFixed(s, IsSpace);
    TrimmedIsFixed(s, IsSlash);
    SplitPart(s, '/');
  }

  lemma {:induction false} SkillFileNames()
    ensures IsSkillFile("SKILL.md") && IsSkillFile("skill.md") && IsSkillFile("Skill.MD") && !IsSkillFile("SKILLS.md")
  {
  }

  /** The answer for a skill, spelled out: its owner, the repository without a .git, its
      directory without the skill file or a dot for the repository's own, and the ref. */
  lemma {:induction false} SkillSpelledOut(
    owner: string, repo: string, dirs: seq<string>, file: string, ref: string)
    requires repo != "" && !HasSuffix(repo, ".git") && IsSkillFile(file)
    requires dirs != [] ==> !IsSkillFile(dirs[|dirs| - 1])
    ensures
      var skill := Ok(Skill(owner + "/" + repo + "/" + (if dirs == [] then "." else Join(dirs, '/')), ref));
      && WithRef(Identifier(owner, repo, dirs), ref) == skill
      && WithRef(Identifier(owner, repo + ".git", dirs + [file]), ref) == skill
  {
    SuffixOfAppend(repo, ".git");
    assert (dirs + [file])[..|dirs|] == dirs;
  }

  /** What an identifier is made of. */
  lemma {:induction false} NormalizedExactly(owner: string, repo: string, dirs: seq<string>)
    requires IsCleanPart(owner) && IsCleanPart(repo) && AllCleanParts(dirs)
    ensures NormalizeGitHubSkillIdentifier(owner, repo, DirText(dirs)) == Identifier(owner, repo, dirs)
  {
    TrimmedIsFixed(owner, IsSpace);
    TrimmedIsFixed(repo, IsSpace);
    if dirs == [] {
      DotIsNoSkillFile(DirText(dirs));
    } else {
      JoinedFixed(dirs);
      BaseIsLast(dirs);
      SkillDirExactly(dirs);
    }
  }

  // ------------------------------------------------------------------ links

  ghost predicate LeadsTo(parse: string -> Option<URL>, link: string, host: string, parts: seq<string>) {
    var input := TrimSpace(link);
    && Contains(input, "://")
    && parse(input).Some?
    && ToLower(parse(input).value.hostname) == host
    && CleanParts(parse(input).value.path) == parts
  }

  const WEB := "github.com"
  const WWW := "www.github.com"
  const RAW := "raw.githubusercontent.com"

  lemma {:induction false} InputIsNotEmpty(input: string)
    requires Contains(input, "://")
    ensures input != ""
  {
  }

  lemma {:induction false} WebLink(parse: string -> Option<URL>, link: string, host: string, parts: seq<string>)
    requires LeadsTo(parse, link, host, parts) && (host == WEB || host == WWW)
    ensures ParseGitHubSkillImportURL(parse, link) == ParseGitHubWebPath(parts)
  {
    InputIsNotEmpty(TrimSpace(link));
  }

  lemma {:induction false} RawLink(parse: string -> Option<URL>, link: string, parts: seq<string>)
    requires LeadsTo(parse, link, RAW, parts)
    ensures ParseGitHubSkillImportURL(parse, link) == ParseGitHubRawPath(parts)
  {
    InputIsNotEmpty(TrimSpace(link));
    HostsDiffer();
  }

  lemma {:induction false} HostsDiffer()
    ensures RAW != WEB && RAW != WWW
  {
    assert |RAW| == 25 && |WEB| == 10 && |WWW| == 14;
  }

  // The directory as the identifier takes it from a skill file's path.
  lemma {:induction false} FileToDirectory(dirs: seq<string>, file: string)
    requires AllCleanParts(dirs) && IsCleanPart(file) && IsSkillFile(file)
    ensures SkillDirFromSkillMDPath(Join(dirs + [file], '/')) == Ok(DirText(dirs))
  {
    SkillDirExactly(dirs + [file]);
    assert (dirs + [file])[..|dirs|] == dirs;
  }

  lemma {:induction false} TreeRoot(owner: string, repo: string, ref: string)
    requires IsCleanPart(owner) && IsCleanPart(repo)
    ensures ParseGitHubWebPath([owner, repo, "tree", ref]) == WithRef(Identifier(owner, repo, []), ref)
  {
    NormalizedExactly(owner, repo, []);
  }

  lemma {:induction false} TreeDirectory(parts: seq<string>, dirs: seq<string>)
    requires |parts| >= 5 && parts[2] == "tree" && parts[4..] == dirs
    requires IsCleanPart(parts[0]) && IsCleanPart(parts[1]) && AllCleanParts(dirs)
    ensures ParseGitHubWebPath(parts) == WithRef(Identifier(parts[0], parts[1], dirs), parts[3])
  {
    NormalizedExactly(parts[0], parts[1], dirs);
  }

  lemma {:induction false} TreePath(owner: string, repo: string, ref: string, dirs: seq<string>)
    requires IsCleanPart(owner) && IsCleanPart(repo) && AllCleanParts(dirs)
    ensures ParseGitHubWebPath([owner, repo, "tree", ref] + dirs) == WithRef(Identifier(owner, repo, dirs), ref)
  {
    var head := [owner, repo, "tree", ref];
    if dirs == [] {
      assert head + dirs == head;
      TreeRoot(owner, repo, ref);
    } else {
      TreeDirectory(head + dirs, dirs);
    }
  }

  lemma {:induction false} BlobPath(owner: string, repo: string, ref: string, dirs: seq<string>, file: string)
    requires IsCleanPart(owner) && IsCleanPart(repo) && AllCleanParts(dirs) && IsCleanPart(file) && IsSkillFile(file)
    ensures ParseGitHubWebPath([owner, repo, "blob", ref] + (dirs + [file])) ==
      WithRef(Identifier(owner, repo, dirs), ref)
  {
    var parts := [owner, repo, "blob", ref] + (dirs + [file]);
    assert parts[4..] == dirs + [file];
    FileToDirectory(dirs, file);
    NormalizedExactly(owner, repo, dirs);
  }

  lemma {:induction false} RawPath(owner: string, repo: string, ref: string, dirs: seq<string>, file: string)
    requires IsCleanPart(owner) && IsCleanPart(repo) && AllCleanParts(dirs) && IsCleanPart(file) && IsSkillFile(file)
    ensures ParseGitHubRawPath([owner, repo, ref] + (dirs + [file])) == WithRef(Identifier(owner, repo, dirs), ref)
  {
    var parts := [owner, repo, ref] + (dirs + [file]);
    assert parts[3..] == dirs + [file];
    FileToDirectory(dirs, file);
    NormalizedExactly(owner, repo, dirs);
  }

  /** The three forms of a skill's path, as segments, give one answer. */
  lemma {:induction false} PathsAgree(owner: string, repo: string, ref: string, dirs: seq<string>, file: string)
    requires IsCleanPart(owner) && IsCleanPart(repo) && AllCleanParts(dirs) && IsCleanPart(file) && IsSkillFile(file)
    ensures var answer := WithRef(Identifier(owner, repo, dirs), ref);
      ParseGitHubWebPath([owner, repo, "tree", ref] + dirs) == answer
      && ParseGitHubWebPath([owner, repo, "blob", ref] + (dirs + [file])) == answer
      && ParseGitHubRawPath([owner, repo, ref] + (dirs + [file])) == answer
  {
    TreePath(owner, repo, ref, dirs);
    BlobPath(owner, repo, ref, dirs, file);
    RawPath(owner, repo, ref, dirs, file);
  }

  /** The tree link, the blob link and the raw link of one skill give one answer. */
  lemma {:induction false} LinksAgree(
    parse: string -> Option<URL>, tree: string, blob: string, raw: string, treeHost: string, blobHost: string,
    owner: string, repo: string, ref: string, dirs: seq<string>, file: string)
    requires IsCleanPart(owner) && IsCleanPart(repo) && AllCleanParts(dirs) && IsCleanPart(file) && IsSkillFile(file)
    requires (treeHost == WEB || treeHost == WWW) && (blobHost == WEB || blobHost == WWW)
    requires LeadsTo(parse, tree, treeHost, [owner, repo, "tree", ref] + dirs)
    requires LeadsTo(parse, blob, blobHost, [owner, repo, "blob", ref] + (dirs + [file]))
    requires LeadsTo(parse, raw, RAW, [owner, repo, ref] + (dirs + [file]))
    ensures ParseGitHubSkillImportURL(parse, tree) == WithRef(Identifier(owner, repo, dirs), ref)
    ensures ParseGitHubSkillImportURL(parse, blob) ==
      ParseGitHubSkillImportURL(parse, raw) == ParseGitHubSkillImportURL(parse, tree)
  {
    PathsAgree(owner, repo, ref, dirs, file);
    WebLink(parse, tree, treeHost, [owner, repo, "tree", ref] + dirs);
    WebLink(parse, blob, blobHost, [owner, repo, "blob", ref] + (dirs + [file]));
    RawLink(parse, raw, [owner, repo, ref] + (dirs + [file]));
  }

  // The forms of a link's path: a repository, a tree link, a blob link to a skill file.
  predicate IsWebForm(parts: seq<string>) {
    || |parts| == 2
    || (|parts| >= 4 && parts[2] == "tree")
    || (|parts| >= 5 && parts[2] == "blob" && IsSkillFile(parts[|parts| - 1]))
  }

  predicate IsRawForm(parts: seq<string>) {
    |parts| >= 4 && IsSkillFile(parts[|parts| - 1])
  }

  lemma {:induction false} IdentifierExists(owner: string, repo: string, dirs: seq<string>)
    requires IsCleanPart(repo)
    ensures Identifier(owner, repo, dirs).Ok? <==> repo != ".git"
  {
    if HasSuffix(repo, ".git") && |repo| == 4 {
      assert repo[0..] == repo;
    }
  }

  // An identifier whose directory comes from a file's path.
  lemma {:induction false} FromFile(owner: string, repo: string, file: seq<string>)
    requires IsCleanPart(owner) && IsCleanPart(repo) && AllCleanParts(file) && file != []
    ensures
      match SkillDirFromSkillMDPath(Join(file, '/'))
      case Err(_) => !IsSkillFile(file[|file| - 1])
      case Ok(dir) =>
        && IsSkillFile(file[|file| - 1])
        && (NormalizeGitHubSkillIdentifier(owner, repo, dir).Ok? <==> repo != ".git")
  {
    var dirs := file[..|file| - 1];
    SkillDirExactly(file);
    NormalizedExactly(owner, repo, dirs);
    IdentifierExists(owner, repo, dirs);
  }

  lemma {:induction false} CleanTail(parts: seq<string>, k: nat)
    requires AllCleanParts(parts) && 2 <= k <= |parts|
    ensures IsCleanPart(parts[0]) && IsCleanPart(parts[1]) && AllCleanParts(parts[k..])
    ensures k < |parts| ==> parts[k..][|parts| - k - 1] == parts[|parts| - 1]
  {
  }

  lemma {:induction false} DirectoryAccepted(parts: seq<string>, dirs: seq<string>)
    requires |parts| >= 2 && IsCleanPart(parts[0]) && IsCleanPart(parts[1]) && AllCleanParts(dirs)
    ensures NormalizeGitHubSkillIdentifier(parts[0], parts[1], DirText(dirs)).Ok? <==> parts[1] != ".git"
  {
    NormalizedExactly(parts[0], parts[1], dirs);
    IdentifierExists(parts[0], parts[1], dirs);
  }

  lemma {:induction false} BlobAccepted(parts: seq<string>, file: seq<string>)
    requires |parts| >= 5 && parts[2] == "blob" && parts[4..] == file && file[|file| - 1] == parts[|parts| - 1]
    requires IsCleanPart(parts[0]) && IsCleanPart(parts[1]) && AllCleanParts(file)
    ensures ParseGitHubWebPath(parts).Ok? <==> IsWebForm(parts) && parts[1] != ".git"
  {
    FromFile(parts[0], parts[1], file);
  }

  lemma {:induction false} OtherAccepted(parts: seq<string>, dirs: seq<string>)
    requires |parts| >= 2 && (|parts| >= 5 ==> parts[2] != "blob")
    requires dirs == if |parts| >= 5 then parts[4..] else []
    requires IsCleanPart(parts[0]) && IsCleanPart(parts[1]) && AllCleanParts(dirs)
    ensures ParseGitHubWebPath(parts).Ok? <==> IsWebForm(parts) && parts[1] != ".git"
  {
    DirectoryAccepted(parts, dirs);
  }

  lemma {:induction false} RawAccepted(parts: seq<string>, file: seq<string>)
    requires |parts| >= 4 && parts[3..] == file && file[|file| - 1] == parts[|parts| - 1]
    requires IsCleanPart(parts[0]) && IsCleanPart(parts[1]) && AllCleanParts(file)
    ensures ParseGitHubRawPath(parts).Ok? <==> IsRawForm(parts) && parts[1] != ".git"
  {
    FromFile(parts[0], parts[1], file);
  }

  lemma {:induction false} WebAcceptedExactly(parts: seq<string>)
    requires AllCleanParts(parts)
    ensures ParseGitHubWebPath(parts).Ok? <==> IsWebForm(parts) && parts[1] != ".git"
  {
    if |parts| >= 2 {
      var tail := if |parts| >= 5 then parts[4..] else [];
      CleanTail(parts, |parts| - |tail|);
      if |parts| >= 5 && parts[2] == "blob" {
        BlobAccepted(parts, tail);
      } else {
        OtherAccepted(parts, tail);
      }
    }
  }

  lemma {:induction false} RawAcceptedExactly(parts: seq<string>)
    requires AllCleanParts(parts)
    ensures ParseGitHubRawPath(parts).Ok? <==> IsRawForm(parts) && parts[1] != ".git"
  {
    if |parts| >= 4 {
      CleanTail(parts, 3);
      RawAccepted(parts, parts[3..]);
    }
  }

  /** Which links are accepted: those of the two web hosts to a repository, a tree or a
      skill file's blob, and those of the raw host to a skill file, if the repository
      has a name besides .git. */
  lemma {:induction false} LinkAcceptedExactly(
    parse: string -> Option<URL>, link: string, host: string, parts: seq<string>)
    requires LeadsTo(parse, link, host, parts) && AllCleanParts(parts)
    ensures ParseGitHubSkillImportURL(parse, link).Ok? <==>
      && ((host in {"github.com", "www.github.com"} && IsWebForm(parts))
          || (host == "raw.githubusercontent.com" && IsRawForm(parts)))
      && parts[1] != ".git"
  {
    InputIsNotEmpty(TrimSpace(link));
    HostsDiffer();
    WebAcceptedExactly(parts);
    RawAcceptedExactly(parts);
  }

  // ------------------------------------------------------------- short path

  lemma {:induction false} NoEmptyPart(s: string, i: nat)
    requires i + 2 <= |s| && s[i] == '/' && s[i + 1] == '/'
    ensures "" in Split(s, '/')
  {
    var a, b := s[..i], s[i + 2..];
    assert s == a + ['/'] + (['/'] + b);
    SplitConcat(a, ['/'] + b, '/');
    SplitCons('/', b, '/');
    assert Split(['/'] + b, '/')[0] == "";
    assert Split(s, '/')[|Split(a, '/')|] == "";
  }

  lemma {:induction false} NoSchemeInside(parts: seq<string>)
    requires AllParts(parts) && parts != []
    ensures !Contains(Join(parts, '/'), "://")
  {
    var s := Join(parts, '/');
    SplitsBack(parts);
    assert "" !in parts by {
      assert forall k :: 0 <= k < |parts| ==> IsPart(parts[k]);
    }
    forall i | 0 <= i <= |s| ensures !("://" <= s[i..]) {
      if "://" <= s[i..] {
        assert s[i + 1] == s[i..][1] && s[i + 2] == s[i..][2];
        NoEmptyPart(s, i + 1);
      }
    }
  }

  // The segments of an identifier, read as a short path.
  function ShortParts(owner: string, repo: string, dirs: seq<string>): seq<string> {
    [owner, repo] + if dirs == [] then ["."] else dirs
  }

  lemma {:induction false} ShortPathText(owner: string, repo: string, dirs: seq<string>)
    ensures Join(ShortParts(owner, repo, dirs), '/') == owner + "/" + repo + "/" + DirText(dirs)
  {
    var rest := if dirs == [] then ["."] else dirs;
    JoinConcat([owner, repo], rest, '/');
    assert [owner, repo][1..] == [repo];
    assert Join(rest, '/') == DirText(dirs);
    assert "/" == ['/'];
  }

  // Reading an identifier as a short path is normalising its segments.
  lemma {:induction false} ShortPathParses(parse: string -> Option<URL>, parts: seq<string>)
    requires AllParts(parts) && |parts| > 2
    ensures ParseGitHubSkillImportURL(parse, Join(parts, '/')) ==
      WithRef(NormalizeGitHubSkillIdentifier(parts[0], parts[1], Join(parts[2..], '/')), "")
  {
    JoinedFixed(parts);
    NoSchemeInside(parts);
    CleanPartsOfJoin(parts);
  }

  lemma {:induction false} CleanPartsOfJoin(parts: seq<string>)
    requires AllParts(parts) && parts != []
    ensures CleanParts(Join(parts, '/')) == parts
  {
    CleanPartsBack("", parts, "");
    assert "" + Join(parts, '/') + "" == Join(parts, '/');
  }

  lemma {:induction false} ShortPartsAreParts(owner: string, repo: string, dirs: seq<string>)
    requires IsCleanPart(owner) && IsCleanPart(repo) && AllCleanParts(dirs)
    ensures AllParts(ShortParts(owner, repo, dirs))
  {
  }

  lemma {:induction false} ShortPath(parse: string -> Option<URL>, owner: string, repo: string, dirs: seq<string>)
    requires IsCleanPart(owner) && IsCleanPart(repo) && AllCleanParts(dirs)
    ensures ParseGitHubSkillImportURL(parse, owner + "/" + repo + "/" + DirText(dirs)) ==
      WithRef(Identifier(owner, repo, dirs), "")
  {
    var parts := ShortParts(owner, repo, dirs);
    ShortPartsAreParts(owner, repo, dirs);
    ShortPathParses(parse, parts);
    ShortPathText(owner, repo, dirs);
    assert parts[2..] == if dirs == [] then ["."] else dirs;
    NormalizedExactly(owner, repo, dirs);
  }

  // Dropping the last segment leaves a shorter text.
  lemma {:induction false} ShorterText(dirs: seq<string>)
    requires AllCleanParts(dirs) && dirs != [] && IsSkillFile(dirs[|dirs| - 1])
    ensures |DirText(dirs[..|dirs| - 1])| < |DirText(dirs)|
  {
    var n := |dirs| - 1;
    assert dirs == dirs[..n] + [dirs[n]];
    if n > 0 {
      JoinConcat(dirs[..n], [dirs[n]], '/');
    }
  }

  /** Read as a short path, owner/repo/dirs gives itself exactly when it has no .git
      to cut and no skill file to drop. */
  lemma {:induction false} ShortPathGivesItself(
    parse: string -> Option<URL>, owner: string, repo: string, dirs: seq<string>)
    requires IsCleanPart(owner) && IsCleanPart(repo) && AllCleanParts(dirs)
    ensures var id := owner + "/" + repo + "/" + DirText(dirs);
      ParseGitHubSkillImportURL(parse, id) == Ok(Skill(id, "")) <==>
        !HasSuffix(repo, ".git") && WithoutSkillFile(dirs) == dirs
  {
    ShortPath(parse, owner, repo, dirs);
    if WithoutSkillFile(dirs) != dirs {
      ShorterText(dirs);
    }
  }

  /** The identifier of a link, parsed again. */
  lemma {:induction false} IdentifierGivesItself(
    parse: string -> Option<URL>, owner: string, repo: string, dirs: seq<string>, id: string)
    requires IsCleanPart(owner) && IsCleanPart(CutSuffix(repo, ".git")) && AllCleanParts(dirs)
    requires Identifier(owner, repo, dirs) == Ok(id)
    ensures var kept := WithoutSkillFile(dirs);
      ParseGitHubSkillImportURL(parse, id) == Ok(Skill(id, "")) <==>
      !HasSuffix(CutSuffix(repo, ".git"), ".git") && WithoutSkillFile(kept) == kept
  {
    ShortPathGivesItself(parse, owner, CutSuffix(repo, ".git"), WithoutSkillFile(dirs));
  }
}
