/**
 The file layout of one task turn: which relative paths may be stored, under
 which key, and where a turn keeps its own files.

 The file system answers symlink questions through a function from cleaned
 absolute paths. A path is a list of segments; see Paths.
 */
module Workspace {
  import opened Common
  import opened Text
  import opened Paths

  datatype Reason =
    | Required
    | Absolute
    | Escapes
    | Runtime
    | Unresolved

  // The answer of filepath.EvalSymlinks.
  datatype Eval = Real(path: AbsPath) | Missing | Failed

  // ------------------------------------------------------------- predicates

  predicate AtOrUnder(path: string, dir: string) {
    path == dir || dir + "/" <= path
  }

  function IsRuntimePath(path: string): bool {
    var p := Clean(path);
    AtOrUnder(p, ".git") || (AtOrUnder(p, ".leros") && !AtOrUnder(p, ".leros/memory"))
  }

  function EnsureInside(root: AbsPath, candidate: AbsPath): bool {
    var rel := Rel(root, candidate);
    rel == "." || !(".." <= rel || IsAbs(rel))
  }

  // The deepest existing ancestor, resolved, with the missing rest put back.
  function ResolveUpToExisting(eval: AbsPath -> Eval, path: AbsPath): Option<AbsPath>
    decreases |path|
  {
    match eval(path)
    case Real(p) => Some(p)
    case Failed => None
    case Missing =>
      if path == [] then Some(path)
      else
        match ResolveUpToExisting(eval, path[..|path| - 1])
        case Some(parent) => Some(JoinTo(parent, path[|path| - 1]))
        case None => None
  }

  function EnsureNoSymlinkEscape(eval: AbsPath -> Eval, root: AbsPath, candidate: AbsPath): Option<Reason> {
    match eval(root)
    case Real(rootReal) =>
      (match ResolveUpToExisting(eval, candidate)
       case Some(found) => if EnsureInside(rootReal, found) then None else Some(Escapes)
       case None => Some(Unresolved))
    case _ => Some(Unresolved)
  }

  function SafeJoin(eval: AbsPath -> Eval, root: AbsPath, child: string): Result<AbsPath, Reason> {
    var text := TrimSpace(child);
    if text == "" then Err(Required)
    else if IsAbs(text) then Err(Absolute)
    else
      var clean := Clean(text);
      if clean == "." || clean == "/" || ".." <= clean then Err(Escapes)
      else if IsRuntimePath(clean) then Err(Runtime)
      else
        var joined := JoinTo(root, clean);
        if !EnsureInside(root, joined) then Err(Escapes)
        else
          match EnsureNoSymlinkEscape(eval, root, joined)
          case Some(reason) => Err(reason)
          case None => Ok(joined)
  }

  function StorageKey(eval: AbsPath -> Eval, repo: AbsPath, relative: string): Result<string, Reason> {
    match SafeJoin(eval, repo, relative)
    case Ok(absolute) => Ok(Rel(repo, absolute))
    case Err(reason) => Err(reason)
  }

  // ------------------------------------------------- what the tests amount to

  // The protected places: all of .git, and all of .leros but .leros/memory.
  predicate InRuntime(segs: seq<string>) {
    segs != [] && (segs[0] == ".git" || (segs[0] == ".leros" && !(|segs| > 1 && segs[1] == "memory")))
  }

  // Below a directory, and the first step down does not look like "..".
  predicate Below(root: seq<string>, candidate: seq<string>) {
    root <= candidate && (root == candidate || !(".." <= candidate[|root|]))
  }

  // What a cleaned relative path must be to be stored.
  predicate Storable(p: Path) {
    !p.rooted && p.segs != [] && !(".." <= p.segs[0]) && !InRuntime(p.segs)
  }

  ghost predicate ResolvesInside(eval: AbsPath -> Eval, root: AbsPath, candidate: AbsPath) {
    && eval(root).Real?
    && ResolveUpToExisting(eval, candidate).Some?
    && Below(eval(root).path, ResolveUpToExisting(eval, candidate).value)
  }

  lemma {:induction false} RelativeHead(p: Path)
    requires Canonical(p.rooted, p.segs) && !p.rooted && p.segs != []
    ensures Print(p) != "" && Print(p) != "." && !IsAbs(Print(p))
    ensures ".." <= Print(p) <==> ".." <= p.segs[0]
  {
    FirstCharacter(p.segs);
    PrefixInFirst(p.segs, "..");
    PrintParse(p);
    SplitPart(".", '/');
  }

  lemma {:induction false} MemoryText()
    ensures Join([".leros", "memory"], '/') == ".leros/memory"
  {
    assert [".leros", "memory"][1..] == ["memory"];
  }

  lemma {:induction false} RuntimePathExactly(p: Path)
    requires Canonical(p.rooted, p.segs) && !p.rooted && p.segs != []
    ensures IsRuntimePath(Print(p)) <==> InRuntime(p.segs)
  {
    PrintParse(p);
    var s := Print(p);
    assert AtOrUnder(s, ".git") <==> p.segs[0] == ".git" by {
      PrefixAtSlash([".git"], p.segs);
    }
    assert AtOrUnder(s, ".leros") <==> p.segs[0] == ".leros" by {
      PrefixAtSlash([".leros"], p.segs);
    }
    assert AtOrUnder(s, ".leros/memory") <==> |p.segs| > 1 && p.segs[0] == ".leros" && p.segs[1] == "memory" by {
      MemoryText();
      PrefixAtSlash([".leros", "memory"], p.segs);
    }
  }

  lemma {:induction false} EnsureInsideExactly(root: AbsPath, candidate: AbsPath)
    ensures EnsureInside(root, candidate) <==> Below(root, candidate)
  {
    var rel := RelSegments(root, candidate);
    if root <= candidate {
      var rest := candidate[|root|..];
      assert candidate == root + rest;
      RelBelow(root, rest);
      if rest != [] {
        assert Canonical(false, rest);
        RelativeHead(Path(false, rest));
      }
    } else {
      RelBeside(root, candidate);
      PrefixInFirst(rel, "..");
    }
  }

  // ------------------------------------------------------------ stored paths

  /** Which paths are accepted, and that an accepted one is its cleaned form under the root. */
  lemma {:induction false} SafeJoinExactly(eval: AbsPath -> Eval, root: AbsPath, child: string)
    ensures var p := Parse(TrimSpace(child)); var r := SafeJoin(eval, root, child);
      (r.Ok? <==> Storable(p) && Canonical(true, root + p.segs) && ResolvesInside(eval, root, root + p.segs))
      && (r.Ok? ==> r.value == root + p.segs)
  {
    var text := TrimSpace(child);
    var p := Parse(text);
    if text == "" {
      SplitPart("", '/');
    } else if p.rooted || p.segs == [] {
    } else {
      RelativeHead(p);
      RuntimePathExactly(p);
      if Storable(p) {
        UpsOnlyInFront(p.segs);
        JoinToAppends(root, p.segs);
        EnsureInsideExactly(root, root + p.segs);
        if eval(root).Real? && ResolveUpToExisting(eval, root + p.segs).Some? {
          EnsureInsideExactly(eval(root).path, ResolveUpToExisting(eval, root + p.segs).value);
        }
      }
    }
  }

  lemma {:induction false} UpsOnlyInFront(segs: seq<string>)
    requires Canonical(false, segs) && segs != [] && segs[0] != ".."
    ensures Canonical(true, segs)
  {
  }

  /** The key of an accepted path is its cleaned form, and leads back to the same file. */
  lemma {:induction false} StorageKeyIsCanonical(eval: AbsPath -> Eval, repo: AbsPath, child: string)
    ensures StorageKey(eval, repo, child).Ok? <==> SafeJoin(eval, repo, child).Ok?
    ensures var r := StorageKey(eval, repo, child); r.Ok? ==>
      && r.value == Clean(TrimSpace(child))
      && Clean(r.value) == r.value
      && Storable(Parse(r.value))
      && SafeJoin(eval, repo, child) == Ok(repo + Parse(r.value).segs)
  {
    SafeJoinExactly(eval, repo, child);
    var p := Parse(TrimSpace(child));
    PrintParse(p);
    RelBelow(repo, p.segs);
  }

  /** Taking the key of a key changes nothing exactly when the key has no space to trim. */
  lemma {:induction false} RekeyingIsIdentity(eval: AbsPath -> Eval, repo: AbsPath, child: string)
    requires StorageKey(eval, repo, child).Ok?
    ensures var key := StorageKey(eval, repo, child).value;
      StorageKey(eval, repo, key) == Ok(key) <==> Trimmed(key, IsSpace)
  {
    StorageKeyIsCanonical(eval, repo, child);
    SafeJoinExactly(eval, repo, child);
    var key := StorageKey(eval, repo, child).value;
    StorageKeyIsCanonical(eval, repo, key);
    SafeJoinExactly(eval, repo, key);
    TrimmedIsFixed(key, IsSpace);
    var text := TrimSpace(key);
    if StorageKey(eval, repo, key) == Ok(key) {
      assert text != "" by {
        SplitPart("", '/');
      }
      CleanIsNoLonger(text);
      assert |text| <= |key|;
      if |text| == |key| {
        assert TrimLeft(key, IsSpace) == key;
      }
    }
  }

  lemma {:induction false} DotSlash(name: string)
    requires IsName(name)
    ensures Clean("./" + name) == name
  {
    assert "./" + name == "." + ['/'] + name;
    SplitConcat(".", name, '/');
    SplitPart(".", '/');
    SplitPart(name, '/');
    assert [".", name][1..] == [name] && [name][1..] == [];
    assert Walk(false, [], [".", name]) == Walk(false, [], [name]) == [name];
  }

  lemma {:induction false} DotSlashIsTrimmed(name: string)
    requires IsName(name) && !IsSpace(name[|name| - 1])
    ensures TrimSpace("./" + name) == "./" + name
  {
    TrimmedIsFixed("./" + name, IsSpace);
  }

  lemma {:induction false} KeyOfDotSlash(eval: AbsPath -> Eval, repo: AbsPath, name: string)
    requires IsName(name) && !IsSpace(name[|name| - 1])
    requires StorageKey(eval, repo, "./" + name).Ok?
    ensures StorageKey(eval, repo, "./" + name).value == name
  {
    var child := "./" + name;
    assert Clean(TrimSpace(child)) == name by {
      DotSlashIsTrimmed(name);
      DotSlash(name);
    }
    StorageKeyIsCanonical(eval, repo, child);
  }

  /** A name with a space in front is stored under a key that does not read back. */
  lemma {:induction false} RekeyingMayRename(eval: AbsPath -> Eval, repo: AbsPath, name: string)
    requires IsName(name) && !IsSpace(name[|name| - 1]) && IsSpace(name[0])
    requires StorageKey(eval, repo, "./" + name).Ok?
    ensures StorageKey(eval, repo, "./" + name).value == name
    ensures StorageKey(eval, repo, name) != Ok(name)
  {
    KeyOfDotSlash(eval, repo, name);
    RekeyingIsIdentity(eval, repo, "./" + name);
  }

  lemma {:induction false} StepUp(eval: AbsPath -> Eval, path: AbsPath)
    requires path != [] && eval(path).Missing?
    ensures ResolveUpToExisting(eval, path) ==
      match ResolveUpToExisting(eval, path[..|path| - 1])
      case Some(up) => Some(up + [path[|path| - 1]])
      case None => None
  {
    var up := ResolveUpToExisting(eval, path[..|path| - 1]);
    if up.Some? {
      JoinToAppends(up.value, [path[|path| - 1]]);
    }
  }

  // What the answer at the deepest existing ancestor makes of the path.
  function Decided(answer: Eval, path: AbsPath, rest: seq<string>): Option<seq<string>> {
    match answer
    case Real(p) => Some(p + rest)
    case Failed => None
    case Missing => Some(path)
  }

  /** What the deepest existing ancestor decides. */
  lemma {:induction false} NearestAncestorDecides(eval: AbsPath -> Eval, base: AbsPath, rest: AbsPath)
    requires forall j :: 0 < j <= |rest| ==> eval(base + rest[..j]).Missing?
    requires base == [] || !eval(base).Missing?
    ensures ResolveUpToExisting(eval, base + rest) == Decided(eval(base), base + rest, rest)
    decreases |rest|
  {
    if rest == [] {
      assert base + rest == base;
      if eval(base).Real? {
        assert eval(base).path + rest == eval(base).path;
      }
    } else {
      var front, last := rest[..|rest| - 1], rest[|rest| - 1];
      forall j | 0 < j <= |front| ensures eval(base + front[..j]).Missing? {
        assert front[..j] == rest[..j];
      }
      NearestAncestorDecides(eval, base, front);
      assert rest[..|rest|] == rest && front + [last] == rest;
      assert (base + rest)[..|base + rest| - 1] == base + front;
      StepUp(eval, base + rest);
      Associate(base, front, [last]);
      if eval(base).Real? {
        Associate(eval(base).path, front, [last]);
      }
    }
  }

  lemma {:induction false} Associate(a: seq<string>, b: seq<string>, c: seq<string>)
    ensures a + b + c == a + (b + c)
  {
  }

  // -------------------------------------------------------- task workspaces

  const UINT_LIMIT: nat := UINT64_LIMIT

  // The key of a turn: organisation, project, task and request.
  datatype TurnRequest = TurnRequest(orgID: nat, projectID: string, taskID: string, requestID: string, workDir: string)

  datatype TaskWorkspace = TaskWorkspace(
    repoDir: AbsPath,
    taskDir: AbsPath,
    turnDir: AbsPath,
    manifest: AbsPath,
    baseline: AbsPath,
    workDir: AbsPath)

  predicate IsSlash(c: char) {
    c == '/' || c == '\\'
  }

  function CleanPathID(value: string): string {
    var id := Trim(TrimSpace(value), IsSlash);
    if id == "." || id == ".." || '/' in id || '\\' in id then "" else id
  }

  // filepath.Join of several elements
  function JoinAll(root: AbsPath, names: seq<string>): AbsPath
    decreases |names|
  {
    if names == [] then root else JoinTo(JoinAll(root, names[..|names| - 1]), names[|names| - 1])
  }

  function ResolveWorkDir(repo: AbsPath, requested: string): Result<AbsPath, Reason> {
    var text := TrimSpace(requested);
    if text == "" then Ok(repo)
    else if IsAbs(text) then
      var candidate := Parse(text).segs;
      if EnsureInside(repo, candidate) then Ok(candidate) else Err(Escapes)
    else
      var clean := Clean(text);
      if clean == "." then Ok(repo)
      else if ".." <= clean then Err(Escapes)
      else if IsRuntimePath(clean) then Err(Runtime)
      else
        var candidate := JoinTo(repo, clean);
        if EnsureInside(repo, candidate) then Ok(candidate) else Err(Escapes)
  }

  function ResolveTaskWorkspace(root: AbsPath, req: TurnRequest): Result<TaskWorkspace, Reason> {
    var project, task, request := CleanPathID(req.projectID), CleanPathID(req.taskID), CleanPathID(req.requestID);
    if req.orgID == 0 || project == "" || task == "" || request == "" then Err(Required)
    else
      var projectRoot := JoinAll(root, ["projects", FormatUint(req.orgID), project]);
      var repo := JoinAll(projectRoot, ["repo"]);
      var taskDir := JoinAll(repo, [".leros", "tasks", task]);
      var turnDir := JoinAll(taskDir, ["turns", request]);
      match ResolveWorkDir(repo, req.workDir)
      case Err(reason) => Err(reason)
      case Ok(workDir) =>
        Ok(TaskWorkspace(repo, taskDir, turnDir, JoinAll(turnDir, ["artifacts.jsonl"]),
                         JoinAll(turnDir, ["baseline.jsonl"]), workDir))
  }

  lemma {:induction false} JoinAllAppends(root: AbsPath, names: seq<string>)
    requires AllNames(names)
    ensures JoinAll(root, names) == root + names
    decreases |names|
  {
    if names == [] {
      assert root + names == root;
    } else {
      var front, last := names[..|names| - 1], names[|names| - 1];
      JoinAllAppends(root, front);
      JoinToAppends(root + front, [last]);
      assert root + front + [last] == root + names;
    }
  }

  lemma {:induction false} PathIDIsName(value: string)
    ensures CleanPathID(value) == "" || IsName(CleanPathID(value))
  {
  }

  lemma {:induction false} NumberIsName(n: nat)
    ensures IsName(FormatUint(n))
  {
    var s := FormatUint(n);
    assert s[0] in s;
  }

  function RepoNames(org: string, project: string): seq<string> {
    ["projects", org, project, "repo"]
  }

  function TurnNames(task: string, request: string): seq<string> {
    [".leros", "tasks", task, "turns", request]
  }

  lemma {:induction false} JoinTwice(root: AbsPath, a: seq<string>, b: seq<string>)
    requires AllNames(a) && AllNames(b)
    ensures JoinAll(JoinAll(root, a), b) == root + (a + b)
  {
    JoinAllAppends(root, a);
    JoinAllAppends(root + a, b);
    Associate(root, a, b);
  }

  lemma {:induction false} RepoLayout(root: AbsPath, org: string, project: string)
    requires IsName(org) && IsName(project)
    ensures JoinAll(JoinAll(root, ["projects", org, project]), ["repo"]) == root + RepoNames(org, project)
  {
    assert ["projects", org, project] + ["repo"] == RepoNames(org, project);
    JoinTwice(root, ["projects", org, project], ["repo"]);
  }

  lemma {:induction false} TurnLayout(repo: AbsPath, task: string, request: string)
    requires IsName(task) && IsName(request)
    ensures JoinAll(JoinAll(repo, [".leros", "tasks", task]), ["turns", request]) == repo + TurnNames(task, request)
  {
    assert [".leros", "tasks", task] + ["turns", request] == TurnNames(task, request);
    JoinTwice(repo, [".leros", "tasks", task], ["turns", request]);
  }

  ghost predicate LaidOut(root: AbsPath, req: TurnRequest, w: TaskWorkspace) {
    && w.repoDir == root + RepoNames(FormatUint(req.orgID), CleanPathID(req.projectID))
    && w.turnDir == w.repoDir + TurnNames(CleanPathID(req.taskID), CleanPathID(req.requestID))
  }

  lemma {:induction false} Layout(root: AbsPath, req: TurnRequest)
    ensures var r := ResolveTaskWorkspace(root, req); r.Ok? ==> LaidOut(root, req, r.value)
  {
    PathIDIsName(req.projectID);
    PathIDIsName(req.taskID);
    PathIDIsName(req.requestID);
    NumberIsName(req.orgID);
    var r := ResolveTaskWorkspace(root, req);
    if r.Ok? {
      RepoLayout(root, FormatUint(req.orgID), CleanPathID(req.projectID));
      TurnLayout(r.value.repoDir, CleanPathID(req.taskID), CleanPathID(req.requestID));
    }
  }

  /** Which turns have a workspace: those with an organisation and ids of which something
      is left, whose requested work directory their repository accepts. */
  lemma {:induction false} TurnAccepted(root: AbsPath, req: TurnRequest, repo: AbsPath)
    requires repo == root + RepoNames(FormatUint(req.orgID), CleanPathID(req.projectID))
    ensures
      var r := ResolveTaskWorkspace(root, req);
      if req.orgID == 0 || "" in {CleanPathID(req.projectID), CleanPathID(req.taskID), CleanPathID(req.requestID)}
      then r == Err(Required)
      else
        match ResolveWorkDir(repo, req.workDir)
        case Err(reason) => r == Err(reason)
        case Ok(workDir) => r.Ok? && r.value.workDir == workDir && LaidOut(root, req, r.value)
  {
    Layout(root, req);
    PathIDIsName(req.projectID);
    NumberIsName(req.orgID);
    if CleanPathID(req.projectID) != "" {
      RepoLayout(root, FormatUint(req.orgID), CleanPathID(req.projectID));
    }
  }

  predicate SameTurn(a: TurnRequest, b: TurnRequest) {
    && a.orgID == b.orgID
    && CleanPathID(a.projectID) == CleanPathID(b.projectID)
    && CleanPathID(a.taskID) == CleanPathID(b.taskID)
    && CleanPathID(a.requestID) == CleanPathID(b.requestID)
  }

  lemma {:induction false} SameLengthPrefix(root: seq<string>, x: seq<string>, y: seq<string>)
    requires |x| == |y|
    ensures root + x <= root + y <==> x == y
  {
    if root + x <= root + y {
      assert x == (root + x)[|root|..] && y == (root + y)[|root|..];
    }
  }

  lemma {:induction false} NamesTellTurns(
    org: string, project: string, task: string, request: string, org2: string, project2: string, task2: string,
    request2: string)
    ensures RepoNames(org, project) + TurnNames(task, request) == RepoNames(org2, project2) + TurnNames(task2, request2)
      <==> org == org2 && project == project2 && task == task2 && request == request2
  {
    var x := RepoNames(org, project) + TurnNames(task, request);
    var y := RepoNames(org2, project2) + TurnNames(task2, request2);
    assert x[1] == org && x[2] == project && x[6] == task && x[8] == request;
    assert y[1] == org2 && y[2] == project2 && y[6] == task2 && y[8] == request2;
  }

  lemma {:induction false} SameDepth(root: seq<string>, a: seq<string>, b: seq<string>, c: seq<string>, d: seq<string>)
    requires |a + b| == |c + d|
    ensures root + a + b <= root + c + d <==> a + b == c + d
  {
    assert root + a + b == root + (a + b) && root + c + d == root + (c + d);
    SameLengthPrefix(root, a + b, c + d);
  }

  lemma {:induction false} LaidOutApart(
    root: AbsPath, a: TurnRequest, v: TaskWorkspace, b: TurnRequest, w: TaskWorkspace)
    requires LaidOut(root, a, v) && LaidOut(root, b, w)
    requires a.orgID < UINT_LIMIT && b.orgID < UINT_LIMIT
    ensures v.turnDir <= w.turnDir <==> SameTurn(a, b)
  {
    ParseFormat(a.orgID);
    ParseFormat(b.orgID);
    var o, p, t, r := FormatUint(a.orgID), CleanPathID(a.projectID), CleanPathID(a.taskID), CleanPathID(a.requestID);
    var o2, p2 := FormatUint(b.orgID), CleanPathID(b.projectID);
    var t2, r2 := CleanPathID(b.taskID), CleanPathID(b.requestID);
    NamesTellTurns(o, p, t, r, o2, p2, t2, r2);
    SameDepth(root, RepoNames(o, p), TurnNames(t, r), RepoNames(o2, p2), TurnNames(t2, r2));
  }

  /** Turns with different cleaned ids keep their files apart: neither directory holds the other. */
  lemma {:induction false} TurnsAreApart(root: AbsPath, a: TurnRequest, b: TurnRequest)
    requires a.orgID < UINT_LIMIT && b.orgID < UINT_LIMIT
    ensures var v, w := ResolveTaskWorkspace(root, a), ResolveTaskWorkspace(root, b);
      v.Ok? && w.Ok? ==> (v.value.turnDir <= w.value.turnDir <==> SameTurn(a, b))
  {
    var v, w := ResolveTaskWorkspace(root, a), ResolveTaskWorkspace(root, b);
    if v.Ok? && w.Ok? {
      Layout(root, a);
      Layout(root, b);
      LaidOutApart(root, a, v.value, b, w.value);
    }
  }

  // What cleaning does not accept for an id.
  predicate NoID(core: string) {
    core == "" || core == "." || core == ".." || '/' in core || '\\' in core
  }

  predicate AllSpaces(s: string) {
    forall i :: 0 <= i < |s| ==> IsSpace(s[i])
  }

  predicate AllIsSlash(s: string) {
    forall i :: 0 <= i < |s| ==> IsSlash(s[i])
  }

  /** Of an id, cleaning drops the spaces around it and then the slashes around that;
      what is left is the id, unless it is empty, a dot or two, or has a slash in it. */
  lemma {:induction false} CleanIDExactly(a: string, s: string, core: string, t: string, b: string)
    requires AllSpaces(a) && AllSpaces(b) && Trimmed(s + core + t, IsSpace)
    requires AllIsSlash(s) && AllIsSlash(t) && Trimmed(core, IsSlash)
    ensures CleanPathID(a + (s + core + t) + b) == if NoID(core) then "" else core
  {
    TrimAround(a, s + core + t, b, IsSpace);
    TrimAround(s, core, t, IsSlash);
  }

  // Every text is of that form.
  lemma {:induction false} EveryIDSplits(value: string)
    returns (a: string, s: string, core: string, t: string, b: string)
    ensures value == a + (s + core + t) + b
    ensures AllSpaces(a) && AllSpaces(b) && Trimmed(s + core + t, IsSpace)
    ensures AllIsSlash(s) && AllIsSlash(t) && Trimmed(core, IsSlash)
  {
    a, b := TrimSplits(value, IsSpace);
    core := Trim(TrimSpace(value), IsSlash);
    s, t := TrimSplits(TrimSpace(value), IsSlash);
  }

  // An id that cleaning leaves alone.
  predicate PlainID(v: string) {
    Trimmed(v, IsSpace) && !NoID(v)
  }

  lemma {:induction false} PlainIDStays(v: string)
    requires PlainID(v)
    ensures CleanPathID(v) == v
  {
    assert forall i :: 0 <= i < |v| ==> v[i] in v;
    assert "" + v + "" == v && "" + ("" + v + "") + "" == v;
    CleanIDExactly("", "", v, "", "");
  }

  predicate PlainTurn(a: TurnRequest) {
    PlainID(a.projectID) && PlainID(a.taskID) && PlainID(a.requestID)
  }

  /** For ids that need no cleaning: one turn's directory holds another's exactly when
      organisation, project, task and request are all the same. */
  lemma {:induction false} PlainTurnsAreApart(root: AbsPath, a: TurnRequest, b: TurnRequest)
    requires a.orgID < UINT_LIMIT && b.orgID < UINT_LIMIT && PlainTurn(a) && PlainTurn(b)
    ensures
      var v, w := ResolveTaskWorkspace(root, a), ResolveTaskWorkspace(root, b);
      v.Ok? && w.Ok? ==>
        (v.value.turnDir <= w.value.turnDir <==>
          a.orgID == b.orgID && a.projectID == b.projectID && a.taskID == b.taskID && a.requestID == b.requestID)
  {
    PlainIDStays(a.projectID);
    PlainIDStays(a.taskID);
    PlainIDStays(a.requestID);
    PlainIDStays(b.projectID);
    PlainIDStays(b.taskID);
    PlainIDStays(b.requestID);
    TurnsAreApart(root, a, b);
  }

  /** And where it is. */
  lemma {:induction false} PlainTurnLies(root: AbsPath, a: TurnRequest)
    requires PlainTurn(a)
    ensures
      var r := ResolveTaskWorkspace(root, a);
      && (a.orgID > 0 && a.workDir == "" ==> r.Ok?)
      && (r.Ok? ==>
        && r.value.repoDir == root + ["projects", FormatUint(a.orgID), a.projectID, "repo"]
        && r.value.turnDir == r.value.repoDir + [".leros", "tasks", a.taskID, "turns", a.requestID])
  {
    PlainIDStays(a.projectID);
    PlainIDStays(a.taskID);
    PlainIDStays(a.requestID);
    Layout(root, a);
  }

  // The two files of a turn directory.
  ghost predicate HasFiles(w: TaskWorkspace, manifest: string, baseline: string) {
    w.manifest == w.turnDir + [manifest] && w.baseline == w.turnDir + [baseline]
  }

  lemma {:induction false} JoinedFiles(w: TaskWorkspace, manifest: string, baseline: string)
    requires IsName(manifest) && IsName(baseline)
    requires w.manifest == JoinAll(w.turnDir, [manifest]) && w.baseline == JoinAll(w.turnDir, [baseline])
    ensures HasFiles(w, manifest, baseline)
  {
    JoinAllAppends(w.turnDir, [manifest]);
    JoinAllAppends(w.turnDir, [baseline]);
  }

  lemma {:induction false} FileNames()
    ensures IsName("artifacts.jsonl") && IsName("baseline.jsonl")
  {
  }

  predicate NamesFiles(w: TaskWorkspace) {
    w.manifest == JoinAll(w.turnDir, ["artifacts.jsonl"]) && w.baseline == JoinAll(w.turnDir, ["baseline.jsonl"])
  }

  lemma {:induction false} JoinsFiles(root: AbsPath, req: TurnRequest)
    ensures var r := ResolveTaskWorkspace(root, req); r.Ok? ==> NamesFiles(r.value)
  {
  }

  /** A turn keeps its manifest and its baseline, two files, in its own directory. */
  lemma {:induction false} OwnFiles(root: AbsPath, req: TurnRequest)
    ensures var r := ResolveTaskWorkspace(root, req); r.Ok? ==> HasFiles(r.value, "artifacts.jsonl", "baseline.jsonl")
  {
    if ResolveTaskWorkspace(root, req).Ok? {
      FileNames();
      JoinsFiles(root, req);
      JoinedFiles(ResolveTaskWorkspace(root, req).value, "artifacts.jsonl", "baseline.jsonl");
    }
  }

  // Under .leros/tasks of the repository.
  predicate InTasks(repo: seq<string>, path: seq<string>) {
    |path| > |repo| + 1 && path[|repo|] == ".leros" && path[|repo| + 1] == "tasks"
  }

  lemma {:induction false} TurnNamesInTasks(repo: seq<string>, task: string, request: string)
    ensures InTasks(repo, repo + TurnNames(task, request))
  {
  }

  lemma {:induction false} TurnLiesInTasks(root: AbsPath, req: TurnRequest)
    ensures var r := ResolveTaskWorkspace(root, req); r.Ok? ==> InTasks(r.value.repoDir, r.value.turnDir)
  {
    Layout(root, req);
    var r := ResolveTaskWorkspace(root, req);
    if r.Ok? {
      TurnNamesInTasks(r.value.repoDir, CleanPathID(req.taskID), CleanPathID(req.requestID));
    }
  }

  lemma {:induction false} AcceptedIsNotInTasks(eval: AbsPath -> Eval, repo: AbsPath, child: string)
    requires SafeJoin(eval, repo, child).Ok?
    ensures !InTasks(repo, SafeJoin(eval, repo, child).value)
  {
    SafeJoinExactly(eval, repo, child);
    var segs := Parse(TrimSpace(child)).segs;
    if |segs| > 1 {
      assert segs[0] == (repo + segs)[|repo|] && segs[1] == (repo + segs)[|repo| + 1];
    }
  }

  /** No path accepted as an artifact names a file of any turn in the same repository. */
  lemma {:induction false} ArtifactsAvoidTurns(eval: AbsPath -> Eval, root: AbsPath, turn: TurnRequest, child: string)
    ensures var w := ResolveTaskWorkspace(root, turn);
      w.Ok? ==> var r := SafeJoin(eval, w.value.repoDir, child); r.Ok? ==> !(w.value.turnDir <= r.value)
  {
    var w := ResolveTaskWorkspace(root, turn);
    if w.Ok? {
      TurnLiesInTasks(root, turn);
      if SafeJoin(eval, w.value.repoDir, child).Ok? {
        AcceptedIsNotInTasks(eval, w.value.repoDir, child);
      }
    }
  }

  lemma {:induction false} AbsoluteWorkDir(repo: AbsPath, requested: string)
    requires IsAbs(TrimSpace(requested))
    ensures var p := Parse(TrimSpace(requested));
      ResolveWorkDir(repo, requested) == if Below(repo, p.segs) then Ok(p.segs) else Err(Escapes)
  {
    EnsureInsideExactly(repo, Parse(TrimSpace(requested)).segs);
  }

  lemma {:induction false} RelativeWorkDir(repo: AbsPath, requested: string)
    requires !IsAbs(TrimSpace(requested))
    ensures var p := Parse(TrimSpace(requested)); var r := ResolveWorkDir(repo, requested);
      (r.Ok? <==> p.segs == [] || Storable(p)) && (r.Ok? ==> r.value == repo + p.segs)
  {
    var text := TrimSpace(requested);
    var p := Parse(text);
    if text == "" {
      SplitPart("", '/');
    }
    if p.segs == [] {
      assert repo + p.segs == repo;
    } else {
      RelativeHead(p);
      RuntimePathExactly(p);
      if Storable(p) {
        UpsOnlyInFront(p.segs);
        JoinToAppends(repo, p.segs);
        EnsureInsideExactly(repo, repo + p.segs);
      }
    }
  }
}
