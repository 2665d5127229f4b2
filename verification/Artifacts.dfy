/**
 The artifact manifest of a turn: changed files are appended to it, and the
 final entries in it become artifact records.
 */
module Artifacts {
  import opened Common
  import opened Text
  import opened Paths
  import opened Workspace
  import opened Scanner
  import opened Sorting

  // A line of a JSON Lines file.
  datatype Line<T> = Blank | Malformed | Entry(value: T)

  datatype Item = Item(path: string, title: string, isFinal: bool)

  // terminated: the last line ends with a newline.
  datatype Manifest = Manifest(lines: seq<Line<Item>>, terminated: bool)

  datatype Failure =
    | MalformedLine
    | InvalidPath(path: string)
    | Rejected(path: string, reason: Reason)
    | Unreadable(path: string)
    | IsDirectory(path: string)

  // os.Stat, and whether the content can be hashed.
  datatype Stat = NoFile | Directory | Regular(size: int, readable: bool)

  datatype ArtifactRecord = ArtifactRecord(title: string, relativePath: string, storageKey: string, size: int)

  // --------------------------------------------------------------- baseline

  type Baseline = map<AbsPath, FileSnapshot>

  function BaselineOf(lines: seq<Line<FileSnapshot>>): Baseline {
    if lines == [] then map[]
    else
      var front := BaselineOf(lines[..|lines| - 1]);
      match lines[|lines| - 1]
      case Entry(snap) => front[snap.path := snap]
      case _ => front
  }

  predicate Records(line: Line<FileSnapshot>, p: AbsPath) {
    line.Entry? && line.value.path == p
  }

  predicate LastRecord(lines: seq<Line<FileSnapshot>>, p: AbsPath, k: nat) {
    && k < |lines| && Records(lines[k], p)
    && forall j :: k < j < |lines| ==> !Records(lines[j], p)
  }

  /** What is recorded of a file is the last readable line with its path. */
  lemma {:induction false} LastLineWins(lines: seq<Line<FileSnapshot>>, p: AbsPath)
    ensures p in BaselineOf(lines) <==> exists k: nat :: LastRecord(lines, p, k)
    ensures forall k: nat :: LastRecord(lines, p, k) ==>
      p in BaselineOf(lines) && lines[k] == Entry(BaselineOf(lines)[p])
    ensures p !in BaselineOf(lines) ==> forall k :: 0 <= k < |lines| ==> !Records(lines[k], p)
    decreases |lines|
  {
    if lines != [] {
      var n := |lines| - 1;
      LastLineWins(lines[..n], p);
      if Records(lines[n], p) {
        assert LastRecord(lines, p, n);
      } else {
        forall k: nat ensures LastRecord(lines, p, k) <==> LastRecord(lines[..n], p, k) {
          LastBefore(lines, p, k);
        }
      }
    }
  }

  lemma {:induction false} LastBefore(lines: seq<Line<FileSnapshot>>, p: AbsPath, k: nat)
    requires lines != [] && !Records(lines[|lines| - 1], p)
    ensures LastRecord(lines, p, k) <==> LastRecord(lines[..|lines| - 1], p, k)
  {
    var front := lines[..|lines| - 1];
    assert forall j :: 0 <= j < |front| ==> front[j] == lines[j];
  }

  predicate Changed(baseline: Baseline, f: FileSnapshot) {
    f.path in baseline ==> f.size != baseline[f.path].size || f.mtime != baseline[f.path].mtime
  }

  function Candidates(baseline: Baseline, files: seq<FileSnapshot>): (r: seq<FileSnapshot>)
    ensures forall f :: f in r <==> f in files && Changed(baseline, f)
  {
    if files == [] then []
    else
      var front := Candidates(baseline, files[..|files| - 1]);
      var f := files[|files| - 1];
      assert files == files[..|files| - 1] + [f];
      if Changed(baseline, f) then front + [f] else front
  }

  // The lines a baseline of these files has.
  function Recorded(files: seq<FileSnapshot>): seq<Line<FileSnapshot>> {
    if files == [] then [] else Recorded(files[..|files| - 1]) + [Entry(files[|files| - 1])]
  }

  method ReadBaseline(lines: seq<Line<FileSnapshot>>) returns (target: Baseline)
    ensures target == BaselineOf(lines)
  {
    target := map[];
    for i := 0 to |lines|
      invariant target == BaselineOf(lines[..i])
    {
      assert lines[..i + 1][..i] == lines[..i];
      if lines[i].Entry? {
        target := target[lines[i].value.path := lines[i].value];
      }
    }
    assert lines[..|lines|] == lines;
  }

  method DiffFiles(baseline: Baseline, current: seq<FileSnapshot>) returns (candidates: seq<FileSnapshot>)
    ensures candidates == Candidates(baseline, current)
  {
    candidates := [];
    for i := 0 to |current|
      invariant candidates == Candidates(baseline, current[..i])
    {
      var snap := current[i];
      assert current[..i + 1][..i] == current[..i];
      if snap.path !in baseline {
        candidates := candidates + [snap];
        continue;
      }
      var prev := baseline[snap.path];
      if snap.size != prev.size || snap.mtime != prev.mtime {
        candidates := candidates + [snap];
      }
    }
    assert current[..|current|] == current;
  }

  // --------------------------------------------------------------- manifest

  predicate IsFinal(line: Line<Item>) {
    line.Entry? && line.value.isFinal
  }

  predicate HasFinal(lines: seq<Line<Item>>) {
    exists line :: line in lines && IsFinal(line)
  }

  method ManifestHasFinalEntries(lines: seq<Line<Item>>) returns (found: bool)
    ensures found == HasFinal(lines)
  {
    for i := 0 to |lines|
      invariant forall j :: 0 <= j < i ==> !IsFinal(lines[j])
    {
      if IsFinal(lines[i]) {
        return true;
      }
    }
    return false;
  }

  // A line written behind one that is not terminated continues it.
  function Glue(last: Line<Item>, more: Line<Item>): Line<Item> {
    if last.Blank? then more else Malformed
  }

  function AppendLine(m: Manifest, line: Line<Item>): Manifest {
    if !m.terminated && m.lines != [] then
      Manifest(m.lines[..|m.lines| - 1] + [Glue(m.lines[|m.lines| - 1], line)], true)
    else Manifest(m.lines + [line], true)
  }

  // The next line would continue a last line that is neither blank nor terminated.
  predicate Glued(m: Manifest) {
    !m.terminated && m.lines != [] && !m.lines[|m.lines| - 1].Blank?
  }

  // The lines that stay in front of appended ones.
  function Kept(m: Manifest): seq<Line<Item>> {
    if !m.terminated && m.lines != [] then m.lines[..|m.lines| - 1] else m.lines
  }

  // Only the first of several appended lines can be glued.
  function AppendAll(m: Manifest, more: seq<Line<Item>>): Manifest {
    var all := Kept(m) + more;
    if more == [] then m else Manifest(if Glued(m) then all[|Kept(m)| := Malformed] else all, true)
  }

  function Declaration(name: string): Line<Item> {
    Entry(Item(name, "", true))
  }

  function Declarations(names: seq<string>): (r: seq<Line<Item>>)
    ensures |r| == |names|
    ensures forall i :: 0 <= i < |r| ==> r[i] == Declaration(names[i])
  {
    if names == [] then [] else Declarations(names[..|names| - 1]) + [Declaration(names[|names| - 1])]
  }

  function Names(repo: AbsPath, files: seq<FileSnapshot>): (r: seq<string>)
    ensures |r| == |files|
    ensures forall i :: 0 <= i < |r| ==> r[i] == Rel(repo, files[i].path)
  {
    if files == [] then [] else Names(repo, files[..|files| - 1]) + [Rel(repo, files[|files| - 1].path)]
  }

  const NEW_MANIFEST := Manifest([], true)

  // A missing manifest is created only when there is something to write.
  function Reconciled(
    manifest: Option<Manifest>, repo: AbsPath, baseline: Baseline, current: seq<FileSnapshot>): Option<Manifest>
  {
    var files := Candidates(baseline, current);
    var m := if manifest.Some? then manifest.value else NEW_MANIFEST;
    if HasFinal(m.lines) || files == [] then manifest else Some(AppendAll(m, Declarations(Names(repo, files))))
  }

  // ---------------------------------------------------------------- collect

  function KeyOf(path: string): string {
    Clean(TrimSpace(path))
  }

  predicate BadKey(key: string) {
    key == "." || "../" <= key || "/" <= key
  }

  // What one line asks for.
  datatype Claim = Nothing | Fails(failure: Failure) | Declares(key: string, item: Item)

  function ClaimOf(line: Line<Item>): Claim {
    match line
    case Blank => Nothing
    case Malformed => Fails(MalformedLine)
    case Entry(item) =>
      var key := KeyOf(item.path);
      if !item.isFinal then Nothing
      else if BadKey(key) then Fails(InvalidPath(item.path))
      else Declares(key, item.(path := key))
  }

  function ClaimsOf(lines: seq<Line<Item>>): (r: seq<Claim>)
    ensures |r| == |lines|
    ensures forall i :: 0 <= i < |r| ==> r[i] == ClaimOf(lines[i])
  {
    if lines == [] then [] else ClaimsOf(lines[..|lines| - 1]) + [ClaimOf(lines[|lines| - 1])]
  }

  function Fill(claims: seq<Claim>): Result<map<string, Item>, Failure> {
    if claims == [] then Ok(map[])
    else
      match Fill(claims[..|claims| - 1])
      case Err(e) => Err(e)
      case Ok(m) =>
        match claims[|claims| - 1]
        case Nothing => Ok(m)
        case Fails(e) => Err(e)
        case Declares(key, item) => Ok(m[key := item])
  }

  function Declared(lines: seq<Line<Item>>): Result<map<string, Item>, Failure> {
    Fill(ClaimsOf(lines))
  }

  function LastSegment(path: string): string {
    var segs := Parse(path).segs;
    if segs != [] then segs[|segs| - 1] else if IsAbs(path) then "/" else "."
  }

  function RecordAt(
    joined: Result<AbsPath, Reason>, stat: AbsPath -> Stat, key: Result<string, Reason>, item: Item
  ): Result<ArtifactRecord, Failure>
  {
    match joined
    case Err(reason) => Err(Rejected(item.path, reason))
    case Ok(absolute) =>
      match stat(absolute)
      case NoFile => Err(Unreadable(item.path))
      case Directory => Err(IsDirectory(item.path))
      case Regular(size, readable) =>
        if !readable then Err(Unreadable(item.path))
        else
          match key
          case Err(reason) => Err(Rejected(item.path, reason))
          case Ok(storageKey) =>
            var title := TrimSpace(item.title);
            Ok(ArtifactRecord(if title == "" then LastSegment(item.path) else title, item.path, storageKey, size))
  }

  function BuildArtifactRecord(
    eval: AbsPath -> Eval, stat: AbsPath -> Stat, repo: AbsPath, item: Item): Result<ArtifactRecord, Failure>
  {
    RecordAt(SafeJoin(eval, repo, item.path), stat, StorageKey(eval, repo, item.path), item)
  }

  function Outcomes(
    eval: AbsPath -> Eval, stat: AbsPath -> Stat, repo: AbsPath, declared: map<string, Item>, paths: seq<string>
  ): (r: seq<Result<ArtifactRecord, Failure>>)
    requires forall p :: p in paths ==> p in declared
    ensures |r| == |paths|
    ensures forall i :: 0 <= i < |r| ==>
      paths[i] in declared && r[i] == BuildArtifactRecord(eval, stat, repo, declared[paths[i]])
  {
    seq(|paths|, i requires 0 <= i < |paths| =>
      assert paths[i] in paths;
      BuildArtifactRecord(eval, stat, repo, declared[paths[i]]))
  }

  // All values, or the first error.
  function Gather<T, E>(outcomes: seq<Result<T, E>>): Result<seq<T>, E> {
    if outcomes == [] then Ok([])
    else
      match Gather(outcomes[..|outcomes| - 1])
      case Err(e) => Err(e)
      case Ok(done) =>
        match outcomes[|outcomes| - 1]
        case Err(e) => Err(e)
        case Ok(value) => Ok(done + [value])
  }

  function BuildAll(
    eval: AbsPath -> Eval, stat: AbsPath -> Stat, repo: AbsPath, declared: map<string, Item>, paths: seq<string>
  ): Result<seq<ArtifactRecord>, Failure>
    requires forall p :: p in paths ==> p in declared
  {
    Gather(Outcomes(eval, stat, repo, declared, paths))
  }

  ghost function Collected(
    eval: AbsPath -> Eval, stat: AbsPath -> Stat, repo: AbsPath, lines: seq<Line<Item>>
  ): Result<seq<ArtifactRecord>, Failure>
  {
    match Declared(lines)
    case Err(e) => Err(e)
    case Ok(declared) => BuildAll(eval, stat, repo, declared, Sorted(declared.Keys))
  }

  /** The two files of a turn, as the runtime leaves them between calls. */
  class TurnFiles {
    const repo: AbsPath
    var manifest: Option<Manifest>
    var baseline: Option<seq<Line<FileSnapshot>>>

    constructor (repo: AbsPath)
      ensures this.repo == repo && manifest == Some(NEW_MANIFEST) && baseline == None
    {
      this.repo := repo;
      manifest := Some(NEW_MANIFEST);
      baseline := None;
    }

    ghost function Known(): Baseline
      reads this
    {
      if baseline.Some? then BaselineOf(baseline.value) else map[]
    }

    // files: what the scan finds now, None when it fails
    method WriteBaseline(files: Option<seq<FileSnapshot>>) returns (ok: bool)
      modifies this`baseline
      ensures ok == files.Some?
      ensures baseline == if ok then Some(Recorded(files.value)) else old(baseline)
    {
      if files.None? {
        return false;
      }
      var lines: seq<Line<FileSnapshot>> := [];
      for i := 0 to |files.value|
        invariant lines == Recorded(files.value[..i])
      {
        assert files.value[..i + 1][..i] == files.value[..i];
        lines := lines + [Entry(files.value[i])];
      }
      assert files.value[..|files.value|] == files.value;
      baseline := Some(lines);
      return true;
    }

    method ReconcileArtifacts(files: Option<seq<FileSnapshot>>) returns (ok: bool)
      modifies this`manifest
      ensures ok <==> files.Some? || (manifest.Some? && HasFinal(manifest.value.lines))
      ensures manifest == if files.Some? then Reconciled(old(manifest), repo, Known(), files.value) else old(manifest)
    {
      var m := if manifest.Some? then manifest.value else NEW_MANIFEST;
      var final := ManifestHasFinalEntries(m.lines);
      if final {
        return true;
      }
      var known := map[];
      if baseline.Some? {
        known := ReadBaseline(baseline.value);
      }
      if files.None? {
        return false;
      }
      var candidates := DiffFiles(known, files.value);
      if |candidates| == 0 {
        return true;
      }
      m := AppendDeclarations(m, repo, candidates);
      manifest := Some(m);
      return true;
    }

    method CollectFinalArtifacts(eval: AbsPath -> Eval, stat: AbsPath -> Stat)
      returns (r: Result<seq<ArtifactRecord>, Failure>)
      ensures r == if manifest.Some? then Collected(eval, stat, repo, manifest.value.lines) else Ok([])
    {
      if manifest.None? {
        return Ok([]);
      }
      var declared := ReadDeclared(manifest.value.lines);
      match declared {
        case Err(e) => return Err(e);
        case Ok(items) =>
          var paths := SortStrings(items.Keys);
          r := BuildRecords(eval, stat, repo, items, paths);
      }
    }
  }

  lemma {:induction false} AppendStep(m: Manifest, more: seq<Line<Item>>, i: nat)
    requires i < |more|
    ensures AppendLine(AppendAll(m, more[..i]), more[i]) == AppendAll(m, more[..i + 1])
  {
    assert Kept(m) + more[..i] + [more[i]] == Kept(m) + more[..i + 1];
  }

  lemma {:induction false} DeclarationOf(repo: AbsPath, candidates: seq<FileSnapshot>, i: nat)
    requires i < |candidates|
    ensures Declarations(Names(repo, candidates))[i] == Entry(Item(Rel(repo, candidates[i].path), "", true))
  {
  }

  method AppendDeclarations(start: Manifest, repo: AbsPath, candidates: seq<FileSnapshot>) returns (m: Manifest)
    ensures m == AppendAll(start, Declarations(Names(repo, candidates)))
  {
    m := start;
    ghost var more := Declarations(Names(repo, candidates));
    for i := 0 to |candidates|
      invariant m == AppendAll(start, more[..i])
    {
      AppendStep(start, more, i);
      DeclarationOf(repo, candidates, i);
      m := AppendLine(m, Entry(Item(Rel(repo, candidates[i].path), "", true)));
    }
    assert more[..|candidates|] == more;
  }

  method ReadDeclared(lines: seq<Line<Item>>) returns (r: Result<map<string, Item>, Failure>)
    ensures r == Declared(lines)
  {
    var declared: map<string, Item> := map[];
    ghost var claims := ClaimsOf(lines);
    for i := 0 to |lines|
      invariant Fill(claims[..i]) == Ok(declared)
    {
      assert claims[..i + 1][..i] == claims[..i] && claims[i] == ClaimOf(lines[i]);
      match lines[i] {
        case Blank =>
        case Malformed =>
          ErrorStays(claims, i + 1);
          return Err(MalformedLine);
        case Entry(item) =>
          if item.isFinal {
            var key := KeyOf(item.path);
            if BadKey(key) {
              ErrorStays(claims, i + 1);
              return Err(InvalidPath(item.path));
            }
            declared := declared[key := item.(path := key)];
          }
      }
    }
    assert claims[..|lines|] == claims;
    return Ok(declared);
  }

  method BuildRecords(
    eval: AbsPath -> Eval, stat: AbsPath -> Stat, repo: AbsPath, declared: map<string, Item>, paths: seq<string>)
    returns (r: Result<seq<ArtifactRecord>, Failure>)
    requires forall p :: p in paths ==> p in declared
    ensures r == BuildAll(eval, stat, repo, declared, paths)
  {
    var artifacts := [];
    ghost var outcomes := Outcomes(eval, stat, repo, declared, paths);
    for i := 0 to |paths|
      invariant Gather(outcomes[..i]) == Ok(artifacts)
    {
      assert paths[i] in paths;
      var outcome := BuildArtifactRecord(eval, stat, repo, declared[paths[i]]);
      GatherStep(outcomes, i);
      match outcome {
        case Err(e) =>
          FirstErrorStays(outcomes, i + 1);
          return Err(e);
        case Ok(artifact) =>
          artifacts := artifacts + [artifact];
      }
    }
    assert outcomes[..|paths|] == outcomes;
    return Ok(artifacts);
  }

  lemma {:induction false} ErrorStays(claims: seq<Claim>, n: nat)
    requires n <= |claims| && Fill(claims[..n]).Err?
    ensures Fill(claims) == Fill(claims[..n])
    decreases |claims|
  {
    if n == |claims| {
      assert claims[..n] == claims;
    } else {
      assert claims[..|claims| - 1][..n] == claims[..n];
      ErrorStays(claims[..|claims| - 1], n);
    }
  }

  lemma {:induction false} GatherStep<T, E>(outcomes: seq<Result<T, E>>, i: nat)
    requires i < |outcomes| && Gather(outcomes[..i]).Ok?
    ensures Gather(outcomes[..i + 1]) ==
      match outcomes[i]
      case Err(e) => Err(e)
      case Ok(value) => Ok(Gather(outcomes[..i]).value + [value])
  {
    assert outcomes[..i + 1][..i] == outcomes[..i];
  }

  lemma {:induction false} FirstErrorStays<T, E>(outcomes: seq<Result<T, E>>, n: nat)
    requires n <= |outcomes| && Gather(outcomes[..n]).Err?
    ensures Gather(outcomes) == Gather(outcomes[..n])
    decreases |outcomes|
  {
    if n == |outcomes| {
      assert outcomes[..n] == outcomes;
    } else {
      assert outcomes[..|outcomes| - 1][..n] == outcomes[..n];
      FirstErrorStays(outcomes[..|outcomes| - 1], n);
    }
  }

  // ------------------------------------------------------------------ diff

  lemma {:induction false} RecordedIsRead(files: seq<FileSnapshot>, i: nat)
    requires DistinctPaths(files) && i < |files|
    ensures Reads(BaselineOf(Recorded(files)), files[i])
    decreases |files|
  {
    var n := |files| - 1;
    RecordedStep(files);
    if i < n {
      RecordedIsRead(files[..n], i);
      assert files[..n][i] == files[i] && files[i].path != files[n].path;
    }
  }

  predicate Reads(b: Baseline, f: FileSnapshot) {
    f.path in b && b[f.path] == f
  }

  lemma {:induction false} RecordedStep(files: seq<FileSnapshot>)
    requires files != []
    ensures
      var f := files[|files| - 1];
      BaselineOf(Recorded(files)) == BaselineOf(Recorded(files[..|files| - 1]))[f.path := f]
  {
    var lines := Recorded(files);
    assert lines[..|lines| - 1] == Recorded(files[..|files| - 1]);
  }

  lemma {:induction false} ReadIsRecorded(files: seq<FileSnapshot>, p: AbsPath)
    requires p in BaselineOf(Recorded(files))
    ensures BaselineOf(Recorded(files))[p] in files && BaselineOf(Recorded(files))[p].path == p
    decreases |files|
  {
    RecordedStep(files);
    if p != files[|files| - 1].path {
      ReadIsRecorded(files[..|files| - 1], p);
    }
  }

  /** Against a recorded baseline, the candidates are the files not recorded with this size and time. */
  lemma {:induction false} DiffIsExact(before: seq<FileSnapshot>, after: seq<FileSnapshot>)
    requires DistinctPaths(before)
    ensures forall f :: f in Candidates(BaselineOf(Recorded(before)), after) <==> f in after && f !in before
  {
    var b := BaselineOf(Recorded(before));
    forall f | f in after ensures Changed(b, f) <==> f !in before {
      if f in before {
        var i :| 0 <= i < |before| && before[i] == f;
        RecordedIsRead(before, i);
      } else if f.path in b {
        ReadIsRecorded(before, f.path);
      }
    }
  }

  // -------------------------------------------------------------- declared

  lemma {:induction false} EveryClaimCounts(claims: seq<Claim>)
    ensures Fill(claims).Ok? <==> forall c :: c in claims ==> !c.Fails?
    decreases |claims|
  {
    if claims != [] {
      var front, last := claims[..|claims| - 1], claims[|claims| - 1];
      EveryClaimCounts(front);
      assert claims == front + [last];
    }
  }

  predicate Acceptable(line: Line<Item>) {
    !line.Malformed? && (IsFinal(line) ==> !BadKey(KeyOf(line.value.path)))
  }

  /** Collecting gets past reading the manifest exactly when every line is acceptable. */
  lemma {:induction false} EveryLineCounts(lines: seq<Line<Item>>)
    ensures Declared(lines).Ok? <==> forall line :: line in lines ==> Acceptable(line)
  {
    var claims := ClaimsOf(lines);
    EveryClaimCounts(claims);
    forall i | 0 <= i < |lines|
      ensures lines[i] in lines && claims[i] in claims && claims[i].Fails? == !Acceptable(lines[i])
    {
    }
  }

  // The last claim to a key.
  function LastFor(claims: seq<Claim>, key: string): (r: Option<nat>)
    ensures r.Some? ==> r.value < |claims| && claims[r.value].Declares? && claims[r.value].key == key
    ensures forall i :: 0 <= i < |claims| && (r.None? || r.value < i) ==> !(claims[i].Declares? && claims[i].key == key)
  {
    if claims == [] then None
    else if claims[|claims| - 1].Declares? && claims[|claims| - 1].key == key then Some(|claims| - 1)
    else LastFor(claims[..|claims| - 1], key)
  }

  /** The last declaration of a cleaned path wins. */
  lemma {:induction false} LastClaimWins(claims: seq<Claim>, key: string)
    requires Fill(claims).Ok?
    ensures var last := LastFor(claims, key);
      (key in Fill(claims).value <==> last.Some?)
      && (last.Some? ==> Fill(claims).value[key] == claims[last.value].item)
    decreases |claims|
  {
    if claims != [] {
      LastClaimWins(claims[..|claims| - 1], key);
    }
  }

  // ---------------------------------------------------------- second pass

  function Current(manifest: Option<Manifest>): Manifest {
    if manifest.Some? then manifest.value else NEW_MANIFEST
  }

  lemma {:induction false} FinalsAfterAppend(m: Manifest, more: seq<Line<Item>>)
    requires more != [] && !HasFinal(m.lines) && forall line :: line in more ==> IsFinal(line)
    ensures HasFinal(AppendAll(m, more).lines) <==> !(Glued(m) && |more| == 1)
  {
    assert more[0] in more && more[|more| - 1] in more;
    var kept, lines := Kept(m), AppendAll(m, more).lines;
    if Glued(m) && |more| == 1 {
      forall i | 0 <= i < |lines| ensures !IsFinal(lines[i]) {
        assert i < |kept| ==> lines[i] == m.lines[i] && m.lines[i] in m.lines;
      }
    } else {
      assert lines[|lines| - 1] == more[|more| - 1];
    }
  }

  /** Reconciling the same tree again changes nothing, unless the only candidate was glued to an unterminated line. */
  lemma {:induction false} SecondReconcile(
    manifest: Option<Manifest>, repo: AbsPath, baseline: Baseline, files: seq<FileSnapshot>)
    ensures var once := Reconciled(manifest, repo, baseline, files);
      Reconciled(once, repo, baseline, files) == once <==>
      !(Glued(Current(manifest)) && !HasFinal(Current(manifest).lines) && |Candidates(baseline, files)| == 1)
  {
    var m, c := Current(manifest), Candidates(baseline, files);
    if !HasFinal(m.lines) && c != [] {
      var more := Declarations(Names(repo, c));
      FinalsAfterAppend(m, more);
      var once := AppendAll(m, more);
      assert |AppendAll(once, more).lines| > |once.lines|;
    }
  }

  // ------------------------------------------------ collect after reconcile

  // A plain file below the repository that resolves to the same place below its real path.
  ghost predicate RegularFile(eval: AbsPath -> Eval, stat: AbsPath -> Stat, repo: AbsPath, f: FileSnapshot) {
    && repo < f.path
    && eval(repo).Real? && eval(f.path).Real?
    && eval(f.path).path == eval(repo).path + f.path[|repo|..]
    && stat(f.path).Regular? && stat(f.path).readable
    && Trimmed(Rel(repo, f.path), IsSpace)
  }

  predicate StorableFile(repo: AbsPath, f: FileSnapshot) {
    repo < f.path && Storable(Path(false, f.path[|repo|..]))
  }

  ghost predicate AllRegular(eval: AbsPath -> Eval, stat: AbsPath -> Stat, repo: AbsPath, files: seq<FileSnapshot>) {
    forall i :: 0 <= i < |files| ==> RegularFile(eval, stat, repo, files[i])
  }

  predicate AllStorable(repo: AbsPath, files: seq<FileSnapshot>) {
    forall i :: 0 <= i < |files| ==> StorableFile(repo, files[i])
  }

  lemma {:induction false} NameOfFile(repo: AbsPath, p: AbsPath)
    requires repo < p
    ensures var segs := p[|repo|..]; Parse(Rel(repo, p)) == Path(false, segs) && Clean(Rel(repo, p)) == Rel(repo, p)
    ensures !BadKey(Rel(repo, p))
  {
    var segs := p[|repo|..];
    assert p == repo + segs;
    RelBelow(repo, segs);
    PrintParse(Path(false, segs));
    RelativeHead(Path(false, segs));
    PrefixAtSlash([".."], segs);
    assert Join([".."], '/') + "/" == "../";
  }

  lemma {:induction false} ResolvesBelow(eval: AbsPath -> Eval, stat: AbsPath -> Stat, repo: AbsPath, f: FileSnapshot)
    requires RegularFile(eval, stat, repo, f) && StorableFile(repo, f)
    ensures ResolvesInside(eval, repo, f.path)
  {
    var root := eval(repo).path;
    var found := root + f.path[|repo|..];
    assert ResolveUpToExisting(eval, f.path) == Some(eval(f.path).path) && eval(f.path).path == found;
    assert root <= found && found[|root|] == f.path[|repo|];
  }

  lemma {:induction false} AcceptedExactly(
    eval: AbsPath -> Eval, stat: AbsPath -> Stat, repo: AbsPath, f: FileSnapshot, name: string)
    requires RegularFile(eval, stat, repo, f) && name == Rel(repo, f.path)
    ensures StorageKey(eval, repo, name) == Ok(name) <==> StorableFile(repo, f)
    ensures SafeJoin(eval, repo, name) == Ok(f.path) <==> StorableFile(repo, f)
    ensures SafeJoin(eval, repo, name).Ok? ==> StorableFile(repo, f)
    ensures LastSegment(name) == Base(f.path)
  {
    NameOfFile(repo, f.path);
    TrimmedIsFixed(name, IsSpace);
    SafeJoinExactly(eval, repo, name);
    StorageKeyIsCanonical(eval, repo, name);
    assert f.path == repo + f.path[|repo|..];
    if StorableFile(repo, f) {
      ResolvesBelow(eval, stat, repo, f);
    }
  }

  lemma {:induction false} NoTitle()
    ensures TrimSpace("") == ""
  {
  }

  lemma {:induction false} RecordExactly(
    stat: AbsPath -> Stat, path: AbsPath, name: string, joined: Result<AbsPath, Reason>,
    key: Result<string, Reason>)
    requires stat(path).Regular? && stat(path).readable
    requires joined.Err? || (joined == Ok(path) && key == Ok(name))
    ensures var r := RecordAt(joined, stat, key, Item(name, "", true));
      r.Ok? == joined.Ok? && (r.Ok? ==> r.value == ArtifactRecord(LastSegment(name), name, name, stat(path).size))
  {
    NoTitle();
  }

  lemma {:induction false} BuildExactly(eval: AbsPath -> Eval, stat: AbsPath -> Stat, repo: AbsPath, f: FileSnapshot)
    requires RegularFile(eval, stat, repo, f)
    ensures OutcomeFor(stat, repo, f, BuildArtifactRecord(eval, stat, repo, Item(Rel(repo, f.path), "", true)))
  {
    var name := Rel(repo, f.path);
    var joined, key := SafeJoin(eval, repo, name), StorageKey(eval, repo, name);
    AcceptedExactly(eval, stat, repo, f, name);
    RecordExactly(stat, f.path, name, joined, key);
  }

  /** What a declaration gives: its record, under its own title or else the file's
      name, or the first thing that is wrong with it. */
  lemma {:induction false} DeclaredRecord(eval: AbsPath -> Eval, stat: AbsPath -> Stat, repo: AbsPath, item: Item)
    ensures
      var r := BuildArtifactRecord(eval, stat, repo, item);
      match SafeJoin(eval, repo, item.path)
      case Err(reason) => r == Err(Rejected(item.path, reason))
      case Ok(file) =>
        && (stat(file).NoFile? ==> r == Err(Unreadable(item.path)))
        && (stat(file).Directory? ==> r == Err(IsDirectory(item.path)))
        && (stat(file).Regular? && !stat(file).readable ==> r == Err(Unreadable(item.path)))
        && (r.Ok? ==>
          && stat(file).Regular? && r.value.size == stat(file).size && r.value.relativePath == item.path
          && Ok(r.value.storageKey) == StorageKey(eval, repo, item.path)
          && (TrimSpace(item.title) != "" ==> r.value.title == TrimSpace(item.title))
          && (TrimSpace(item.title) == "" && Parse(item.path).segs != [] ==>
            r.value.title == Parse(item.path).segs[|Parse(item.path).segs| - 1]))
  {
  }

  lemma {:induction false} JoinShape(segs: seq<string>)
    requires segs != []
    ensures |segs| == 1 ==> Join(segs, '/') == segs[0]
    ensures |segs| > 1 ==> |Join(segs, '/')| > |segs[0]| && Join(segs, '/')[|segs[0]|] == '/'
  {
  }

  // How a relative path that is not empty prints.
  lemma {:induction false} RelativeKey(segs: seq<string>, key: string)
    requires segs != [] && Canonical(false, segs) && key == Join(segs, '/')
    ensures key != "." && !("/" <= key)
    ensures "../" <= key <==> |segs| > 1 && segs[0] == ".."
  {
    assert IsSegment(segs[0]);
    assert forall i :: 0 <= i < |segs| ==> IsSegment(segs[i]);
    assert Slashless(segs) && Slashless([".."]);
    FirstCharacter(segs);
    JoinShape(segs);
    JoinShape([".."]);
    PrefixAtSlash([".."], segs);
    assert Join([".."], '/') + "/" == "../";
    assert [".."] <= segs <==> segs[0] == "..";
  }

  /** Which final declarations stop the collecting: those of the repository itself, of
      an absolute path, or of one that climbs out and on. */
  lemma {:induction false} BadKeyExactly(path: string)
    ensures
      var p := Parse(TrimSpace(path));
      BadKey(KeyOf(path)) <==> p.rooted || p.segs == [] || (|p.segs| > 1 && p.segs[0] == "..")
  {
    var p := Parse(TrimSpace(path));
    if !p.rooted && p.segs != [] {
      RelativeKey(p.segs, KeyOf(path));
    }
  }

  // A path that is its own key.
  predicate IsKey(name: string) {
    KeyOf(name) == name && !BadKey(name)
  }

  lemma {:induction false} FillNames(kept: seq<Claim>, names: seq<string>, all: seq<Claim>)
    requires Fill(kept) == Ok(map[])
    requires |all| == |kept| + |names| && kept <= all
    requires forall i :: 0 <= i < |names| ==> all[|kept| + i] == Declares(names[i], Item(names[i], "", true))
    ensures Fill(all).Ok?
    ensures Fill(all).value.Keys == (set n | n in names)
    ensures forall key :: key in Fill(all).value ==> Fill(all).value[key] == Item(key, "", true)
    decreases |names|
  {
    if names == [] {
      assert all == kept;
    } else {
      var front, n := names[..|names| - 1], names[|names| - 1];
      assert names == front + [n];
      FillNames(kept, front, all[..|all| - 1]);
    }
  }

  lemma {:induction false} ClaimOfKey(name: string)
    requires IsKey(name)
    ensures ClaimOf(Declaration(name)) == Declares(name, Item(name, "", true))
  {
  }

  lemma {:induction false} ClaimsOfNames(names: seq<string>)
    requires forall i :: 0 <= i < |names| ==> IsKey(names[i])
    ensures forall i :: 0 <= i < |names| ==>
      ClaimsOf(Declarations(names))[i] == Declares(names[i], Item(names[i], "", true))
  {
    forall i | 0 <= i < |names|
      ensures ClaimsOf(Declarations(names))[i] == Declares(names[i], Item(names[i], "", true))
    {
      assert Declarations(names)[i] == Declaration(names[i]);
      ClaimOfKey(names[i]);
    }
  }

  lemma {:induction false} ClaimsConcat(a: seq<Line<Item>>, b: seq<Line<Item>>)
    ensures ClaimsOf(a + b) == ClaimsOf(a) + ClaimsOf(b)
  {
  }

  lemma {:induction false} NothingToFill(claims: seq<Claim>)
    requires forall i :: 0 <= i < |claims| ==> claims[i] == Nothing
    ensures Fill(claims) == Ok(map[])
    decreases |claims|
  {
    if claims != [] {
      NothingToFill(claims[..|claims| - 1]);
    }
  }

  lemma {:induction false} GatherExactly<T, E>(outcomes: seq<Result<T, E>>)
    ensures Gather(outcomes).Ok? <==> forall i :: 0 <= i < |outcomes| ==> outcomes[i].Ok?
    ensures var r := Gather(outcomes);
      r.Ok? ==> |r.value| == |outcomes| && forall i :: 0 <= i < |outcomes| ==> outcomes[i] == Ok(r.value[i])
    decreases |outcomes|
  {
    if outcomes != [] {
      GatherExactly(outcomes[..|outcomes| - 1]);
    }
  }

  // The state reconciling starts from: readable lines, none of them final.
  predicate NoFinals(m: Manifest) {
    forall i :: 0 <= i < |m.lines| ==> !m.lines[i].Malformed? && !IsFinal(m.lines[i])
  }

  lemma {:induction false} NothingKept(m: Manifest)
    requires NoFinals(m)
    ensures Fill(ClaimsOf(Kept(m))) == Ok(map[])
  {
    NothingToFill(ClaimsOf(Kept(m)));
  }

  lemma {:induction false} NamesAreKeys(
    eval: AbsPath -> Eval, stat: AbsPath -> Stat, repo: AbsPath, files: seq<FileSnapshot>)
    requires AllRegular(eval, stat, repo, files)
    ensures forall i :: 0 <= i < |files| ==> IsKey(Names(repo, files)[i])
  {
    forall i | 0 <= i < |files| ensures IsKey(Names(repo, files)[i]) {
      NameOfFile(repo, files[i].path);
      TrimmedIsFixed(Rel(repo, files[i].path), IsSpace);
    }
  }

  // What appending these names makes of a manifest without finals.
  lemma {:induction false} DeclaredAfterAppend(m: Manifest, names: seq<string>)
    requires NoFinals(m) && names != [] && !Glued(m) && forall i :: 0 <= i < |names| ==> IsKey(names[i])
    ensures var d := Declared(AppendAll(m, Declarations(names)).lines);
      && d.Ok? && d.value.Keys == (set n | n in names)
      && forall key :: key in d.value ==> d.value[key] == Item(key, "", true)
  {
    var more := ClaimsOf(Declarations(names));
    ClaimsOfNames(names);
    ClaimsConcat(Kept(m), Declarations(names));
    NothingKept(m);
    FillNames(ClaimsOf(Kept(m)), names, ClaimsOf(Kept(m)) + more);
  }

  function RecordOf(stat: AbsPath -> Stat, repo: AbsPath, f: FileSnapshot): ArtifactRecord {
    var size := if stat(f.path).Regular? then stat(f.path).size else 0;
    ArtifactRecord(Base(f.path), Rel(repo, f.path), Rel(repo, f.path), size)
  }

  // One record for each file and nothing else, in ascending order of the path.
  ghost predicate Lists(stat: AbsPath -> Stat, repo: AbsPath, files: seq<FileSnapshot>, r: seq<ArtifactRecord>) {
    && (forall i, j :: 0 <= i < j < |r| ==> Less(r[i].relativePath, r[j].relativePath))
    && (forall i :: 0 <= i < |files| ==> RecordOf(stat, repo, files[i]) in r)
    && (forall a :: a in r ==> exists i :: 0 <= i < |files| && a == RecordOf(stat, repo, files[i]))
  }

  // What building the record of a plain file gives.
  ghost predicate OutcomeFor(
    stat: AbsPath -> Stat, repo: AbsPath, f: FileSnapshot, r: Result<ArtifactRecord, Failure>)
  {
    (r.Ok? <==> StorableFile(repo, f)) && (r.Ok? ==> r.value == RecordOf(stat, repo, f))
  }

  // Records that answer for the same names answer for the files.
  lemma {:induction false} ListsByName(
    stat: AbsPath -> Stat, repo: AbsPath, files: seq<FileSnapshot>, names: seq<string>, paths: seq<string>,
    r: seq<ArtifactRecord>)
    requires |names| == |files| && |paths| == |r| && Ascending(paths)
    requires forall n :: n in names <==> n in paths
    requires forall i, j :: 0 <= i < |names| && 0 <= j < |paths| && names[i] == paths[j] ==>
      r[j] == RecordOf(stat, repo, files[i])
    requires forall i :: 0 <= i < |names| ==> RecordOf(stat, repo, files[i]).relativePath == names[i]
    ensures Lists(stat, repo, files, r)
  {
    forall i | 0 <= i < |names| ensures RecordOf(stat, repo, files[i]) in r {
      assert names[i] in names;
      var j :| 0 <= j < |paths| && paths[j] == names[i];
      assert r[j] in r;
    }
    forall j | 0 <= j < |r|
      ensures exists i :: 0 <= i < |files| && r[j] == RecordOf(stat, repo, files[i]) && paths[j] == names[i]
    {
      assert paths[j] in paths;
      var i :| 0 <= i < |names| && names[i] == paths[j];
      assert r[j] == RecordOf(stat, repo, files[i]);
    }
    forall i, j | 0 <= i < j < |r| ensures Less(r[i].relativePath, r[j].relativePath) {
      assert Less(paths[i], paths[j]);
    }
  }

  lemma {:induction false} FindIn(xs: seq<string>, x: string) returns (i: nat)
    requires x in xs
    ensures i < |xs| && xs[i] == x
  {
    i :| i < |xs| && xs[i] == x;
  }

  lemma {:induction false} AllOutcomesOk(
    files: seq<FileSnapshot>, repo: AbsPath, stat: AbsPath -> Stat, names: seq<string>, paths: seq<string>,
    outcomes: seq<Result<ArtifactRecord, Failure>>)
    requires |names| == |files| && |paths| == |outcomes|
    requires forall n :: n in names <==> n in paths
    requires forall i, j :: 0 <= i < |names| && 0 <= j < |paths| && names[i] == paths[j] ==>
      OutcomeFor(stat, repo, files[i], outcomes[j])
    ensures (forall j :: 0 <= j < |outcomes| ==> outcomes[j].Ok?) <==> AllStorable(repo, files)
  {
    if AllStorable(repo, files) {
      forall j | 0 <= j < |outcomes| ensures outcomes[j].Ok? {
        assert paths[j] in paths;
        var i := FindIn(names, paths[j]);
        assert OutcomeFor(stat, repo, files[i], outcomes[j]);
      }
    }
    if forall j :: 0 <= j < |outcomes| ==> outcomes[j].Ok? {
      forall i | 0 <= i < |files| ensures StorableFile(repo, files[i]) {
        assert names[i] in names;
        var j := FindIn(paths, names[i]);
        assert OutcomeFor(stat, repo, files[i], outcomes[j]);
      }
    }
  }

  lemma {:induction false} GatherNames(
    stat: AbsPath -> Stat, repo: AbsPath, files: seq<FileSnapshot>, names: seq<string>, paths: seq<string>,
    outcomes: seq<Result<ArtifactRecord, Failure>>)
    requires |names| == |files| && |paths| == |outcomes| && Ascending(paths)
    requires forall n :: n in names <==> n in paths
    requires forall i :: 0 <= i < |names| ==> RecordOf(stat, repo, files[i]).relativePath == names[i]
    requires forall i, j :: 0 <= i < |names| && 0 <= j < |paths| && names[i] == paths[j] ==>
      OutcomeFor(stat, repo, files[i], outcomes[j])
    ensures var r := Gather(outcomes);
      (r.Ok? <==> AllStorable(repo, files)) && (r.Ok? ==> Lists(stat, repo, files, r.value))
  {
    GatherExactly(outcomes);
    AllOutcomesOk(files, repo, stat, names, paths, outcomes);
    if Gather(outcomes).Ok? {
      var r := Gather(outcomes).value;
      forall i, j | 0 <= i < |names| && 0 <= j < |paths| && names[i] == paths[j]
        ensures r[j] == RecordOf(stat, repo, files[i])
      {
        assert OutcomeFor(stat, repo, files[i], outcomes[j]);
      }
      ListsByName(stat, repo, files, names, paths, r);
    }
  }

  lemma {:induction false} BuildNames(
    eval: AbsPath -> Eval, stat: AbsPath -> Stat, repo: AbsPath, files: seq<FileSnapshot>,
    declared: map<string, Item>)
    requires AllRegular(eval, stat, repo, files)
    requires declared.Keys == (set n | n in Names(repo, files))
    requires forall key :: key in declared ==> declared[key] == Item(key, "", true)
    ensures var r := BuildAll(eval, stat, repo, declared, Sorted(declared.Keys));
      (r.Ok? <==> AllStorable(repo, files)) && (r.Ok? ==> Lists(stat, repo, files, r.value))
  {
    var names, paths := Names(repo, files), Sorted(declared.Keys);
    var outcomes := Outcomes(eval, stat, repo, declared, paths);
    forall i, j | 0 <= i < |names| && 0 <= j < |paths| && names[i] == paths[j]
      ensures OutcomeFor(stat, repo, files[i], outcomes[j])
    {
      BuildExactly(eval, stat, repo, files[i]);
    }
    GatherNames(stat, repo, files, names, paths, outcomes);
  }

  lemma {:induction false} GluedIsMalformed(m: Manifest, names: seq<string>)
    requires names != [] && Glued(m)
    ensures Declared(AppendAll(m, Declarations(names)).lines).Err?
  {
    var lines := AppendAll(m, Declarations(names)).lines;
    assert lines[|Kept(m)|] == Malformed;
    assert ClaimsOf(lines)[|Kept(m)|] in ClaimsOf(lines);
    EveryClaimCounts(ClaimsOf(lines));
  }

  // What collecting gives for a manifest that may be missing.
  ghost function CollectedFrom(
    eval: AbsPath -> Eval, stat: AbsPath -> Stat, repo: AbsPath, manifest: Option<Manifest>
  ): Result<seq<ArtifactRecord>, Failure>
  {
    if manifest.Some? then Collected(eval, stat, repo, manifest.value.lines) else Ok([])
  }

  /**
   Collecting after reconciling gives one record per changed file, in order,
   exactly when every one of them may be stored and the manifest ended cleanly.
   */
  lemma {:induction false} CollectAfterReconcile(
    eval: AbsPath -> Eval, stat: AbsPath -> Stat, repo: AbsPath, manifest: Option<Manifest>, baseline: Baseline,
    current: seq<FileSnapshot>)
    requires NoFinals(Current(manifest))
    requires AllRegular(eval, stat, repo, Candidates(baseline, current))
    ensures var files := Candidates(baseline, current);
      var r := CollectedFrom(eval, stat, repo, Reconciled(manifest, repo, baseline, current));
      (r.Ok? <==> files == [] || (!Glued(Current(manifest)) && AllStorable(repo, files)))
      && (r.Ok? ==> Lists(stat, repo, files, r.value))
  {
    var files, m := Candidates(baseline, current), Current(manifest);
    var names := Names(repo, files);
    AppendsCandidates(manifest, repo, baseline, current);
    if files == [] {
      NothingCollected(eval, stat, repo, manifest);
    } else if Glued(m) {
      GluedIsMalformed(m, names);
    } else {
      CollectNames(eval, stat, repo, m, files);
    }
  }

  lemma {:induction false} AppendsCandidates(
    manifest: Option<Manifest>, repo: AbsPath, baseline: Baseline, current: seq<FileSnapshot>)
    requires NoFinals(Current(manifest))
    ensures var files := Candidates(baseline, current);
      Reconciled(manifest, repo, baseline, current) ==
        if files == [] then manifest else Some(AppendAll(Current(manifest), Declarations(Names(repo, files))))
  {
  }

  lemma {:induction false} NothingCollected(
    eval: AbsPath -> Eval, stat: AbsPath -> Stat, repo: AbsPath, manifest: Option<Manifest>)
    requires NoFinals(Current(manifest))
    ensures CollectedFrom(eval, stat, repo, manifest) == Ok([])
  {
    NothingToFill(ClaimsOf(Current(manifest).lines));
    var none: map<string, Item> := map[];
    assert Sorted(none.Keys) == [];
  }

  lemma {:induction false} CollectNames(
    eval: AbsPath -> Eval, stat: AbsPath -> Stat, repo: AbsPath, m: Manifest, files: seq<FileSnapshot>)
    requires NoFinals(m) && !Glued(m) && files != [] && AllRegular(eval, stat, repo, files)
    ensures var r := Collected(eval, stat, repo, AppendAll(m, Declarations(Names(repo, files))).lines);
      (r.Ok? <==> AllStorable(repo, files)) && (r.Ok? ==> Lists(stat, repo, files, r.value))
  {
    var names := Names(repo, files);
    NamesAreKeys(eval, stat, repo, files);
    DeclaredAfterAppend(m, names);
    BuildNames(eval, stat, repo, files, Declared(AppendAll(m, Declarations(names)).lines).value);
  }

  lemma {:induction false} TopIsSkipped(repo: AbsPath, name: string)
    requires name == ".git" || name == ".leros"
    requires IsName(name)
    ensures ShouldSkipDir(repo, Child(repo, name))
  {
    JoinToAppends(repo, [name]);
  }

  lemma {:induction false} SkippedTopHides(git: AbsPath -> Option<bool>, repo: AbsPath, name: string, rel: AbsPath)
    requires |rel| > 1 && rel[0] == name && IsName(name) && ShouldSkipDir(repo, Child(repo, name))
    ensures !Visible(git, repo, |repo|, repo + rel)
  {
    assert (repo + rel)[..|repo| + 1] == Child(repo, name);
  }

  /** Of the files a scan finds, the ones that cannot be stored are a plain .git or
      .leros at the top, and names starting with "..". */
  lemma {:induction false} ScannedFilesAreStorable(git: AbsPath -> Option<bool>, repo: AbsPath, rel: AbsPath)
    requires rel != [] && Visible(git, repo, |repo|, repo + rel)
    ensures Storable(Path(false, rel)) <==> !(".." <= rel[0]) && rel != [".git"] && rel != [".leros"]
  {
    if |rel| > 1 && (rel[0] == ".git" || rel[0] == ".leros") {
      TopIsSkipped(repo, rel[0]);
      SkippedTopHides(git, repo, rel[0], rel);
    } else if |rel| == 1 {
      assert rel == [rel[0]];
    }
  }
}
