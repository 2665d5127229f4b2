/**
 Unix paths as the filepath package treats them. A cleaned path is a list of
 segments; printing and parsing go between the list and the string.
 */
module Paths {
  import opened Common
  import opened Text

  datatype Path = Path(rooted: bool, segs: seq<string>)

  predicate IsSegment(p: string) {
    p != "" && p != "." && '/' !in p
  }

  // A segment that goes down.
  predicate IsName(p: string) {
    IsSegment(p) && p != ".."
  }

  predicate AllNames(names: seq<string>) {
    forall i :: 0 <= i < |names| ==> IsName(names[i])
  }

  // No empty or "." segment; ".." only in front, and never below the root.
  predicate Canonical(rooted: bool, segs: seq<string>) {
    if rooted then AllNames(segs)
    else
      && (forall i :: 0 <= i < |segs| ==> IsSegment(segs[i]))
      && (forall i, j :: 0 <= i < j < |segs| && segs[j] == ".." ==> segs[i] == "..")
  }

  predicate Slashless(parts: seq<string>) {
    forall p :: p in parts ==> '/' !in p
  }

  // An absolute cleaned path.
  type AbsPath = segs: seq<string> | AllNames(segs) witness []

  function Push(rooted: bool, done: seq<string>, p: string): (r: seq<string>)
    requires '/' !in p && Canonical(rooted, done)
    ensures Canonical(rooted, r)
  {
    if p == "" || p == "." then done
    else if p != ".." then done + [p]
    else if done != [] && done[|done| - 1] != ".." then done[..|done| - 1]
    else if rooted then done
    else done + [p]
  }

  function Walk(rooted: bool, done: seq<string>, parts: seq<string>): (r: seq<string>)
    requires Slashless(parts) && Canonical(rooted, done)
    ensures Canonical(rooted, r)
    decreases |parts|
  {
    if parts == [] then done
    else
      assert parts[0] in parts;
      Walk(rooted, Push(rooted, done, parts[0]), parts[1..])
  }

  predicate IsAbs(s: string) {
    s != "" && s[0] == '/'
  }

  function Parse(s: string): (p: Path)
    ensures Canonical(p.rooted, p.segs) && p.rooted == IsAbs(s)
  {
    Path(IsAbs(s), Walk(IsAbs(s), [], Split(s, '/')))
  }

  function Print(p: Path): string {
    if p.rooted then "/" + Join(p.segs, '/')
    else if p.segs == [] then "."
    else Join(p.segs, '/')
  }

  // filepath.Clean
  function Clean(s: string): string {
    Print(Parse(s))
  }

  function Abs(p: AbsPath): string {
    Print(Path(true, p))
  }

  // filepath.Join of an absolute cleaned path and one more element
  function JoinTo(root: AbsPath, elem: string): AbsPath {
    Walk(true, root, Split(elem, '/'))
  }

  function Ups(n: nat): (r: seq<string>)
    ensures |r| == n && forall i :: 0 <= i < n ==> r[i] == ".."
  {
    if n == 0 then [] else [".."] + Ups(n - 1)
  }

  function RelSegments(base: seq<string>, target: seq<string>): seq<string>
    decreases |base|
  {
    if base != [] && target != [] && base[0] == target[0] then RelSegments(base[1..], target[1..])
    else Ups(|base|) + target
  }

  // filepath.Rel between two absolute cleaned paths, which never fails
  function Rel(base: AbsPath, target: AbsPath): string {
    Print(Path(false, RelSegments(base, target)))
  }

  // ------------------------------------------------------------ round trips

  lemma {:induction false} WalkConcat(rooted: bool, done: seq<string>, a: seq<string>, b: seq<string>)
    requires Slashless(a) && Slashless(b) && Canonical(rooted, done)
    ensures Walk(rooted, done, a + b) == Walk(rooted, Walk(rooted, done, a), b)
    decreases |a|
  {
    if a == [] {
      assert a + b == b;
    } else {
      assert a[0] in a && (a + b)[1..] == a[1..] + b;
      WalkConcat(rooted, Push(rooted, done, a[0]), a[1..], b);
    }
  }

  lemma {:induction false} WalkKeeps(rooted: bool, done: seq<string>, parts: seq<string>)
    requires Canonical(rooted, done + parts)
    ensures Slashless(parts) && Canonical(rooted, done)
    ensures Walk(rooted, done, parts) == done + parts
    decreases |parts|
  {
    var all := done + parts;
    assert all[..|done|] == done && all[|done|..] == parts;
    if parts == [] {
      assert all == done;
    } else {
      assert all == (done + [parts[0]]) + parts[1..];
      assert parts[0] == all[|done|];
      WalkKeeps(rooted, done + [parts[0]], parts[1..]);
    }
  }

  lemma {:induction false} SegmentsOf(segs: seq<string>)
    requires Slashless(segs)
    ensures Split(Join(segs, '/'), '/') == if segs == [] then [""] else segs
  {
    if segs != [] {
      SplitJoin(segs, '/');
    }
  }

  lemma {:induction false} FirstCharacter(segs: seq<string>)
    requires segs != [] && segs[0] != ""
    ensures Join(segs, '/') != "" && Join(segs, '/')[0] == segs[0][0]
  {
  }

  /** A printed path reads back as itself, so cleaning twice is cleaning once. */
  lemma {:induction false} PrintParse(p: Path)
    requires Canonical(p.rooted, p.segs)
    ensures Parse(Print(p)) == p
  {
    var text := Join(p.segs, '/');
    assert Slashless(p.segs);
    SegmentsOf(p.segs);
    WalkKeeps(p.rooted, [], p.segs);
    assert [] + p.segs == p.segs;
    if p.rooted {
      SplitCons('/', text, '/');
      assert ([""] + Split(text, '/'))[1..] == Split(text, '/');
      if p.segs == [] {
        assert Split(Print(p), '/') == ["", ""];
        assert ["", ""][1..] == [""];
      }
    } else if p.segs == [] {
      SplitPart(".", '/');
    } else {
      assert p.segs[0] in p.segs;
      FirstCharacter(p.segs);
    }
  }

  // --------------------------------------------------- joining and relating

  /** JoinTo works on the lists as cleaning works on the joined string. */
  lemma {:induction false} JoinToCleans(root: AbsPath, elem: string)
    ensures Clean(Abs(root) + "/" + elem) == Abs(JoinTo(root, elem))
  {
    var s := Abs(root);
    PrintParse(Path(true, root));
    assert s + ['/'] + elem == s + "/" + elem && s[0] == '/';
    SplitConcat(s, elem, '/');
    WalkConcat(true, [], Split(s, '/'), Split(elem, '/'));
  }

  lemma {:induction false} JoinToAppends(root: AbsPath, segs: AbsPath)
    requires segs != []
    ensures JoinTo(root, Join(segs, '/')) == root + segs
  {
    assert Slashless(segs);
    SegmentsOf(segs);
    WalkKeeps(true, root, segs);
  }

  lemma {:induction false} RelBelow(base: seq<string>, rest: seq<string>)
    ensures RelSegments(base, base + rest) == rest
    decreases |base|
  {
    if base == [] {
      assert base + rest == rest;
    } else {
      assert (base + rest)[1..] == base[1..] + rest;
      RelBelow(base[1..], rest);
    }
  }

  lemma {:induction false} RelBeside(base: seq<string>, target: seq<string>)
    requires !(base <= target)
    ensures RelSegments(base, target) != [] && RelSegments(base, target)[0] == ".."
    decreases |base|
  {
    if base != [] && target != [] && base[0] == target[0] {
      assert base == [base[0]] + base[1..] && target == [target[0]] + target[1..];
      RelBeside(base[1..], target[1..]);
    }
  }

  // A slash-free prefix of a joined list lies in its first segment.
  lemma {:induction false} PrefixInFirst(segs: seq<string>, t: string)
    requires segs != [] && '/' !in t
    ensures t <= Join(segs, '/') <==> t <= segs[0]
  {
    var s := Join(segs, '/');
    assert segs[0] <= s;
    if |segs| > 1 && |t| > |segs[0]| {
      assert s[|segs[0]|] == '/' && t[|segs[0]|] in t;
    }
    if t <= s && |t| <= |segs[0]| {
      assert t == s[..|t|] == segs[0][..|t|];
    }
  }

  /** "Equal, or a string prefix ending at a slash" means a prefix of the segments. */
  lemma {:induction false} PrefixAtSlash(dir: seq<string>, segs: seq<string>)
    requires dir != [] && segs != [] && Slashless(dir) && Slashless(segs)
    ensures Join(segs, '/') == Join(dir, '/') || Join(dir, '/') + "/" <= Join(segs, '/') <==> dir <= segs
  {
    var d, s := Join(dir, '/'), Join(segs, '/');
    SplitJoin(dir, '/');
    SplitJoin(segs, '/');
    if d + "/" <= s {
      var rest := s[|d| + 1..];
      assert s == d + ['/'] + rest;
      SplitConcat(d, rest, '/');
    }
    if dir <= segs && dir != segs {
      assert segs == dir + segs[|dir|..];
      JoinConcat(dir, segs[|dir|..], '/');
      assert d + "/" == d + ['/'];
    }
  }

  // ------------------------------------------------------------- navigation

  lemma {:induction false} ParseOn(a: string, more: string)
    requires a != ""
    ensures Parse(a + "/" + more).rooted == IsAbs(a)
    ensures Slashless(Split(more, '/'))
    ensures Parse(a + "/" + more).segs == Walk(IsAbs(a), Parse(a).segs, Split(more, '/'))
  {
    assert a + "/" + more == a + ['/'] + more && (a + "/" + more)[0] == a[0];
    SplitConcat(a, more, '/');
    WalkConcat(IsAbs(a), [], Split(a, '/'), Split(more, '/'));
  }

  lemma {:induction false} OneMore(rooted: bool, done: seq<string>, p: string)
    requires '/' !in p && Canonical(rooted, done)
    ensures Slashless([p]) && Walk(rooted, done, [p]) == Push(rooted, done, p)
  {
    assert [p][1..] == [];
  }

  lemma {:induction false} GoesDown(a: string, name: string)
    requires a != "" && IsName(name)
    ensures Parse(a + "/" + name) == Path(IsAbs(a), Parse(a).segs + [name])
  {
    SplitPart(name, '/');
    ParseOn(a, name);
    OneMore(IsAbs(a), Parse(a).segs, name);
  }

  lemma {:induction false} GoesUp(a: string, segs: seq<string>, name: string)
    requires a != "" && Parse(a).segs == segs + [name] && name != ".."
    ensures Parse(a + "/" + "..") == Path(IsAbs(a), segs)
  {
    SplitPart("..", '/');
    ParseOn(a, "..");
    OneMore(IsAbs(a), segs + [name], "..");
    assert (segs + [name])[..|segs|] == segs;
  }

  lemma {:induction false} Stays(a: string, dot: string)
    requires a != "" && (dot == "." || dot == "")
    ensures Parse(a + "/" + dot) == Parse(a)
  {
    SplitPart(dot, '/');
    ParseOn(a, dot);
    OneMore(IsAbs(a), Parse(a).segs, dot);
  }

  /** A name goes down and two dots go back up, except at the root; a dot and an empty
      segment stay. */
  lemma {:induction false} NamesGoDown(a: string, name: string)
    requires a != "" && IsName(name)
    ensures Parse(a + "/" + name).segs == Parse(a).segs + [name]
    ensures Clean(a + "/" + name + "/" + "..") == Clean(a)
    ensures Clean(a + "/" + ".") == Clean(a) && Clean(a + "/" + "") == Clean(a) && Clean("/..") == "/"
  {
    GoesDown(a, name);
    assert (a + "/" + name)[0] == a[0];
    GoesUp(a + "/" + name, Parse(a).segs, name);
    Stays(a, ".");
    Stays(a, "");
    AtTheRoot();
  }

  lemma {:induction false} AtTheRoot()
    ensures Clean("/..") == "/"
  {
    SplitPart("..", '/');
    SplitPart("", '/');
    SplitConcat("", "..", '/');
    assert "" + ['/'] + ".." == "/..";
    WalkConcat(true, [], [""], [".."]);
    OneMore(true, [], "");
    OneMore(true, [], "..");
  }

  /** A relative path leads from its base to its target. */
  lemma {:induction false} RelLeadsThere(base: AbsPath, target: AbsPath)
    ensures Slashless(RelSegments(base, target)) && Walk(true, base, RelSegments(base, target)) == target
  {
    assert [] + base == base && [] + target == target;
    RelLeadsFrom([], base, target);
  }

  lemma {:induction false} RelLeadsFrom(front: seq<string>, base: seq<string>, target: seq<string>)
    requires AllNames(front + base) && AllNames(front + target)
    ensures Slashless(RelSegments(base, target))
    ensures Walk(true, front + base, RelSegments(base, target)) == front + target
    decreases |base|
  {
    if base != [] && target != [] && base[0] == target[0] {
      assert front + base == front + [base[0]] + base[1..];
      assert front + target == front + [base[0]] + target[1..];
      RelLeadsFrom(front + [base[0]], base[1..], target[1..]);
    } else {
      assert forall i :: 0 <= i < |target| ==> target[i] == (front + target)[|front| + i];
      UpsLead(front, base);
      assert Slashless(target) by {
        assert forall p :: p in target ==> IsName(p);
      }
      WalkConcat(true, front + base, Ups(|base|), target);
      WalkKeeps(true, front, target);
    }
  }

  lemma {:induction false} UpsLead(front: seq<string>, base: seq<string>)
    requires AllNames(front + base)
    ensures Slashless(Ups(|base|)) && Walk(true, front + base, Ups(|base|)) == front
    decreases |base|
  {
    if base == [] {
      assert front + base == front;
    } else {
      var n := |base| - 1;
      var all := front + base;
      assert all[|all| - 1] == base[n] && IsName(base[n]);
      assert all[..|all| - 1] == front + base[..n];
      UpsLead(front, base[..n]);
      assert Ups(|base|)[1..] == Ups(n) && Ups(|base|)[0] == "..";
    }
  }

  // ------------------------------------------------------------------ length

  // Every segment with the slash in front of it.
  function Weight(parts: seq<string>): nat {
    if parts == [] then 0 else Weight(parts[..|parts| - 1]) + |parts[|parts| - 1]| + 1
  }

  lemma {:induction false} WeightConcat(a: seq<string>, b: seq<string>)
    ensures Weight(a + b) == Weight(a) + Weight(b)
    decreases |b|
  {
    if b == [] {
      assert a + b == a;
    } else {
      assert (a + b)[..|a + b| - 1] == a + b[..|b| - 1];
      WeightConcat(a, b[..|b| - 1]);
    }
  }

  lemma {:induction false} WeightOfJoin(parts: seq<string>)
    requires parts != []
    ensures Weight(parts) == |Join(parts, '/')| + 1
    decreases |parts|
  {
    assert parts == [parts[0]] + parts[1..];
    WeightConcat([parts[0]], parts[1..]);
    assert [parts[0]][..0] == [];
    if |parts| > 1 {
      WeightOfJoin(parts[1..]);
    }
  }

  lemma {:induction false} WalkLosesWeight(rooted: bool, done: seq<string>, parts: seq<string>)
    requires Slashless(parts) && Canonical(rooted, done)
    ensures Weight(Walk(rooted, done, parts)) <= Weight(done) + Weight(parts)
    decreases |parts|
  {
    if parts != [] {
      var p := parts[0];
      assert p in parts && parts == [p] + parts[1..];
      WeightConcat([p], parts[1..]);
      assert [p][..0] == [];
      var next := Push(rooted, done, p);
      assert (done + [p])[..|done|] == done;
      WalkLosesWeight(rooted, next, parts[1..]);
    }
  }

  /** Cleaning a non-empty path never makes it longer. */
  lemma {:induction false} CleanIsNoLonger(s: string)
    requires s != ""
    ensures |Clean(s)| <= |s|
  {
    var parts := Split(s, '/');
    JoinSplit(s, '/');
    WeightOfJoin(parts);
    WalkLosesWeight(IsAbs(s), [], parts);
    var p := Parse(s);
    if p.segs != [] {
      WeightOfJoin(p.segs);
      if p.rooted {
        var tail := s[1..];
        assert s == ['/'] + tail;
        SplitCons('/', tail, '/');
        var more := Split(tail, '/');
        assert parts == [""] + more && ([""] + more)[1..] == more;
        WalkLosesWeight(true, [], more);
        WeightOfJoin(more);
        JoinSplit(tail, '/');
      }
    }
  }
}
