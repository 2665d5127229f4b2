/** Splitting a model URL into its root, its /v1 flag and its endpoint. */
module LLMBaseURL {
  import opened Common
  import opened Text

  // Tried in this order.
  const SUFFIXES: seq<string> := [
    "/v1",
    "/chat/completions",
    "/api/generate",
    "/completions",
    "/responses",
    "/messages",
    "/generate",
    "/api/chat",
    ":generateContent",
    ":streamGenerateContent"]

  predicate IsSlash(c: char) {
    c == '/'
  }

  function TrimSlashes(s: string): (r: string)
    ensures r <= s
  {
    TrimRight(s, IsSlash)
  }

  // The index of the first listed suffix of t from the i-th on.
  function FirstFrom(t: string, i: nat): (r: Option<nat>)
    requires i <= |SUFFIXES|
    ensures r.Some? ==> i <= r.value < |SUFFIXES| && HasSuffix(t, SUFFIXES[r.value])
    ensures forall j :: i <= j < |SUFFIXES| && (r.None? || j < r.value) ==> !HasSuffix(t, SUFFIXES[j])
    decreases |SUFFIXES| - i
  {
    if i == |SUFFIXES| then None else if HasSuffix(t, SUFFIXES[i]) then Some(i) else FirstFrom(t, i + 1)
  }

  function Stripped(trimmed: string): string {
    match FirstFrom(trimmed, 0)
    case Some(i) => TrimSlashes(CutSuffix(CutSuffix(trimmed, SUFFIXES[i]), "/v1"))
    case None => TrimSlashes(trimmed)
  }

  function Normalized(baseURL: string): string {
    Stripped(TrimSlashes(TrimSpace(baseURL)))
  }

  // Only the suffixes behind the first, which is /v1 itself.
  function EndsInV1(normalized: string): bool {
    match FirstFrom(normalized, 1)
    case Some(i) => HasSuffix(TrimSlashes(CutSuffix(normalized, SUFFIXES[i])), "/v1")
    case None => CutSuffix(normalized, "/v1") != normalized
  }

  function HasV1(rawURL: string): bool {
    EndsInV1(TrimSlashes(TrimSpace(rawURL)))
  }

  method NormalizeLLMBaseURL(baseURL: string) returns (r: string)
    ensures r == Normalized(baseURL)
  {
    var trimmed := TrimSlashes(TrimSpace(baseURL));
    for i := 0 to |SUFFIXES|
      invariant forall j :: 0 <= j < i ==> !HasSuffix(trimmed, SUFFIXES[j])
    {
      if HasSuffix(trimmed, SUFFIXES[i]) {
        FirstIs(trimmed, 0, i);
        var cut := CutSuffix(trimmed, SUFFIXES[i]);
        if HasSuffix(cut, "/v1") {
          return TrimSlashes(CutSuffix(cut, "/v1"));
        }
        Uncut(cut, "/v1");
        return TrimSlashes(cut);
      }
    }
    NoneIs(trimmed, 0);
    return TrimSlashes(trimmed);
  }

  method DetectURLHasV1(rawURL: string) returns (r: bool)
    ensures r == HasV1(rawURL)
  {
    var normalized := TrimSlashes(TrimSpace(rawURL));
    for i := 0 to |SUFFIXES|
      invariant forall j :: 1 <= j < i ==> !HasSuffix(normalized, SUFFIXES[j])
    {
      OnlyFirstIsV1(i);
      if SUFFIXES[i] == "/v1" {
        continue;
      }
      if HasSuffix(normalized, SUFFIXES[i]) {
        FirstIs(normalized, 1, i);
        return HasSuffix(TrimSlashes(CutSuffix(normalized, SUFFIXES[i])), "/v1");
      }
    }
    NoneIs(normalized, 1);
    return CutSuffix(normalized, "/v1") != TrimSlashes(TrimSpace(rawURL));
  }

  lemma {:induction false} Uncut(s: string, t: string)
    requires !HasSuffix(s, t)
    ensures CutSuffix(s, t) == s
  {
  }

  lemma {:induction false} NoneIs(t: string, start: nat)
    requires start <= |SUFFIXES| && forall j :: start <= j < |SUFFIXES| ==> !HasSuffix(t, SUFFIXES[j])
    ensures FirstFrom(t, start) == None
  {
  }

  lemma {:induction false} OnlyFirstIsV1(i: nat)
    requires i < |SUFFIXES|
    ensures SUFFIXES[i] == "/v1" <==> i == 0
  {
  }

  function BuildLLMEndpointURL(baseURL: string, hasV1: bool): string {
    if hasV1 then TrimSlashes(baseURL) + "/v1" else TrimSlashes(baseURL)
  }

  lemma {:induction false} NoEarlierSuffix(i: nat, j: nat)
    requires i < j < |SUFFIXES|
    ensures !HasSuffix(SUFFIXES[j], SUFFIXES[i])
  {
  }

  lemma {:induction false} OnlyTwoOverlap(i: nat, j: nat)
    requires i < j < |SUFFIXES|
    ensures HasSuffix(SUFFIXES[i], SUFFIXES[j]) <==> (i == 1 && j == 3) || (i == 2 && j == 6)
  {
  }

  lemma {:induction false} EndpointEdges(i: nat)
    requires i < |SUFFIXES|
    ensures var e := SUFFIXES[i]; |e| >= 3 && !IsSpace(e[0]) && !IsSpace(e[|e| - 1]) && e[|e| - 1] != '/'
  {
  }

  // ------------------------------------------------------------ round trip

  // A stored root: nothing to trim, and no listed suffix left.
  predicate IsRoot(r: string) {
    Trimmed(r, IsSpace) && (r == "" || r[|r| - 1] != '/') && forall j :: 0 <= j < |SUFFIXES| ==>
      !HasSuffix(r, SUFFIXES[j])
  }

  // None is no endpoint; the first suffix, /v1, is not one.
  predicate IsEndpoint(e: Option<nat>) {
    e.Some? ==> 1 <= e.value < |SUFFIXES|
  }

  function V1(v: bool): string {
    if v then "/v1" else ""
  }

  function EndpointText(e: Option<nat>): string
    requires IsEndpoint(e)
  {
    if e.Some? then SUFFIXES[e.value] else ""
  }

  function PrintURL(r: string, v: bool, e: Option<nat>, slashes: string): string
    requires IsEndpoint(e)
  {
    r + V1(v) + EndpointText(e) + slashes
  }

  // The end of the root reads as the front of a longer suffix.
  predicate Hidden(r: string, v: bool, e: Option<nat>) {
    !v && ((e == Some(3) && HasSuffix(r, "/chat")) || (e == Some(6) && HasSuffix(r, "/api")))
  }

  lemma {:induction false} FixedByTrim(s: string, slashes: string)
    requires s == "" || s[|s| - 1] != '/'
    requires forall i :: 0 <= i < |slashes| ==> slashes[i] == '/'
    ensures TrimSlashes(s + slashes) == s
  {
    TrimSuffix(s, slashes, IsSlash);
  }

  // No space at either end and no slash at the last.
  predicate Tidy(t: string) {
    t != "" ==> !IsSpace(t[0]) && !IsSpace(t[|t| - 1]) && t[|t| - 1] != '/'
  }

  lemma {:induction false} TidyAppend(r: string, e: string)
    requires Tidy(r) && Tidy(e)
    ensures Tidy(r + e)
  {
    if e == "" {
      assert r + e == r;
    }
  }

  lemma {:induction false} TidyTrims(t: string, slashes: string)
    requires Tidy(t) && forall i :: 0 <= i < |slashes| ==> slashes[i] == '/'
    ensures TrimSlashes(TrimSpace(t + slashes)) == t
  {
    var s := t + slashes;
    if s != "" {
      assert s[0] == if t == "" then slashes[0] else t[0];
      assert s[|s| - 1] == if slashes == "" then t[|t| - 1] else slashes[|slashes| - 1];
    }
    TrimmedIsFixed(s, IsSpace);
    FixedByTrim(t, slashes);
  }

  // Trimming a printed URL leaves the root, the flag and the endpoint.
  lemma {:induction false} PrintedTrims(r: string, v: bool, e: Option<nat>, slashes: string)
    requires IsRoot(r) && IsEndpoint(e) && forall i :: 0 <= i < |slashes| ==> slashes[i] == '/'
    ensures TrimSlashes(TrimSpace(PrintURL(r, v, e, slashes))) == r + V1(v) + EndpointText(e)
  {
    if e.Some? {
      EndpointEdges(e.value);
    }
    TidyAppend(r, V1(v));
    TidyAppend(r + V1(v), EndpointText(e));
    TidyTrims(r + V1(v) + EndpointText(e), slashes);
  }

  // Which earlier suffix a URL with an endpoint has.
  lemma {:induction false} EarlierSuffix(r: string, v: bool, i: nat, j: nat)
    requires j < i < |SUFFIXES|
    ensures HasSuffix(r + V1(v) + SUFFIXES[i], SUFFIXES[j]) <==>
      !v && ((i == 3 && j == 1 && HasSuffix(r, "/chat")) || (i == 6 && j == 2 && HasSuffix(r, "/api")))
  {
    var b, e, s := r + V1(v), SUFFIXES[i], SUFFIXES[j];
    NoEarlierSuffix(j, i);
    OnlyTwoOverlap(j, i);
    if |s| <= |e| {
      SuffixInside(b, e, s);
    } else {
      SuffixAcross(b, e, s);
      if HasSuffix(s, e) {
        FrontOfLonger(r, v, i, j);
      }
    }
  }

  lemma {:induction false} FrontOfLonger(r: string, v: bool, i: nat, j: nat)
    requires (i == 3 && j == 1) || (i == 6 && j == 2)
    ensures var front := SUFFIXES[j][..|SUFFIXES[j]| - |SUFFIXES[i]|];
      front == (if i == 3 then "/chat" else "/api") && (HasSuffix(r + V1(v), front) <==> !v && HasSuffix(r, front))
  {
    var front := SUFFIXES[j][..|SUFFIXES[j]| - |SUFFIXES[i]|];
    assert front == if i == 3 then "/chat" else "/api";
    if v {
      var b := r + V1(v);
      assert b[|b| - 1] == '1';
    } else {
      assert r + V1(v) == r;
    }
  }

  // What the scans find in a printed URL.
  function Found(r: string, v: bool, e: Option<nat>): Option<nat> {
    if e == None then (if v then Some(0) else None)
    else if Hidden(r, v, e) then (if e.value == 3 then Some(1) else Some(2))
    else e
  }

  lemma {:induction false} FirstIs(t: string, start: nat, k: nat)
    requires start <= k < |SUFFIXES| && HasSuffix(t, SUFFIXES[k])
    requires forall j :: start <= j < k ==> !HasSuffix(t, SUFFIXES[j])
    ensures FirstFrom(t, start) == Some(k)
  {
  }

  lemma {:induction false} ScanFindsEndpoint(r: string, v: bool, i: nat, t: string)
    requires 1 <= i < |SUFFIXES| && t == r + V1(v) + SUFFIXES[i]
    ensures FirstFrom(t, 0) == FirstFrom(t, 1) == Found(r, v, Some(i))
  {
    var k := Found(r, v, Some(i)).value;
    SuffixOfAppend(r + V1(v), SUFFIXES[i]);
    forall j | 0 <= j < i ensures HasSuffix(t, SUFFIXES[j]) <==> Hidden(r, v, Some(i)) && j == k {
      EarlierSuffix(r, v, i, j);
    }
    FirstIs(t, 0, k);
    FirstIs(t, 1, k);
  }

  lemma {:induction false} ScanFindsFlag(r: string, v: bool, t: string)
    requires IsRoot(r) && t == r + V1(v)
    ensures FirstFrom(t, 0) == Found(r, v, None) && FirstFrom(t, 1) == None
  {
    if v {
      SuffixOfAppend(r, "/v1");
      forall j | 1 <= j < |SUFFIXES| ensures !HasSuffix(t, SUFFIXES[j]) {
        NoV1Inside(r, j);
      }
    } else {
      assert t == r;
    }
  }

  lemma {:induction false} NoV1Inside(r: string, j: nat)
    requires 1 <= j < |SUFFIXES|
    ensures !HasSuffix(r + "/v1", SUFFIXES[j])
  {
    NoEarlierSuffix(0, j);
    EndpointEdges(j);
    if |SUFFIXES[j]| > 3 {
      SuffixAcross(r, "/v1", SUFFIXES[j]);
    } else {
      SuffixInside(r, "/v1", SUFFIXES[j]);
      OnlyTwoOverlap(0, j);
    }
  }

  // Without its endpoint, a URL that hides nothing is root and flag.
  lemma {:induction false} CutsBack(r: string, v: bool, e: Option<nat>)
    requires IsRoot(r) && IsEndpoint(e)
    ensures CutSuffix(r + V1(v) + EndpointText(e), EndpointText(e)) == r + V1(v)
    ensures CutSuffix(r + V1(v), "/v1") == r
    ensures HasSuffix(r + V1(v), "/v1") == v
    ensures TrimSlashes(r) == r && TrimSlashes(r + V1(v)) == r + V1(v)
  {
    SuffixOfAppend(r + V1(v), EndpointText(e));
    SuffixOfAppend(r, "/v1");
    assert SUFFIXES[0] == "/v1";
    if !v {
      assert r + V1(v) == r;
    }
    FixedByTrim(r, "");
    FixedByTrim(r + V1(v), "");
    assert r + "" == r && r + V1(v) + "" == r + V1(v);
  }

  // What the two scans answer for a printed URL, trimmed.
  lemma {:induction false} Scanned(r: string, v: bool, e: Option<nat>, t: string)
    requires IsRoot(r) && IsEndpoint(e) && t == r + V1(v) + EndpointText(e)
    ensures FirstFrom(t, 0) == Found(r, v, e) && FirstFrom(t, 1) == if e == None then None else Found(r, v, e)
  {
    match e
    case Some(i) => ScanFindsEndpoint(r, v, i, t);
    case None =>
      assert t == r + V1(v);
      ScanFindsFlag(r, v, t);
  }

  lemma {:induction false} StrippedShrinks(t: string)
    ensures |Stripped(t)| <= |t|
    ensures FirstFrom(t, 0).Some? ==> |Stripped(t)| + |SUFFIXES[FirstFrom(t, 0).value]| <= |t|
  {
  }

  lemma {:induction false} StripsToRoot(r: string, v: bool, e: Option<nat>, t: string)
    requires IsRoot(r) && IsEndpoint(e) && !Hidden(r, v, e) && t == r + V1(v) + EndpointText(e)
    ensures Stripped(t) == r
  {
    Scanned(r, v, e, t);
    CutsBack(r, v, e);
    if e == None {
      assert t == r + V1(v);
      if v {
        assert SUFFIXES[0] == "/v1" && !HasSuffix(r, "/v1");
      }
    }
  }

  /** Normalising a printed URL gives back the root, exactly when the root's end is not read as part of the endpoint. */
  lemma {:induction false} NormalizingRecoversRoot(r: string, v: bool, e: Option<nat>, slashes: string)
    requires IsRoot(r) && IsEndpoint(e) && forall i :: 0 <= i < |slashes| ==> slashes[i] == '/'
    ensures Normalized(PrintURL(r, v, e, slashes)) == r <==> !Hidden(r, v, e)
    ensures Hidden(r, v, e) ==> |Normalized(PrintURL(r, v, e, slashes))| < |r|
  {
    PrintedTrims(r, v, e, slashes);
    var t := r + V1(v) + EndpointText(e);
    if Hidden(r, v, e) {
      Scanned(r, v, e, t);
      StrippedShrinks(t);
      HiddenIsLonger(e.value);
    } else {
      StripsToRoot(r, v, e, t);
    }
  }

  lemma {:induction false} HiddenIsLonger(i: nat)
    requires i == 3 || i == 6
    ensures |SUFFIXES[if i == 3 then 1 else 2]| > |SUFFIXES[i]|
  {
  }

  /** Detection gives back the flag; a hidden end misleads it only when /v1 stands in front of that end. */
  lemma {:induction false} DetectionRecoversFlag(r: string, v: bool, e: Option<nat>, slashes: string)
    requires IsRoot(r) && IsEndpoint(e) && forall i :: 0 <= i < |slashes| ==> slashes[i] == '/'
    ensures HasV1(PrintURL(r, v, e, slashes)) == v <==>
      !(Hidden(r, v, e) && HasSuffix(TrimSlashes(CutSuffix(r, if e == Some(3) then "/chat" else "/api")), "/v1"))
  {
    PrintedTrims(r, v, e, slashes);
    Scanned(r, v, e, r + V1(v) + EndpointText(e));
    CutsBack(r, v, e);
    if Hidden(r, v, e) {
      HiddenCut(r, e.value);
    }
  }

  lemma {:induction false} HiddenCut(r: string, i: nat)
    requires (i == 3 && HasSuffix(r, "/chat")) || (i == 6 && HasSuffix(r, "/api"))
    ensures CutSuffix(r + V1(false) + SUFFIXES[i], SUFFIXES[if i ==
      3 then 1 else 2]) == CutSuffix(r, if i == 3 then "/chat" else "/api")
  {
    var end := if i == 3 then "/chat" else "/api";
    var b := CutSuffix(r, end);
    assert r == b + end && end + SUFFIXES[i] == SUFFIXES[if i == 3 then 1 else 2];
    assert r + V1(false) + SUFFIXES[i] == b + (end + SUFFIXES[i]);
    SuffixOfAppend(b, end + SUFFIXES[i]);
  }

  /** Building from the two answers gives the URL without its endpoint, exactly when nothing is hidden. */
  lemma {:induction false} RebuildingDropsEndpoint(r: string, v: bool, e: Option<nat>, slashes: string)
    requires IsRoot(r) && IsEndpoint(e) && forall i :: 0 <= i < |slashes| ==> slashes[i] == '/'
    ensures var url := PrintURL(r, v, e, slashes);
      BuildLLMEndpointURL(Normalized(url), HasV1(url)) == r + V1(v) <==> !Hidden(r, v, e)
  {
    NormalizingRecoversRoot(r, v, e, slashes);
    DetectionRecoversFlag(r, v, e, slashes);
    CutsBack(r, v, e);
    if Hidden(r, v, e) {
      assert r + V1(v) == r && SUFFIXES[0] == "/v1" && !HasSuffix(r, "/v1");
      SuffixOfAppend(TrimSlashes(Normalized(PrintURL(r, v, e, slashes))), "/v1");
    }
  }

  // An untidy URL comes back shorter.
  lemma {:induction false} UntidyShrinks(y: string)
    requires !Tidy(y)
    ensures |TrimSlashes(TrimSpace(y))| < |y|
  {
    if Trimmed(y, IsSpace) {
      TrimmedIsFixed(y, IsSpace);
    }
  }

  /** A URL is left as it is by normalising exactly when it is a root. */
  lemma {:induction false} NormalizedIsStable(y: string)
    ensures Normalized(y) == y <==> IsRoot(y)
  {
    StrippedShrinks(TrimSlashes(TrimSpace(y)));
    if Tidy(y) {
      TidyTrims(y, "");
      assert y + "" == y;
      FixedByTrim(y, "");
      if FirstFrom(y, 0).Some? {
        EndpointEdges(FirstFrom(y, 0).value);
      }
    } else {
      UntidyShrinks(y);
    }
  }

  /** So normalising is not idempotent: an endpoint in front of /v1 goes at the
      second call. */
  lemma {:induction false} EndpointBeforeV1(r: string, i: nat)
    requires IsRoot(r) && 1 <= i < |SUFFIXES|
    ensures Normalized(r + SUFFIXES[i] + "/v1") == r + SUFFIXES[i]
    ensures !IsRoot(r + SUFFIXES[i])
  {
    var e := SUFFIXES[i];
    var t := r + e + "/v1";
    EndpointEdges(i);
    EndpointEdges(0);
    assert SUFFIXES[0] == "/v1";
    TrimmedIsFixed(t, IsSpace);
    FixedByTrim(t, "");
    assert t + "" == t;
    SuffixOfAppend(r + e, "/v1");
    NoEarlierSuffix(0, i);
    SuffixInside(r, e, "/v1");
    FixedByTrim(r + e, "");
    assert r + e + "" == r + e;
    SuffixOfAppend(r, e);
  }
}
