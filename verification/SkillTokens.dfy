/** The /skill tokens at the start of a message. */
module SkillTokens {
  import opened Common
  import opened Text

  // \s of the regular expression, which is narrower than unicode.IsSpace.
  predicate IsRegexpSpace(c: char) {
    c == ' ' || c == '\t' || c == '\n' || c == '\r' || c as int == 12
  }

  predicate IsLetter(c: char) {
    'a' <= c <= 'z' || 'A' <= c <= 'Z'
  }

  predicate IsNameChar(c: char) {
    IsLetter(c) || '0' <= c <= '9' || c == '_' || c == '-'
  }

  predicate All(s: string, p: char -> bool) {
    forall i :: 0 <= i < |s| ==> p(s[i])
  }

  predicate IsTokenName(name: string) {
    name != "" && IsLetter(name[0]) && All(name, IsNameChar)
  }

  datatype Span = Span(front: string, back: string)

  // The longest front whose characters all satisfy p.
  function SpanOf(s: string, p: char -> bool): Span {
    if s != "" && p(s[0]) then
      var r := SpanOf(s[1..], p);
      Span([s[0]] + r.front, r.back)
    else Span("", s)
  }

  lemma {:induction false} Extend(s: string, front: string, back: string, p: char -> bool)
    requires s != "" && p(s[0]) && s[1..] == front + back && All(front, p)
    ensures s == [s[0]] + front + back && All([s[0]] + front, p)
  {
    assert s == [s[0]] + s[1..];
  }

  lemma {:induction false} SpanMeans(s: string, p: char -> bool, r: Span)
    requires r == SpanOf(s, p)
    ensures s == r.front + r.back && All(r.front, p) && (r.back != "" ==> !p(r.back[0]))
  {
    if s != "" && p(s[0]) {
      var t := SpanOf(s[1..], p);
      SpanMeans(s[1..], p, t);
      Extend(s, t.front, t.back, p);
    }
  }

  datatype Match = Match(name: string, rest: string)

  // The name and the space or end behind it.
  function MatchName(s: string): Option<Match> {
    var r := SpanOf(s, IsNameChar);
    if !IsTokenName(r.front) then None
    else if r.back == "" then Some(Match(r.front, ""))
    else if IsRegexpSpace(r.back[0]) then Some(Match(r.front, r.back[1..]))
    else None
  }

  // What ^\s*/([A-Za-z][A-Za-z0-9_-]*)(\s|$) finds, and the text behind it.
  function MatchToken(s: string): Option<Match> {
    var t := SpanOf(s, IsRegexpSpace).back;
    if t == "" || t[0] != '/' then None else MatchName(t[1..])
  }

  datatype Parsed = Parsed(tokens: seq<string>, remaining: string)

  function Parse(s: string): Parsed
    decreases |s|
  {
    match MatchToken(s)
    case None => Parsed([], s)
    case Some(m) =>
      EachMatchShortens(s);
      var p := Parse(TrimSpace(m.rest));
      Parsed([m.name] + p.tokens, p.remaining)
  }

  lemma {:induction false} EachMatchShortens(s: string)
    ensures MatchToken(s).Some? ==> |TrimSpace(MatchToken(s).value.rest)| < |s|
  {
    if MatchToken(s).Some? {
      var lead, sep := MatchReads(s);
    }
  }

  // One turn of the loop.
  lemma {:induction false} ParseStep(s: string)
    requires MatchToken(s).Some?
    ensures var m := MatchToken(s).value; var p := Parse(TrimSpace(m.rest));
      |TrimSpace(m.rest)| < |s| && Parse(s) == Parsed([m.name] + p.tokens, p.remaining)
  {
    EachMatchShortens(s);
  }

  method ParseTokens(content: string) returns (tokens: seq<string>, remaining: string)
    ensures Parsed(tokens, remaining) == Parse(content)
  {
    remaining := content;
    tokens := [];
    ghost var p := Parse(content);
    while true
      invariant p == Parse(remaining)
      invariant Parse(content) == Parsed(tokens + p.tokens, p.remaining)
      decreases |remaining|
    {
      var m := MatchToken(remaining);
      if m.None? {
        break;
      }
      ParseStep(remaining);
      var rest := TrimSpace(m.value.rest);
      p := Parse(rest);
      assert tokens + ([m.value.name] + p.tokens) == tokens + [m.value.name] + p.tokens;
      tokens, remaining := tokens + [m.value.name], rest;
    }
  }

  // ------------------------------------------------------- the expression

  // The ways to read a string as the expression does.
  ghost predicate Reads(s: string, lead: string, name: string, sep: string, rest: string) {
    && s == lead + "/" + name + sep + rest
    && All(lead, IsRegexpSpace) && IsTokenName(name)
    && ((|sep| == 1 && IsRegexpSpace(sep[0])) || (sep == "" && rest == ""))
  }

  lemma {:induction false} SpanIsUnique(a: string, b: string, p: char -> bool)
    requires All(a, p) && (b == "" || !p(b[0]))
    ensures SpanOf(a + b, p) == Span(a, b)
    decreases |a|
  {
    if a == "" {
      assert a + b == b;
    } else {
      assert (a + b)[1..] == a[1..] + b;
      SpanIsUnique(a[1..], b, p);
    }
  }

  lemma {:induction false} NameIsRead(name: string, sep: string, rest: string)
    requires IsTokenName(name)
    requires (|sep| == 1 && IsRegexpSpace(sep[0])) || (sep == "" && rest == "")
    ensures MatchName(name + (sep + rest)) == Some(Match(name, rest))
  {
    SpanIsUnique(name, sep + rest, IsNameChar);
    if sep != "" {
      assert (sep + rest)[1..] == rest;
    }
  }

  /** A match is a reading of the string, and the only one. */
  lemma {:induction false} MatchIsTheReading(s: string, lead: string, name: string, sep: string, rest: string)
    requires Reads(s, lead, name, sep, rest)
    ensures MatchToken(s) == Some(Match(name, rest))
  {
    var u := name + (sep + rest);
    assert s == lead + (['/'] + u);
    SpanIsUnique(lead, ['/'] + u, IsRegexpSpace);
    assert (['/'] + u)[1..] == u;
    NameIsRead(name, sep, rest);
  }

  lemma {:induction false} NameReads(s: string) returns (sep: string)
    requires MatchName(s).Some?
    ensures var m := MatchName(s).value; IsTokenName(m.name) && s == m.name + (sep + m.rest)
    ensures (|sep| == 1 && IsRegexpSpace(sep[0])) || (sep == "" && MatchName(s).value.rest == "")
  {
    var r := SpanOf(s, IsNameChar);
    SpanMeans(s, IsNameChar, r);
    if r.back == "" {
      sep := "";
    } else {
      sep := [r.back[0]];
      assert r.back == sep + r.back[1..];
    }
  }

  lemma {:induction false} MatchReads(s: string) returns (lead: string, sep: string)
    requires MatchToken(s).Some?
    ensures Reads(s, lead, MatchToken(s).value.name, sep, MatchToken(s).value.rest)
  {
    var r := SpanOf(s, IsRegexpSpace);
    SpanMeans(s, IsRegexpSpace, r);
    lead := r.front;
    sep := NameReads(r.back[1..]);
    var m := MatchName(r.back[1..]).value;
    Assemble(s, lead, r.back, m.name, sep, m.rest);
  }

  lemma {:induction false} Assemble(s: string, lead: string, back: string, name: string, sep: string, rest: string)
    requires s == lead + back && back != "" && back[0] == '/' && back[1..] == name + (sep + rest)
    ensures s == lead + "/" + name + sep + rest
  {
    assert back == "/" + back[1..];
  }

  // ------------------------------------------------------------- remainder

  /** What remains starts with no token. */
  lemma {:induction false} RemainderHasNoToken(s: string)
    ensures MatchToken(Parse(s).remaining).None?
    decreases |s|
  {
    if MatchToken(s).Some? {
      ParseStep(s);
      RemainderHasNoToken(TrimSpace(MatchToken(s).value.rest));
    }
  }

  /** It is the input itself when no token was taken, and trimmed otherwise. */
  lemma {:induction false} RemainderIsTrimmed(s: string)
    ensures var p := Parse(s); if p.tokens == [] then p.remaining == s else TrimSpace(p.remaining) == p.remaining
    decreases |s|
  {
    if MatchToken(s).Some? {
      ParseStep(s);
      var rest := MatchToken(s).value.rest;
      RemainderIsTrimmed(TrimSpace(rest));
      TrimIsTrimmed(rest, IsSpace);
    }
  }

  // ------------------------------------------------------------- round trip

  // Cut characters around a string do not matter.
  lemma {:induction false} TrimAround(w: string, s: string, v: string)
    requires All(w, IsSpace) && All(v, IsSpace)
    ensures TrimSpace(w + s + v) == TrimSpace(s)
  {
    assert w + s + v == w + (s + v);
    TrimPrefix(w, s + v, IsSpace);
    LeftThenAppend(s, v);
    TrimSuffix(TrimLeft(s, IsSpace), v, IsSpace);
  }

  lemma {:induction false} LeftThenAppend(s: string, v: string)
    requires All(v, IsSpace)
    ensures TrimRight(TrimLeft(s + v, IsSpace), IsSpace) == TrimRight(TrimLeft(s, IsSpace) + v, IsSpace)
    decreases |s|
  {
    if s == "" {
      assert s + v == v;
      AllTrimmed(v);
      TrimSuffix("", v, IsSpace);
      assert "" + v == v;
    } else if IsSpace(s[0]) {
      assert (s + v)[1..] == s[1..] + v;
      LeftThenAppend(s[1..], v);
    }
  }

  lemma {:induction false} AllTrimmed(v: string)
    requires All(v, IsSpace)
    ensures TrimLeft(v, IsSpace) == ""
    decreases |v|
  {
    if v != "" {
      AllTrimmed(v[1..]);
    }
  }

  // Tokens as a user types them: a slash, the name and a gap before what follows.
  function Print(tokens: seq<string>, gaps: seq<string>, text: string): string
    requires |tokens| == |gaps|
  {
    if tokens == [] then text else "/" + tokens[0] + gaps[0] + Print(tokens[1..], gaps[1..], text)
  }

  predicate IsGap(gap: string) {
    gap != "" && All(gap, IsRegexpSpace)
  }

  lemma {:induction false} GapIsSpace(gap: string)
    requires All(gap, IsRegexpSpace)
    ensures All(gap, IsSpace)
  {
    forall i | 0 <= i < |gap| ensures IsSpace(gap[i]) {
      assert IsRegexpSpace(gap[i]);
    }
  }

  lemma {:induction false} ParseReading(s: string, lead: string, name: string, sep: string, rest: string)
    requires Reads(s, lead, name, sep, rest)
    ensures Parse(s) == Before(name, Parse(TrimSpace(rest)))
  {
    MatchIsTheReading(s, lead, name, sep, rest);
    ParseStep(s);
  }

  function Before(name: string, p: Parsed): Parsed {
    Parsed([name] + p.tokens, p.remaining)
  }

  // Behind a printed token the parser goes on with what follows, trimmed.
  lemma {:induction false} TakeToken(name: string, gap: string, more: string)
    requires IsTokenName(name) && IsGap(gap)
    ensures Parse("/" + name + gap + more) == Before(name, Parse(TrimSpace(more)))
  {
    var s := "/" + name + gap + more;
    var rest := gap[1..] + more;
    assert s == "" + "/" + name + gap[..1] + rest;
    ParseReading(s, "", name, gap[..1], rest);
    SameTrim(gap[1..], more, rest, "");
  }

  // What trimming leaves of a printed token and what follows it.
  lemma {:induction false} TrimmedToken(name: string, tail: string) returns (w: string, v: string)
    requires IsTokenName(name)
    ensures TrimSpace("/" + name + tail) == "/" + name + w && tail == w + v && All(v, IsSpace)
  {
    var head := "/" + name;
    var s := head + tail;
    var t := TrimRight(s, IsSpace);
    assert s[0] == '/' && TrimLeft(s, IsSpace) == s;
    assert s[|name|] == name[|name| - 1] && IsNameChar(name[|name| - 1]);
    assert |t| >= |head|;
    w, v := t[|head|..], s[|t|..];
    assert t == head + w && s == t + v && s == head + (w + v);
    assert tail == s[|head|..] == w + v;
    forall i | 0 <= i < |v| ensures IsSpace(v[i]) {
      assert v[i] == s[|t| + i];
    }
  }

  lemma {:induction false} TakeTrimmedToken(name: string, gap: string, more: string)
    requires IsTokenName(name) && IsGap(gap)
    ensures Parse(TrimSpace("/" + name + gap + more)) == Before(name, Parse(TrimSpace(more)))
  {
    assert "/" + name + gap + more == "/" + name + (gap + more);
    var w, v := TrimmedToken(name, gap + more);
    if w == "" {
      assert gap + more == v;
      TakeLast(name, gap, more);
    } else {
      TakeSpaced(name, gap, more, w, v);
    }
  }

  lemma {:induction false} TakeLast(name: string, gap: string, more: string)
    requires IsTokenName(name) && All(gap + more, IsSpace)
    ensures Parse("/" + name + "") == Before(name, Parse(TrimSpace(more)))
  {
    SpacesOnly(gap, more);
    var s := "/" + name + "";
    assert s == "" + "/" + name + "" + "";
    ParseReading(s, "", name, "", "");
  }

  lemma {:induction false} TakeSpaced(name: string, gap: string, more: string, w: string, v: string)
    requires IsTokenName(name) && IsGap(gap) && w != "" && gap + more == w + v && All(v, IsSpace)
    ensures Parse("/" + name + w) == Before(name, Parse(TrimSpace(more)))
  {
    var s := "/" + name + w;
    assert w[0] == (w + v)[0] == gap[0];
    assert (gap + more)[1..] == gap[1..] + more && (w + v)[1..] == w[1..] + v;
    assert s == "" + "/" + name + w[..1] + w[1..];
    ParseReading(s, "", name, w[..1], w[1..]);
    SameTrim(gap[1..], more, w[1..], v);
  }

  lemma {:induction false} SpacesOnly(gap: string, more: string)
    requires All(gap + more, IsSpace)
    ensures TrimSpace(more) == TrimSpace("")
  {
    forall i | 0 <= i < |more| ensures IsSpace(more[i]) {
      assert more[i] == (gap + more)[|gap| + i];
    }
    TrimAround(more, "", "");
    assert more + "" + "" == more;
  }

  lemma {:induction false} SameTrim(gap: string, more: string, rest: string, v: string)
    requires gap + more == rest + v && All(gap, IsRegexpSpace) && All(v, IsSpace)
    ensures TrimSpace(rest) == TrimSpace(more)
  {
    GapIsSpace(gap);
    TrimAround(gap, more, "");
    TrimAround("", rest, v);
    assert gap + more + "" == gap + more && "" + rest + v == rest + v;
  }

  predicate Printable(tokens: seq<string>, gaps: seq<string>) {
    |tokens| == |gaps| && forall i :: 0 <= i < |tokens| ==> IsTokenName(tokens[i]) && IsGap(gaps[i])
  }

  function BeforeAll(names: seq<string>, p: Parsed): Parsed {
    Parsed(names + p.tokens, p.remaining)
  }

  lemma {:induction false} BeforeEach(names: seq<string>, p: Parsed)
    requires names != []
    ensures Before(names[0], BeforeAll(names[1..], p)) == BeforeAll(names, p)
  {
    assert names == [names[0]] + names[1..];
  }

  lemma {:induction false} ParseTrimmedPrint(tokens: seq<string>, gaps: seq<string>, text: string)
    requires Printable(tokens, gaps)
    ensures Parse(TrimSpace(Print(tokens, gaps, text))) == BeforeAll(tokens, Parse(TrimSpace(text)))
    decreases |tokens|
  {
    if tokens == [] {
      assert BeforeAll([], Parse(TrimSpace(text))).tokens == Parse(TrimSpace(text)).tokens;
    } else {
      TakeTrimmedToken(tokens[0], gaps[0], Print(tokens[1..], gaps[1..], text));
      ParseTrimmedPrint(tokens[1..], gaps[1..], text);
      BeforeEach(tokens, Parse(TrimSpace(text)));
    }
  }

  /** Parsing printed tokens gives them back, followed by whatever the trimmed text parses to. */
  lemma {:induction false} ParsePrinted(tokens: seq<string>, gaps: seq<string>, text: string)
    requires Printable(tokens, gaps) && tokens != []
    ensures Parse(Print(tokens, gaps, text)) == BeforeAll(tokens, Parse(TrimSpace(text)))
  {
    TakeToken(tokens[0], gaps[0], Print(tokens[1..], gaps[1..], text));
    ParseTrimmedPrint(tokens[1..], gaps[1..], text);
    BeforeEach(tokens, Parse(TrimSpace(text)));
  }

  /** The tokens and the trimmed text come back exactly when that text starts with no token. */
  lemma {:induction false} RoundTrip(tokens: seq<string>, gaps: seq<string>, text: string)
    requires Printable(tokens, gaps) && tokens != []
    ensures Parse(Print(tokens, gaps, text)) == Parsed(tokens, TrimSpace(text)) <==> MatchToken(TrimSpace(text)).None?
  {
    ParsePrinted(tokens, gaps, text);
    var p := Parse(TrimSpace(text));
    assert |BeforeAll(tokens, p).tokens| == |tokens| + |p.tokens|;
  }
}
