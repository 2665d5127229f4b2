/** The string operations of Go's strings and strconv packages that the parsers use. */
module Text {
  import opened Common

  // unicode.IsSpace
  predicate IsSpace(c: char) {
    var n := c as int;
    9 <= n <= 13 || n == 32 || n == 0x85 || n == 0xA0 || n == 0x1680 || 0x2000 <= n <= 0x200A ||
    n == 0x2028 || n == 0x2029 || n == 0x202F || n == 0x205F || n == 0x3000
  }

  function TrimLeft(s: string, cut: char -> bool): (r: string)
    ensures |r| <= |s| && (|r| == |s| ==> r == s)
    ensures r != "" ==> !cut(r[0])
    ensures forall i :: 0 <= i < |s| - |r| ==> cut(s[i])
  {
    if s != "" && cut(s[0]) then TrimLeft(s[1..], cut) else s
  }

  function TrimRight(s: string, cut: char -> bool): (r: string)
    ensures r <= s
    ensures r != "" ==> !cut(r[|r| - 1])
    ensures forall i :: |r| <= i < |s| ==> cut(s[i])
  {
    if s != "" && cut(s[|s| - 1]) then TrimRight(s[..|s| - 1], cut) else s
  }

  function Trim(s: string, cut: char -> bool): string {
    TrimRight(TrimLeft(s, cut), cut)
  }

  function TrimSpace(s: string): string {
    Trim(s, IsSpace)
  }

  // Nothing to cut at either end.
  predicate Trimmed(s: string, cut: char -> bool) {
    s == "" || (!cut(s[0]) && !cut(s[|s| - 1]))
  }

  lemma {:induction false} TrimmedIsFixed(s: string, cut: char -> bool)
    ensures Trimmed(s, cut) <==> Trim(s, cut) == s
  {
  }

  lemma {:induction false} TrimIsTrimmed(s: string, cut: char -> bool)
    ensures Trimmed(Trim(s, cut), cut)
    ensures Trim(Trim(s, cut), cut) == Trim(s, cut)
  {
    var l := TrimLeft(s, cut);
    var t := TrimRight(l, cut);
    if t != "" {
      assert t[0] == l[0];
    }
    TrimmedIsFixed(t, cut);
  }

  // Cut characters in front or behind do not matter.
  lemma {:induction false} TrimPrefix(w: string, s: string, cut: char -> bool)
    requires forall i :: 0 <= i < |w| ==> cut(w[i])
    ensures TrimLeft(w + s, cut) == TrimLeft(s, cut)
    decreases |w|
  {
    if w == "" {
      assert w + s == s;
    } else {
      assert (w + s)[1..] == w[1..] + s;
      TrimPrefix(w[1..], s, cut);
    }
  }

  lemma {:induction false} TrimSuffix(s: string, w: string, cut: char -> bool)
    requires forall i :: 0 <= i < |w| ==> cut(w[i])
    ensures TrimRight(s + w, cut) == TrimRight(s, cut)
    decreases |w|
  {
    if w == "" {
      assert s + w == s;
    } else {
      assert (s + w)[..|s + w| - 1] == s + w[..|w| - 1];
      TrimSuffix(s, w[..|w| - 1], cut);
    }
  }

  /** Trimming cuts what surrounds a trimmed text, whatever that is. */
  lemma {:induction false} TrimAround(a: string, t: string, b: string, cut: char -> bool)
    requires forall i :: 0 <= i < |a| ==> cut(a[i])
    requires forall i :: 0 <= i < |b| ==> cut(b[i])
    requires Trimmed(t, cut)
    ensures Trim(a + t + b, cut) == t
  {
    assert a + t + b == a + (t + b);
    TrimPrefix(a, t + b, cut);
    if t == "" {
      assert t + b == b + "";
      TrimPrefix(b, "", cut);
    } else {
      assert (t + b)[0] == t[0];
      TrimSuffix(t, b, cut);
    }
  }

  lemma {:induction false} LeftIsCut(s: string, cut: char -> bool) returns (a: string)
    ensures s == a + TrimLeft(s, cut) && forall i :: 0 <= i < |a| ==> cut(a[i])
  {
    a := "";
    var rest := s;
    while rest != "" && cut(rest[0])
      invariant s == a + rest && TrimLeft(rest, cut) == TrimLeft(s, cut)
      invariant forall i :: 0 <= i < |a| ==> cut(a[i])
      decreases |rest|
    {
      MovesOver(a, rest);
      a, rest := a + [rest[0]], rest[1..];
    }
  }

  lemma {:induction false} MovesOver(a: string, b: string)
    requires b != ""
    ensures a + [b[0]] + b[1..] == a + b
  {
  }

  // Every text is a trimmed one between characters to cut.
  lemma {:induction false} TrimSplits(s: string, cut: char -> bool) returns (a: string, b: string)
    ensures s == a + Trim(s, cut) + b && Trimmed(Trim(s, cut), cut)
    ensures forall i :: 0 <= i < |a| ==> cut(a[i])
    ensures forall i :: 0 <= i < |b| ==> cut(b[i])
  {
    a := LeftIsCut(s, cut);
    b := RightIsCut(TrimLeft(s, cut), cut);
    TrimIsTrimmed(s, cut);
    Regroup(a, Trim(s, cut), b);
  }

  lemma {:induction false} RightIsCut(s: string, cut: char -> bool) returns (b: string)
    ensures s == TrimRight(s, cut) + b && forall i :: 0 <= i < |b| ==> cut(b[i])
  {
    var t := TrimRight(s, cut);
    b := s[|t|..];
    assert forall i :: 0 <= i < |b| ==> b[i] == s[|t| + i];
  }

  lemma {:induction false} Regroup(a: string, b: string, c: string)
    ensures a + b + c == a + (b + c)
  {
  }

  // unicode.ToLower, for the characters that become ASCII letters.
  function Lower(c: char): char {
    var n := c as int;
    if 'A' as int <= n <= 'Z' as int then (n + 32) as char
    else if n == 0x130 then 'i'
    else if n == 0x212A then 'k'
    else c
  }

  /** Capital letters become small ones, and the rest of ASCII stays. */
  lemma {:induction false} LowerLetters(c: char)
    ensures 'A' <= c <= 'Z' ==> 'a' <= Lower(c) <= 'z' && Lower(c) - 'a' == c - 'A'
    ensures c < 128 as char && !('A' <= c <= 'Z') ==> Lower(c) == c
  {
  }

  function ToLower(s: string): (r: string)
    ensures |r| == |s|
  {
    seq(|s|, i requires 0 <= i < |s| => Lower(s[i]))
  }

  // ------------------------------------------------------ prefix and suffix

  predicate HasSuffix(s: string, t: string) {
    |t| <= |s| && s[|s| - |t|..] == t
  }

  function CutSuffix(s: string, t: string): string {
    if HasSuffix(s, t) then s[..|s| - |t|] else s
  }

  lemma {:induction false} SuffixOfAppend(s: string, t: string)
    ensures HasSuffix(s + t, t) && CutSuffix(s + t, t) == s
  {
  }

  // A suffix at most as long as the last part lies inside it.
  lemma {:induction false} SuffixInside(b: string, e: string, t: string)
    requires |t| <= |e|
    ensures HasSuffix(b + e, t) <==> HasSuffix(e, t)
  {
    assert (b + e)[|b + e| - |t|..] == e[|e| - |t|..];
  }

  // A longer suffix ends with the whole last part.
  lemma {:induction false} SuffixAcross(b: string, e: string, t: string)
    requires |t| > |e|
    ensures HasSuffix(b + e, t) <==> HasSuffix(t, e) && HasSuffix(b, t[..|t| - |e|])
  {
    var h := t[..|t| - |e|];
    if HasSuffix(b + e, t) {
      assert |h| <= |b|;
      assert forall i :: 0 <= i < |t| ==> t[i] == (b + e)[|b + e| - |t| + i];
    }
    if HasSuffix(t, e) && HasSuffix(b, h) {
      assert t == h + e;
      assert (b + e)[|b + e| - |t|..] == b[|b| - |h|..] + e;
    }
  }

  // --------------------------------------------------------- split and join

  // One more character in front of the parts.
  function Prepend(c: char, parts: seq<string>, sep: char): seq<string>
    requires parts != []
  {
    if c == sep then [""] + parts else [[c] + parts[0]] + parts[1..]
  }

  function Split(s: string, sep: char): (parts: seq<string>)
    ensures parts != [] && forall p :: p in parts ==> sep !in p
  {
    if s == "" then [""] else Prepend(s[0], Split(s[1..], sep), sep)
  }

  function Join(parts: seq<string>, sep: char): string {
    if parts == [] then ""
    else if |parts| == 1 then parts[0]
    else parts[0] + [sep] + Join(parts[1..], sep)
  }

  lemma {:induction false} SplitPart(p: string, sep: char)
    requires sep !in p
    ensures Split(p, sep) == [p]
    decreases |p|
  {
    if p != "" {
      SplitPart(p[1..], sep);
      assert p[0] in p && p == [p[0]] + p[1..];
    }
  }

  lemma {:induction false} SplitCons(c: char, s: string, sep: char)
    ensures Split([c] + s, sep) == Prepend(c, Split(s, sep), sep)
  {
    assert ([c] + s)[1..] == s;
  }

  lemma {:induction false} PrependConcat(c: char, a: seq<string>, b: seq<string>, sep: char)
    requires a != []
    ensures Prepend(c, a + b, sep) == Prepend(c, a, sep) + b
  {
  }

  lemma {:induction false} SplitConcat(a: string, b: string, sep: char)
    ensures Split(a + [sep] + b, sep) == Split(a, sep) + Split(b, sep)
    decreases |a|
  {
    if a == "" {
      assert a + [sep] + b == [sep] + b;
      SplitCons(sep, b, sep);
    } else {
      var c, t := a[0], a[1..];
      calc {
        Split(a + [sep] + b, sep);
        { assert a + [sep] + b == [c] + (t + [sep] + b); SplitCons(c, t + [sep] + b, sep); }
        Prepend(c, Split(t + [sep] + b, sep), sep);
        { SplitConcat(t, b, sep); }
        Prepend(c, Split(t, sep) + Split(b, sep), sep);
        { PrependConcat(c, Split(t, sep), Split(b, sep), sep); }
        Split(a, sep) + Split(b, sep);
      }
    }
  }

  lemma {:induction false} JoinConcat(a: seq<string>, b: seq<string>, sep: char)
    requires a != [] && b != []
    ensures Join(a + b, sep) == Join(a, sep) + [sep] + Join(b, sep)
    decreases |a|
  {
    if |a| == 1 {
      assert (a + b)[1..] == b;
    } else {
      assert (a + b)[1..] == a[1..] + b;
      JoinConcat(a[1..], b, sep);
    }
  }

  lemma {:induction false} SplitJoin(parts: seq<string>, sep: char)
    requires parts != [] && forall p :: p in parts ==> sep !in p
    ensures Split(Join(parts, sep), sep) == parts
    decreases |parts|
  {
    SplitPart(parts[0], sep);
    if |parts| > 1 {
      SplitJoin(parts[1..], sep);
      SplitConcat(parts[0], Join(parts[1..], sep), sep);
    }
  }

  lemma {:induction false} JoinPrepend(c: char, parts: seq<string>, sep: char)
    requires parts != []
    ensures Join(Prepend(c, parts, sep), sep) == [c] + Join(parts, sep)
  {
    if c == sep {
      assert ([""] + parts)[1..] == parts;
    } else if |parts| > 1 {
      assert ([[c] + parts[0]] + parts[1..])[1..] == parts[1..];
      assert [c] + parts[0] + [sep] + Join(parts[1..], sep) == [c] + (parts[0] + [sep] + Join(parts[1..], sep));
    }
  }

  lemma {:induction false} JoinSplit(s: string, sep: char)
    ensures Join(Split(s, sep), sep) == s
    decreases |s|
  {
    if s != "" {
      JoinSplit(s[1..], sep);
      JoinPrepend(s[0], Split(s[1..], sep), sep);
    }
  }

  // ---------------------------------------------------------------- numbers

  const UINT64_LIMIT: nat := 0x1_0000_0000_0000_0000

  predicate IsDigit(c: char) {
    '0' as int <= c as int <= '9' as int
  }

  function DigitsValue(s: string): nat
    requires forall c :: c in s ==> IsDigit(c)
  {
    if s == "" then 0
    else
      assert IsDigit(s[|s| - 1]);
      DigitsValue(s[..|s| - 1]) * 10 + (s[|s| - 1] as int - '0' as int)
  }

  // strconv.ParseUint(s, 10, 64)
  function ParseUint(s: string): Option<nat> {
    if s == "" || (exists c :: c in s && !IsDigit(c)) then None
    else if DigitsValue(s) >= UINT64_LIMIT then None
    else Some(DigitsValue(s))
  }

  // strconv.FormatUint(n, 10)
  function FormatUint(n: nat): (s: string)
    ensures s != "" && forall c :: c in s ==> IsDigit(c)
  {
    var last := [(n % 10 + '0' as int) as char];
    if n < 10 then last else FormatUint(n / 10) + last
  }

  lemma {:induction false} FormatValue(n: nat)
    ensures DigitsValue(FormatUint(n)) == n
  {
    if n >= 10 {
      FormatValue(n / 10);
      var s := FormatUint(n);
      assert s[..|s| - 1] == FormatUint(n / 10);
    }
  }

  /** A printed number reads back, with nothing to trim. */
  lemma {:induction false} ParseFormat(n: nat)
    requires n < UINT64_LIMIT
    ensures ParseUint(FormatUint(n)) == Some(n)
    ensures TrimSpace(FormatUint(n)) == FormatUint(n)
  {
    FormatValue(n);
    var s := FormatUint(n);
    assert s[0] in s && s[|s| - 1] in s;
    TrimmedIsFixed(s, IsSpace);
  }
}
