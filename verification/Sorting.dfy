/** sort.Strings: code points compare as their UTF-8 bytes do. */
module Sorting {
  predicate Less(a: string, b: string) {
    b != "" && (a == "" || a[0] < b[0] || (a[0] == b[0] && Less(a[1..], b[1..])))
  }

  // Where two strings part, the smaller ends or has the smaller character.
  predicate PartsAt(a: string, b: string, k: nat) {
    k <= |a| && k < |b| && a[..k] == b[..k] && (k == |a| || a[k] < b[k])
  }

  /** The order is by the first difference, a prefix before the longer. */
  lemma {:induction false} LessExactly(a: string, b: string)
    ensures Less(a, b) <==> exists k :: PartsAt(a, b, k)
    decreases |a|
  {
    if a != "" && b != "" && a[0] == b[0] {
      LessExactly(a[1..], b[1..]);
      if k: nat :| PartsAt(a[1..], b[1..], k) {
        assert a[..k + 1] == [a[0]] + a[1..][..k] && b[..k + 1] == [b[0]] + b[1..][..k];
        assert PartsAt(a, b, k + 1);
      }
      if k: nat :| PartsAt(a, b, k) {
        assert k > 0;
        assert a[1..][..k - 1] == a[..k][1..] && b[1..][..k - 1] == b[..k][1..];
        assert PartsAt(a[1..], b[1..], k - 1);
      }
    } else if b != "" && (a == "" || a[0] < b[0]) {
      assert PartsAt(a, b, 0);
    } else {
      forall k: nat ensures !PartsAt(a, b, k) {
        if 0 < k <= |a| && k < |b| {
          assert a[..k][0] == a[0] && b[..k][0] == b[0];
        }
      }
    }
  }

  lemma {:induction false} LessTransitive(a: string, b: string, c: string)
    requires Less(a, b) && Less(b, c)
    ensures Less(a, c)
    decreases |a|
  {
    if a != "" && a[0] == b[0] == c[0] {
      LessTransitive(a[1..], b[1..], c[1..]);
    }
  }

  lemma {:induction false} LessTotal(a: string, b: string)
    ensures Less(a, b) || Less(b, a) <==> a != b
    ensures !(Less(a, b) && Less(b, a))
    decreases |a|
  {
    if a != "" && b != "" && a[0] == b[0] {
      LessTotal(a[1..], b[1..]);
      assert a == [a[0]] + a[1..] && b == [b[0]] + b[1..];
    }
  }

  predicate Ascending(xs: seq<string>) {
    forall i, j :: 0 <= i < j < |xs| ==> Less(xs[i], xs[j])
  }

  // Without repetition, which the keys of a map do not have.
  function Insert(x: string, xs: seq<string>): (r: seq<string>)
    requires Ascending(xs)
    ensures Ascending(r)
    ensures forall y :: y in r <==> y == x || y in xs
    decreases |xs|
  {
    if xs == [] || Less(x, xs[0]) then
      AboveFirst(x, xs);
      InsertFront(x, xs);
      [x] + xs
    else
      LessTotal(x, xs[0]);
      if x == xs[0] then xs
      else
        var rest := Insert(x, xs[1..]);
        assert forall y :: y in xs[1..] ==> Less(xs[0], y);
        InsertFront(xs[0], rest);
        assert xs == [xs[0]] + xs[1..];
        [xs[0]] + rest
  }

  lemma {:induction false} AboveFirst(x: string, xs: seq<string>)
    requires Ascending(xs) && (xs == [] || Less(x, xs[0]))
    ensures forall y :: y in xs ==> Less(x, y)
  {
    forall i | 0 <= i < |xs| ensures Less(x, xs[i]) {
      if i > 0 {
        LessTransitive(x, xs[0], xs[i]);
      }
    }
  }

  lemma {:induction false} InsertFront(x: string, xs: seq<string>)
    requires Ascending(xs) && forall y :: y in xs ==> Less(x, y)
    ensures Ascending([x] + xs)
  {
    var r := [x] + xs;
    forall i, j | 0 <= i < j < |r| ensures Less(r[i], r[j]) {
      assert r[j] in xs;
    }
  }

  ghost function Sorted(keys: set<string>): (r: seq<string>)
    ensures Ascending(r)
    ensures forall k :: k in r <==> k in keys
  {
    if keys == {} then []
    else
      var k :| k in keys;
      Insert(k, Sorted(keys - {k}))
  }

  /** An ascending list is known by its elements. */
  lemma {:induction false} AscendingIsUnique(a: seq<string>, b: seq<string>)
    requires Ascending(a) && Ascending(b)
    requires forall k :: k in a <==> k in b
    ensures a == b
    decreases |a|
  {
    if b != [] {
      assert b[0] in b;
    }
    if a != [] {
      assert a[0] in b;
      SameFirst(a, b);
      TailElements(a);
      TailElements(b);
      AscendingIsUnique(a[1..], b[1..]);
      assert a == [a[0]] + a[1..] && b == [b[0]] + b[1..];
    }
  }

  lemma {:induction false} SameFirst(a: seq<string>, b: seq<string>)
    requires Ascending(a) && Ascending(b) && a != [] && b != []
    requires a[0] in b && b[0] in a
    ensures a[0] == b[0]
  {
    LessTotal(a[0], b[0]);
  }

  lemma {:induction false} TailElements(a: seq<string>)
    requires Ascending(a) && a != []
    ensures forall k :: k in a[1..] <==> k in a && k != a[0]
  {
    LessTotal(a[0], a[0]);
  }

  method SortStrings(keys: set<string>) returns (r: seq<string>)
    ensures Ascending(r)
    ensures forall k :: k in r <==> k in keys
    ensures r == Sorted(keys)
  {
    r := [];
    var todo := keys;
    while todo != {}
      invariant todo <= keys && Ascending(r)
      invariant forall k :: k in r <==> k in keys - todo
    {
      var k :| k in todo;
      r := Insert(k, r);
      todo := todo - {k};
    }
    AscendingIsUnique(r, Sorted(keys));
  }
}
