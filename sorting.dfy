/** `sort.Strings`: byte-wise (here character-wise) lexicographic order on
    strings and the sorted arrangement of a list of strings. */
module Sorting {

  /** Go's `a <= b` on strings. */
  predicate LexLe(a: string, b: string)
    decreases |a|
  {
    |a| == 0 || (|b| > 0 && (a[0] < b[0] || (a[0] == b[0] && LexLe(a[1..], b[1..]))))
  }

  lemma {:induction false} LexLeTotal(a: string, b: string)
    ensures LexLe(a, b) || LexLe(b, a)
    decreases |a|
  {
    if |a| > 0 && |b| > 0 && a[0] == b[0] {
      LexLeTotal(a[1..], b[1..]);
    }
  }

  lemma {:induction false} LexLeTransitive(a: string, b: string, c: string)
    requires LexLe(a, b) && LexLe(b, c)
    ensures LexLe(a, c)
    decreases |a|
  {
    if |a| > 0 && a[0] == b[0] && b[0] == c[0] {
      LexLeTransitive(a[1..], b[1..], c[1..]);
    }
  }

  lemma {:induction false} LexLeAntisymmetric(a: string, b: string)
    requires LexLe(a, b) && LexLe(b, a)
    ensures a == b
    decreases |a|
  {
    if |a| > 0 {
      LexLeAntisymmetric(a[1..], b[1..]);
      assert a == [a[0]] + a[1..] && b == [b[0]] + b[1..];
    }
  }

  predicate Sorted(s: seq<string>)
  {
    forall i, j :: 0 <= i < j < |s| ==> LexLe(s[i], s[j])
  }

  /** A string at most the head of a sorted list can be put in front of it. */
  lemma PrependLeast(x: string, s: seq<string>)
    requires Sorted(s) && s != [] && LexLe(x, s[0])
    ensures Sorted([x] + s)
  {
    forall j | 0 <= j < |s| ensures LexLe(x, s[j]) {
      if j > 0 { LexLeTransitive(x, s[0], s[j]); }
    }
    var r := [x] + s;
    forall i, j | 0 <= i < j < |r| ensures LexLe(r[i], r[j]) {
      if i > 0 { assert r[i] == s[i - 1] && r[j] == s[j - 1]; }
    }
  }

  /** A string at most every element of a sorted list can be put in front of it. */
  lemma PrependBelowAll(h: string, rest: seq<string>)
    requires Sorted(rest)
    requires forall y :: y in rest ==> LexLe(h, y)
    ensures Sorted([h] + rest)
  {
    var r := [h] + rest;
    forall i, j | 0 <= i < j < |r| ensures LexLe(r[i], r[j]) {
      if i == 0 { assert r[j] in rest; }
      else { assert r[i] == rest[i - 1] && r[j] == rest[j - 1]; }
    }
  }

  /** The head of a sorted list is at most everything in its tail with x added,
      when it is at most x. */
  lemma HeadBelowInserted(x: string, s: seq<string>, rest: seq<string>)
    requires Sorted(s) && s != [] && LexLe(s[0], x)
    requires multiset(rest) == multiset(s[1..]) + multiset{x}
    ensures forall y :: y in rest ==> LexLe(s[0], y)
  {
    forall y | y in rest ensures LexLe(s[0], y) {
      assert y in multiset(rest);
      if y != x {
        assert y in multiset(s[1..]);
        var k :| 0 <= k < |s[1..]| && s[1..][k] == y;
        assert s[k + 1] == y;
      }
    }
  }

  /** Inserts x into a sorted list before the first element it does not exceed. */
  function Insert(x: string, s: seq<string>): (r: seq<string>)
    requires Sorted(s)
    ensures Sorted(r)
    ensures |r| == |s| + 1
    ensures multiset(r) == multiset(s) + multiset{x}
    decreases |s|
  {
    if s == [] then [x]
    else if LexLe(x, s[0]) then
      PrependLeast(x, s);
      [x] + s
    else
      LexLeTotal(x, s[0]);
      var rest := Insert(x, s[1..]);
      assert s == [s[0]] + s[1..];
      HeadBelowInserted(x, s, rest);
      PrependBelowAll(s[0], rest);
      [s[0]] + rest
  }

  /** The result of `sort.Strings(s)`. */
  function SortStrings(s: seq<string>): (r: seq<string>)
    ensures Sorted(r)
    ensures |r| == |s|
    ensures multiset(r) == multiset(s)
    decreases |s|
  {
    if s == [] then []
    else
      assert s == [s[0]] + s[1..];
      Insert(s[0], SortStrings(s[1..]))
  }

  /** The first element of a sorted list is at most every element of it. */
  lemma HeadIsLeast(s: seq<string>, x: string)
    requires Sorted(s) && x in s
    ensures LexLe(s[0], x)
  {
    var i :| 0 <= i < |s| && s[i] == x;
    if i == 0 { LexLeTotal(x, x); }
  }

  lemma TailMultiset(s: seq<string>)
    requires s != []
    ensures multiset(s[1..]) == multiset(s) - multiset{s[0]}
  {
    assert s == [s[0]] + s[1..];
  }

  /** A list of strings has only one sorted arrangement: whatever algorithm
      `sort.Strings` uses, its result is SortStrings. */
  lemma {:induction false} SortedPermutationUnique(a: seq<string>, b: seq<string>)
    requires Sorted(a) && Sorted(b)
    requires multiset(a) == multiset(b)
    ensures a == b
    decreases |a|
  {
    if a != [] {
      SameHead(a, b);
      TailMultiset(a);
      TailMultiset(b);
      SortedTail(a);
      SortedTail(b);
      SortedPermutationUnique(a[1..], b[1..]);
      assert a == [a[0]] + a[1..];
      assert b == [b[0]] + b[1..];
    }
  }

  /** Two sorted permutations of a non-empty list start with the same string. */
  lemma SameHead(a: seq<string>, b: seq<string>)
    requires Sorted(a) && Sorted(b)
    requires multiset(a) == multiset(b)
    requires a != []
    ensures b != [] && a[0] == b[0]
  {
    assert |b| == |multiset(b)| == |a|;
    assert b[0] in multiset(a) && a[0] in multiset(b);
    HeadIsLeast(a, b[0]);
    HeadIsLeast(b, a[0]);
    LexLeAntisymmetric(a[0], b[0]);
  }

  lemma SortedTail(s: seq<string>)
    requires Sorted(s) && s != []
    ensures Sorted(s[1..])
  {
  }
}
