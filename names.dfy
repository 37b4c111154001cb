/** String helpers of the compiler: decimal numerals, numbered fresh names,
    Go's exported-name rule and `strings.Split` on one separator. */
module Names {

  /** The character of a decimal digit. */
  function Digit(d: nat): (c: char)
    requires d < 10
    ensures '0' <= c <= '9'
    ensures c as int - '0' as int == d
  {
    (d + '0' as int) as char
  }

  /** The decimal numeral of n, as Go's `%d` prints it. */
  function NatToString(n: nat): (s: string)
    ensures |s| >= 1
    ensures (|s| == 1) <==> n < 10
    ensures forall k :: 0 <= k < |s| ==> '0' <= s[k] <= '9'
    decreases n
  {
    if n < 10 then [Digit(n)] else NatToString(n / 10) + [Digit(n % 10)]
  }

  /** Two numbers with the same numeral are equal. */
  lemma {:induction false} NatToStringInjective(m: nat, n: nat)
    requires NatToString(m) == NatToString(n)
    ensures m == n
    decreases m
  {
    var s := NatToString(m);
    if m < 10 {
      assert n < 10;
      assert Digit(m) == s[0] == Digit(n);
    } else {
      assert n >= 10;
      assert NatToString(m / 10) == s[..|s| - 1] == NatToString(n / 10);
      NatToStringInjective(m / 10, n / 10);
      assert Digit(m % 10) == s[|s| - 1] == Digit(n % 10);
    }
  }

  /** The n-th name a function context hands out for `prefix`: `prefix` itself
      the first time, then `prefix$1`, `prefix$2`, ... */
  function Numbered(prefix: string, n: nat): (name: string)
    ensures n == 0 ==> name == prefix
    ensures n > 0 ==> |name| > |prefix| + 1 && name[..|prefix|] == prefix && name[|prefix|] == '$'
  {
    if n == 0 then prefix else prefix + "$" + NatToString(n)
  }

  /** Different counter values give different names. */
  lemma NumberedInjective(prefix: string, m: nat, n: nat)
    requires Numbered(prefix, m) == Numbered(prefix, n)
    ensures m == n
  {
    if m != 0 && n != 0 {
      var s := Numbered(prefix, m);
      assert NatToString(m) == s[|prefix| + 1..] == NatToString(n);
      NatToStringInjective(m, n);
    }
  }
  lemma NumberedDiffer(prefix: string, m: nat, n: nat)
    requires m != n
    ensures Numbered(prefix, m) != Numbered(prefix, n)
  {
    if Numbered(prefix, m) == Numbered(prefix, n) {
      NumberedInjective(prefix, m, n);
    }
  }


  /** Go's rule for an exported identifier: it starts with an upper-case letter
      (only the ASCII letters are modelled). */
  predicate IsExported(name: string)
  {
    |name| > 0 && 'A' <= name[0] <= 'Z'
  }

  /** How many times `sep` occurs in s. */
  function Occurrences(s: string, sep: char): nat
  {
    if s == [] then 0 else (if s[0] == sep then 1 else 0) + Occurrences(s[1..], sep)
  }

  /** `strings.Split(s, sep)` for a one-character separator: the pieces between
      the separators, one more piece than there are separators. */
  function Split(s: string, sep: char): (parts: seq<string>)
    ensures |parts| == Occurrences(s, sep) + 1
    ensures forall k :: 0 <= k < |parts| ==> sep !in parts[k]
    decreases |s|
  {
    if s == [] then [""]
    else
      var rest := Split(s[1..], sep);
      if s[0] == sep then [""] + rest
      else [[s[0]] + rest[0]] + rest[1..]
  }

  /** `strings.Join(parts, sep)` for a separator string; no parts join to "". */
  function JoinWith(parts: seq<string>, sep: string): string
    decreases |parts|
  {
    if parts == [] then "" else if |parts| == 1 then parts[0] else parts[0] + sep + JoinWith(parts[1..], sep)
  }

  /** Joining the pieces of a split gives back the string. */
  lemma {:induction false} JoinSplit(s: string, sep: char)
    ensures JoinWith(Split(s, sep), [sep]) == s
    decreases |s|
  {
    if s != [] {
      var rest := Split(s[1..], sep);
      JoinSplit(s[1..], sep);
      if s[0] == sep {
        assert ([""] + rest)[1..] == rest;
        assert s == [sep] + s[1..];
      } else {
        var parts := [[s[0]] + rest[0]] + rest[1..];
        if |rest| == 1 {
          assert s == [s[0]] + rest[0];
        } else {
          assert parts[1..] == rest[1..];
          assert JoinWith(rest, [sep]) == rest[0] + [sep] + JoinWith(rest[1..], [sep]);
          assert s == [s[0]] + s[1..];
        }
      }
    }
  }

  /** A string without the separator is one piece. */
  lemma {:induction false} SplitWithout(s: string, sep: char)
    requires sep !in s
    ensures Split(s, sep) == [s]
    decreases |s|
  {
    if s != [] {
      SplitWithout(s[1..], sep);
      assert s == [s[0]] + s[1..];
    }
  }

  /** Splitting `a + sep + b` where `a` holds no separator peels `a` off first. */
  lemma {:induction false} SplitAfterFirst(a: string, b: string, sep: char)
    requires sep !in a
    ensures Split(a + [sep] + b, sep) == [a] + Split(b, sep)
    decreases |a|
  {
    var s := a + [sep] + b;
    if a == [] {
      assert s[1..] == b;
    } else {
      assert s[1..] == a[1..] + [sep] + b;
      SplitAfterFirst(a[1..], b, sep);
      assert [a[0]] + a[1..] == a;
    }
  }

  /** A reference `T:M` built from two separator-free names splits back into them. */
  lemma SplitQualified(typeName: string, member: string, sep: char)
    requires sep !in typeName && sep !in member
    ensures Split(typeName + [sep] + member, sep) == [typeName, member]
  {
    SplitAfterFirst(typeName, member, sep);
    SplitWithout(member, sep);
  }
}
