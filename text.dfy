/** The string functions of Go's `strings` package that the identifier code uses,
    over `seq<char>`, with ASCII-only case folding. */
module Text {

  /** Index of the first `c` in `s`, or -1 when `s` has none (strings.IndexByte). */
  function IndexOf(s: string, c: char): (r: int)
    ensures -1 <= r < |s|
    ensures r == -1 ==> c !in s
    ensures 0 <= r ==> s[r] == c && c !in s[..r]
  {
    if s == [] then -1
    else if s[0] == c then 0
    else
      var r := IndexOf(s[1..], c);
      assert r >= 0 ==> s[..r + 1] == [s[0]] + s[1..][..r];
      if r == -1 then -1 else r + 1
  }

  /** Index of the last `c` in `s`, or -1 when `s` has none (strings.LastIndex with a
      one-character separator). */
  function LastIndex(s: string, c: char): (r: int)
    ensures -1 <= r < |s|
    ensures r == -1 ==> c !in s
    ensures 0 <= r ==> s[r] == c && c !in s[r + 1..]
  {
    if s == [] then -1
    else if s[|s| - 1] == c then |s| - 1
    else
      var init := s[..|s| - 1];
      var r := LastIndex(init, c);
      assert s == init + [s[|s| - 1]];
      assert r >= 0 ==> s[r + 1..] == init[r + 1..] + [s[|s| - 1]];
      r
  }

  /** strings.Join: the parts with `sep` between neighbours. */
  function Join(parts: seq<string>, sep: string): string
  {
    if parts == [] then ""
    else if |parts| == 1 then parts[0]
    else parts[0] + sep + Join(parts[1..], sep)
  }

  /** strings.Split with a one-character separator: the pieces between the separators,
      always at least one, none containing the separator, and joined back they give `s`. */
  function Split(s: string, sep: char): (parts: seq<string>)
    ensures |parts| >= 1
    ensures forall i :: 0 <= i < |parts| ==> sep !in parts[i]
    ensures Join(parts, [sep]) == s
    decreases |s|
  {
    var i := IndexOf(s, sep);
    if i == -1 then [s]
    else
      var head, rest := s[..i], Split(s[i + 1..], sep);
      var parts := [head] + rest;
      assert parts[1..] == rest;
      assert Join(parts, [sep]) == head + [sep] + Join(rest, [sep]);
      assert s == head + [sep] + s[i + 1..];
      assert forall j :: 1 <= j < |parts| ==> parts[j] == rest[j - 1];
      parts
  }

  /** strings.HasSuffix. */
  predicate HasSuffix(s: string, suffix: string)
  {
    |suffix| <= |s| && s[|s| - |suffix|..] == suffix
  }

  /** strings.TrimPrefix: `s` without `prefix` when it starts with it, else `s`. */
  function TrimPrefix(s: string, prefix: string): (r: string)
    ensures prefix <= s ==> prefix + r == s
    ensures !(prefix <= s) ==> r == s
  {
    if prefix <= s then s[|prefix|..] else s
  }

  /** strings.TrimSuffix: `s` without `suffix` when it ends with it, else `s`. */
  function TrimSuffix(s: string, suffix: string): (r: string)
    ensures HasSuffix(s, suffix) ==> r + suffix == s
    ensures !HasSuffix(s, suffix) ==> r == s
  {
    if HasSuffix(s, suffix) then s[..|s| - |suffix|] else s
  }

  /** ASCII lower-casing of one character. */
  function LowerChar(c: char): char
  {
    if 'A' <= c <= 'Z' then (c as int + 32) as char else c
  }

  /** strings.ToLower, restricted to ASCII letters. */
  function Lower(s: string): (r: string)
    ensures |r| == |s|
    ensures forall i :: 0 <= i < |s| ==> r[i] == LowerChar(s[i])
  {
    seq(|s|, i requires 0 <= i < |s| => LowerChar(s[i]))
  }

  /** strings.EqualFold, restricted to ASCII letters: equal once both are lower-cased. */
  predicate EqualFold(a: string, b: string)
  {
    Lower(a) == Lower(b)
  }

  /** Case-insensitive equality is kept by concatenation. */
  lemma EqualFoldAppend(a1: string, a2: string, b1: string, b2: string)
    requires EqualFold(a1, b1) && EqualFold(a2, b2)
    ensures EqualFold(a1 + a2, b1 + b2)
  {
    assert Lower(a1 + a2) == Lower(a1) + Lower(a2);
  }

  /** The first `c` of a + [c] + b, when `a` has none, is at |a|. */
  lemma IndexOfSeam(a: string, c: char, b: string)
    requires c !in a
    ensures IndexOf(a + [c] + b, c) == |a|
  {
    var s := a + [c] + b;
    assert s[..|a|] == a;
    assert s[|a|] == c;
  }

  /** A string is its prefix, the character at `i` and its suffix. */
  lemma SplitAround(s: string, i: nat)
    requires i < |s|
    ensures s == s[..i] + [s[i]] + s[i + 1..]
  {
  }

  /** The last `c` of a + [c] + b, when `b` has none, is at |a|, and cutting there gives
      `a` and `b` back. */
  lemma LastIndexSeam(a: string, c: char, b: string)
    requires c !in b
    ensures LastIndex(a + [c] + b, c) == |a|
    ensures (a + [c] + b)[..|a|] == a && (a + [c] + b)[|a| + 1..] == b
  {
    var s := a + [c] + b;
    assert s[..|a|] == a;
    assert s[|a|] == c;
    assert s[|a| + 1..] == b;
  }

  /** LastIndex finds a `c` after the first character exactly when there is one. */
  lemma LastIndexAfterStart(s: string, c: char)
    ensures LastIndex(s, c) <= 0 <==> forall i :: 0 < i < |s| ==> s[i] != c
  {
    var k := LastIndex(s, c);
    if k > 0 {
      assert s[k] == c;
    } else {
      forall i | 0 < i < |s|
        ensures s[i] != c
      {
        if k == -1 {
          assert s[i] in s;
        } else {
          assert s[i] == s[1..][i - 1];
        }
      }
    }
  }

  /** Joining separator-free parts and splitting again gives the parts back: the inverse
      direction of the `Join(Split(s)) == s` promise of Split. */
  lemma {:induction false} SplitJoin(parts: seq<string>, sep: char)
    requires |parts| >= 1
    requires forall i :: 0 <= i < |parts| ==> sep !in parts[i]
    ensures Split(Join(parts, [sep]), sep) == parts
  {
    if |parts| > 1 {
      var s := Join(parts, [sep]);
      var rest := Join(parts[1..], [sep]);
      assert s == parts[0] + [sep] + rest;
      IndexOfSeam(parts[0], sep, rest);
      assert s[..|parts[0]|] == parts[0];
      assert s[|parts[0]| + 1..] == rest;
      SplitJoin(parts[1..], sep);
    }
  }

  /** Join over a concatenation of two non-empty lists puts one separator at the seam. */
  lemma {:induction false} JoinAppend(a: seq<string>, b: seq<string>, sep: string)
    requires a != [] && b != []
    ensures Join(a + b, sep) == Join(a, sep) + sep + Join(b, sep)
  {
    if |a| == 1 {
      assert (a + b)[1..] == b;
    } else {
      assert (a + b)[1..] == a[1..] + b;
      JoinAppend(a[1..], b, sep);
    }
  }

  /** Join of a part in front of a non-empty list: the part, the separator, the rest. */
  lemma JoinPrepend(x: string, parts: seq<string>, sep: string)
    requires parts != []
    ensures Join([x] + parts, sep) == x + sep + Join(parts, sep)
  {
    assert ([x] + parts)[1..] == parts;
  }

  /** Join of three parts, written out. */
  lemma JoinThree(a: string, b: string, c: string, sep: string)
    ensures Join([a, b, c], sep) == a + sep + b + sep + c
  {
    assert [a, b, c][1..] == [b, c];
    assert [b, c][1..] == [c];
    assert Join([b, c], sep) == b + sep + c;
    assert Join([a, b, c], sep) == a + sep + (b + sep + c);
  }

  /** Join of four parts, written out. */
  lemma JoinFour(a: string, b: string, c: string, d: string, sep: string)
    ensures Join([a, b, c, d], sep) == a + sep + b + sep + c + sep + d
  {
    assert [a, b, c, d][1..] == [b, c, d];
    assert [b, c, d][1..] == [c, d];
    assert [c, d][1..] == [d];
    assert Join([c, d], sep) == c + sep + d;
    assert Join([b, c, d], sep) == b + sep + (c + sep + d);
  }

  /** A joined list ends with its last part. */
  lemma {:induction false} JoinEndsWithLast(parts: seq<string>, sep: string)
    requires parts != []
    ensures HasSuffix(Join(parts, sep), parts[|parts| - 1])
  {
    if |parts| > 1 {
      JoinEndsWithLast(parts[1..], sep);
      var j := Join(parts[1..], sep);
      var last := parts[|parts| - 1];
      assert (parts[0] + sep + j)[|parts[0] + sep + j| - |last|..] == j[|j| - |last|..];
    }
  }

  /** EqualFold is an equivalence: it is symmetric and transitive. */
  lemma EqualFoldTransitive(a: string, b: string, c: string)
    requires EqualFold(a, b) && EqualFold(b, c)
    ensures EqualFold(a, c) && EqualFold(c, a)
  {
  }
}
