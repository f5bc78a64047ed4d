/** The few JavaScript string operations the core relies on: `trim`, `split` on one
    character, `join`, `startsWith`/`endsWith` and the `||` fallback for strings. */
module Strings {
  import opened Wrappers

  /** JavaScript's `WhiteSpace` and `LineTerminator` code points: what `trim` removes
      and what the regular-expression class `\s` matches. */
  predicate IsWhitespace(c: char) {
    var n := c as int;
    n == 0x09 || n == 0x0A || n == 0x0B || n == 0x0C || n == 0x0D || n == 0x20 ||
    n == 0xA0 || n == 0x1680 || (0x2000 <= n <= 0x200A) || n == 0x2028 || n == 0x2029 ||
    n == 0x202F || n == 0x205F || n == 0x3000 || n == 0xFEFF
  }

  /** The code points the regular-expression `.` does not match (no `s` flag). */
  predicate IsLineTerminator(c: char) {
    var n := c as int;
    n == 0x0A || n == 0x0D || n == 0x2028 || n == 0x2029
  }

  ghost predicate AllWhitespace(s: string) {
    forall k :: 0 <= k < |s| ==> IsWhitespace(s[k])
  }

  /** `s.trimStart()`: the longest suffix of `s` that does not begin with whitespace. */
  function TrimStart(s: string): (r: string)
    ensures |r| <= |s| && r == s[|s| - |r|..]
    ensures AllWhitespace(s[..|s| - |r|])
    ensures r == [] || !IsWhitespace(r[0])
  {
    if s != [] && IsWhitespace(s[0]) then
      var r := TrimStart(s[1..]);
      assert s[1..][|s| - 1 - |r|..] == s[|s| - |r|..];
      assert forall k :: 1 <= k < |s| - |r| ==> s[k] == s[1..][k - 1];
      r
    else s
  }

  /** `s.trimEnd()`: the longest prefix of `s` that does not end with whitespace. */
  function TrimEnd(s: string): (r: string)
    ensures |r| <= |s| && r == s[..|r|]
    ensures AllWhitespace(s[|r|..])
    ensures r == [] || !IsWhitespace(r[|r| - 1])
  {
    if s != [] && IsWhitespace(s[|s| - 1]) then TrimEnd(s[..|s| - 1]) else s
  }

  /** Length of the leading whitespace run of `s`. */
  function Lead(s: string): (n: nat)
    ensures n <= |s|
  {
    |s| - |TrimStart(s)|
  }

  /** `s.trim()`: `s` with leading and trailing whitespace removed. The result is the
      slice of `s` that starts after the leading whitespace run, everything around that
      slice is whitespace, and the result neither begins nor ends with whitespace. */
  function Trim(s: string): (r: string)
    ensures Lead(s) + |r| <= |s| && r == s[Lead(s)..Lead(s) + |r|]
    ensures AllWhitespace(s[..Lead(s)])
    ensures AllWhitespace(s[Lead(s) + |r|..])
    ensures r == [] || (!IsWhitespace(r[0]) && !IsWhitespace(r[|r| - 1]))
  {
    var t := TrimStart(s);
    var r := TrimEnd(t);
    SliceOfSuffix(s, Lead(s), |r|);
    r
  }

  /** Slicing a suffix is slicing the whole string further along. */
  lemma SliceOfSuffix(s: string, n: nat, k: nat)
    requires n + k <= |s|
    ensures s[n..][..k] == s[n..n + k]
    ensures s[n..][k..] == s[n + k..]
  {
  }

  /** Every character of `Trim(s)` is a character of `s`. */
  lemma TrimChars(s: string, c: char)
    requires c in Trim(s)
    ensures c in s
  {
    var i := Lead(s);
    var k :| 0 <= k < |Trim(s)| && Trim(s)[k] == c;
    assert s[i + k] == c;
  }

  /** Trimming an all-whitespace string gives the empty string, and only then. */
  lemma TrimEmptyIffBlank(s: string)
    ensures Trim(s) == [] <==> AllWhitespace(s)
  {
    var i := Lead(s);
    if Trim(s) == [] {
      assert i == |s|;
      forall k | 0 <= k < |s| ensures IsWhitespace(s[k]) {
        assert s[..i][k] == s[k];
      }
    } else {
      assert !IsWhitespace(s[i]);
    }
  }

  /** `trim` is idempotent. */
  lemma TrimIdempotent(s: string)
    ensures Trim(Trim(s)) == Trim(s)
  {
    var t := Trim(s);
    if t != [] {
      assert TrimStart(t) == t;
      assert TrimEnd(t) == t;
    }
  }

  function StartsWith(s: string, prefix: string): bool {
    |prefix| <= |s| && s[..|prefix|] == prefix
  }

  function EndsWith(s: string, suffix: string): bool {
    |suffix| <= |s| && s[|s| - |suffix|..] == suffix
  }

  /** JavaScript's `s || fallback` on a string: the empty string is falsy. */
  function Or(s: string, fallback: string): (r: string)
    ensures s != "" ==> r == s
    ensures s == "" ==> r == fallback
    ensures fallback != "" ==> r != ""
  {
    if s != "" then s else fallback
  }

  /** `s || fallback` on a possibly missing string: `undefined` and `""` are falsy. */
  function OptOr(s: Option<string>, fallback: string): (r: string)
    ensures s.Some? && s.value != "" ==> r == s.value
    ensures (s.None? || s.value == "") ==> r == fallback
    ensures fallback != "" ==> r != ""
  {
    Or(s.GetOr(""), fallback)
  }

  lemma StartsWithConcat(a: string, b: string)
    ensures StartsWith(a + b, a)
  {
    assert (a + b)[..|a|] == a;
  }

  lemma EndsWithConcat(a: string, b: string)
    ensures EndsWith(a + b, b)
  {
    assert (a + b)[|a|..] == b;
  }

  const UndefinedText := "undefined"

  /** A possibly missing string inside a template literal: `${undefined}` writes the
      word `undefined`, unlike `||`, and an empty string stays empty. */
  function Interpolate(s: Option<string>): (r: string)
    ensures s.Some? ==> r == s.value
    ensures s.None? ==> r == UndefinedText
    ensures r == "" ==> s == Some("")
  {
    if s.Some? then s.value else UndefinedText
  }

  /** Number of occurrences of `c` in `s`. */
  function Count(s: string, c: char): nat {
    if s == [] then 0 else (if s[0] == c then 1 else 0) + Count(s[1..], c)
  }

  /** Index of the first `c` in `s`. */
  function IndexOf(s: string, c: char): (i: nat)
    requires c in s
    ensures i < |s| && s[i] == c && c !in s[..i]
  {
    if s[0] == c then 0 else 1 + IndexOf(s[1..], c)
  }

  /** `s.split(sep)` for a one-character separator: the maximal separator-free pieces,
      always at least one (an empty string splits into `[""]`). */
  function Split(s: string, sep: char): (pieces: seq<string>)
    ensures |pieces| >= 1
    ensures forall i :: 0 <= i < |pieces| ==> sep !in pieces[i]
    decreases |s|
  {
    if sep !in s then [s]
    else
      var i := IndexOf(s, sep);
      [s[..i]] + Split(s[i + 1..], sep)
  }

  /** `parts.join(sep)`. */
  function Join(parts: seq<string>, sep: string): string {
    if |parts| == 0 then ""
    else if |parts| == 1 then parts[0]
    else parts[0] + sep + Join(parts[1..], sep)
  }

  /** Concatenation of all parts, `parts.join("")`. */
  function Concat(parts: seq<string>): string {
    if parts == [] then "" else parts[0] + Concat(parts[1..])
  }

  lemma CountAppend(a: string, b: string, c: char)
    ensures Count(a + b, c) == Count(a, c) + Count(b, c)
  {
    if a == [] {
      assert a + b == b;
    } else {
      assert (a + b)[0] == a[0];
      assert (a + b)[1..] == a[1..] + b;
      CountAppend(a[1..], b, c);
    }
  }

  lemma CountAbsent(s: string, c: char)
    requires c !in s
    ensures Count(s, c) == 0
  {
    if s != [] { CountAbsent(s[1..], c); }
  }

  /** Splitting yields one more piece than there are separators. */
  lemma {:induction false} SplitCount(s: string, sep: char)
    ensures |Split(s, sep)| == Count(s, sep) + 1
    decreases |s|
  {
    if sep !in s {
      CountAbsent(s, sep);
    } else {
      var i := IndexOf(s, sep);
      assert s == s[..i] + ([s[i]] + s[i + 1..]);
      CountAppend(s[..i], [s[i]] + s[i + 1..], sep);
      CountAppend([s[i]], s[i + 1..], sep);
      CountAbsent(s[..i], sep);
      SplitCount(s[i + 1..], sep);
    }
  }

  /** Joining the pieces back with the separator gives the original string. */
  lemma {:induction false} JoinSplit(s: string, sep: char)
    ensures Join(Split(s, sep), [sep]) == s
    decreases |s|
  {
    if sep in s {
      var i := IndexOf(s, sep);
      var tail := s[i + 1..];
      var rest := Split(tail, sep);
      JoinSplit(tail, sep);
      SplitUnfold(s, sep);
      JoinCons(s[..i], rest, [sep]);
      SliceAround(s, i);
    }
  }

  /** A string is the part before index `i`, the character at `i` and the part after. */
  lemma SliceAround(s: string, i: nat)
    requires i < |s|
    ensures s == s[..i] + [s[i]] + s[i + 1..]
  {
  }

  /** One step of `Split` when the separator occurs. */
  lemma SplitUnfold(s: string, sep: char)
    requires sep in s
    ensures Split(s, sep) == [s[..IndexOf(s, sep)]] + Split(s[IndexOf(s, sep) + 1..], sep)
  {
  }

  /** Joining a part in front of at least one more. */
  lemma JoinCons(first: string, rest: seq<string>, sep: string)
    requires |rest| >= 1
    ensures Join([first] + rest, sep) == first + sep + Join(rest, sep)
  {
    assert ([first] + rest)[0] == first;
    assert ([first] + rest)[1..] == rest;
  }

  /** A character in neither the parts nor the separator is not in their join. */
  lemma {:induction false} JoinExcludes(parts: seq<string>, sep: string, c: char)
    requires forall i :: 0 <= i < |parts| ==> c !in parts[i]
    requires c !in sep
    ensures c !in Join(parts, sep)
  {
    if |parts| > 1 {
      JoinExcludes(parts[1..], sep, c);
    }
  }
}
