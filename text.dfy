/** The Python string operations the distillers rely on: `strip`, `split`,
    `join`, `startswith`, `endswith`, `replace` and `str(int)`. Strings are
    sequences of Unicode scalar values. */
module Text {

  /** The characters Python 2.7's `unicode.strip()` removes (its
      `Py_UNICODE_ISSPACE` under the Unicode 5.2 database). */
  const Whitespace: set<char> := {
    '\t', '\n', '\U{0B}', '\U{0C}', '\r', '\U{1C}', '\U{1D}', '\U{1E}', '\U{1F}', ' ',
    '\U{85}', '\U{A0}', '\U{1680}', '\U{180E}',
    '\U{2000}', '\U{2001}', '\U{2002}', '\U{2003}', '\U{2004}', '\U{2005}',
    '\U{2006}', '\U{2007}', '\U{2008}', '\U{2009}', '\U{200A}',
    '\U{2028}', '\U{2029}', '\U{202F}', '\U{205F}', '\U{3000}'
  }

  predicate StartsWith(s: string, prefix: string) {
    |prefix| <= |s| && s[..|prefix|] == prefix
  }

  predicate EndsWith(s: string, suffix: string) {
    |suffix| <= |s| && s[|s| - |suffix|..] == suffix
  }

  /** `s.lstrip(cs)`: a suffix of `s` that does not start with a character of `cs`. */
  function TrimLeft(s: string, cs: set<char>): (r: string)
    ensures |r| <= |s| && r == s[|s| - |r|..]
    ensures r == [] || r[0] !in cs
  {
    if s != [] && s[0] in cs then TrimLeft(s[1..], cs) else s
  }

  /** `s.rstrip(cs)`: a prefix of `s` that does not end with a character of `cs`. */
  function TrimRight(s: string, cs: set<char>): (r: string)
    ensures |r| <= |s| && r == s[..|r|]
    ensures r == [] || r[|r| - 1] !in cs
  {
    if s != [] && s[|s| - 1] in cs then TrimRight(s[..|s| - 1], cs) else s
  }

  /** Neither end of `s` is a character of `cs`. */
  predicate IsTrimmed(s: string, cs: set<char>) {
    s == [] || (s[0] !in cs && s[|s| - 1] !in cs)
  }

  /** `s.strip(cs)`: the part of `s` left after removing characters of `cs`
      from both ends. */
  function Trim(s: string, cs: set<char>): (r: string)
    ensures IsTrimmed(r, cs)
    ensures forall k :: 0 <= k < |r| ==> r[k] in s
  {
    var l := TrimLeft(s, cs);
    var r := TrimRight(l, cs);
    assert forall k :: 0 <= k < |r| ==> r[k] == s[|s| - |l| + k];
    r
  }

  /** A trimmed string is its own trim, so trimming is idempotent. */
  lemma TrimOfTrimmed(s: string, cs: set<char>)
    requires IsTrimmed(s, cs)
    ensures Trim(s, cs) == s
  {
  }

  /** Python's `s.strip()` with no argument. */
  function Strip(s: string): string {
    Trim(s, Whitespace)
  }

  /** `s.split(sep)` for a one-character separator: the pieces between
      consecutive separators; the empty string gives `['']`. */
  function Split(s: string, sep: char): (r: seq<string>)
    ensures |r| >= 1
    ensures forall i :: 0 <= i < |r| ==> sep !in r[i]
  {
    if s == [] then [[]]
    else
      var rest := Split(s[1..], sep);
      if s[0] == sep then [[]] + rest
      else [[s[0]] + rest[0]] + rest[1..]
  }

  /** `sep.join(parts)`. */
  function Join(parts: seq<string>, sep: string): string {
    if |parts| == 0 then ""
    else if |parts| == 1 then parts[0]
    else parts[0] + sep + Join(parts[1..], sep)
  }

  lemma JoinConsChar(c: char, first: string, tail: seq<string>, sep: string)
    ensures Join([[c] + first] + tail, sep) == [c] + Join([first] + tail, sep)
  {
    if tail != [] {
      assert ([[c] + first] + tail)[1..] == tail;
      assert ([first] + tail)[1..] == tail;
    }
  }

  /** Joining the pieces of a split with the separator gives the string back. */
  lemma {:induction false} JoinSplit(s: string, sep: char)
    ensures Join(Split(s, sep), [sep]) == s
  {
    if s != [] {
      var rest := Split(s[1..], sep);
      JoinSplit(s[1..], sep);
      if s[0] == sep {
        assert ([[]] + rest)[1..] == rest;
      } else {
        assert rest == [rest[0]] + rest[1..];
        JoinConsChar(s[0], rest[0], rest[1..], [sep]);
      }
    }
  }

  lemma {:induction false} SplitNoSeparator(l: string, sep: char)
    requires sep !in l
    ensures Split(l, sep) == [l]
  {
    if l != [] {
      assert l[0] in l;
      SplitNoSeparator(l[1..], sep);
      assert [l[0]] + l[1..] == l;
    }
  }

  lemma {:induction false} SplitAfterPiece(l: string, t: string, sep: char)
    requires sep !in l
    ensures Split(l + [sep] + t, sep) == [l] + Split(t, sep)
  {
    var s := l + [sep] + t;
    if l == [] {
      assert s[1..] == t;
    } else {
      assert s[1..] == l[1..] + [sep] + t;
      SplitAfterPiece(l[1..], t, sep);
      assert [l[0]] + l[1..] == l;
    }
  }

  /** Splitting a join of separator-free pieces gives the pieces back. The
      list must not be empty: `''.join([])` splits into `['']`. */
  lemma {:induction false} SplitJoin(parts: seq<string>, sep: char)
    requires parts != []
    requires forall i :: 0 <= i < |parts| ==> sep !in parts[i]
    ensures Split(Join(parts, [sep]), sep) == parts
  {
    if |parts| == 1 {
      SplitNoSeparator(parts[0], sep);
    } else {
      SplitJoin(parts[1..], sep);
      SplitAfterPiece(parts[0], Join(parts[1..], [sep]), sep);
      assert [parts[0]] + parts[1..] == parts;
    }
  }

  /** Joining a non-empty list whose first piece is non-empty is non-empty. */
  lemma JoinNonEmpty(parts: seq<string>, sep: string)
    requires parts != [] && parts[0] != []
    ensures Join(parts, sep) != []
  {
  }

  /** `s.replace(pattern, replacement)`: every non-overlapping occurrence,
      scanning left to right. */
  function ReplaceAll(s: string, pattern: string, replacement: string): string
    requires pattern != []
    decreases |s|
  {
    if |s| < |pattern| then s
    else if s[..|pattern|] == pattern then replacement + ReplaceAll(s[|pattern|..], pattern, replacement)
    else [s[0]] + ReplaceAll(s[1..], pattern, replacement)
  }

  /** Replacing starts with the replacement when the string starts with
      the pattern. */
  lemma ReplaceAtStart(pattern: string, replacement: string, rest: string)
    requires pattern != []
    ensures ReplaceAll(pattern + rest, pattern, replacement) == replacement + ReplaceAll(rest, pattern, replacement)
  {
    assert (pattern + rest)[..|pattern|] == pattern;
    assert (pattern + rest)[|pattern|..] == rest;
  }

  /** A first character that cannot start the pattern is copied unchanged. */
  lemma ReplaceStep(s: string, pattern: string, replacement: string)
    requires pattern != [] && s != [] && s[0] != pattern[0]
    ensures ReplaceAll(s, pattern, replacement) == [s[0]] + ReplaceAll(s[1..], pattern, replacement)
  {
    if |s| >= |pattern| {
      assert s[..|pattern|][0] != pattern[0];
    }
  }

  /** Characters that cannot start the pattern are copied unchanged. */
  lemma {:induction false} ReplaceSkips(skipped: string, rest: string, pattern: string, replacement: string)
    requires pattern != []
    requires forall i :: 0 <= i < |skipped| ==> skipped[i] != pattern[0]
    ensures ReplaceAll(skipped + rest, pattern, replacement) == skipped + ReplaceAll(rest, pattern, replacement)
  {
    if skipped == [] {
      assert skipped + rest == rest;
    } else {
      var s := skipped + rest;
      ReplaceStep(s, pattern, replacement);
      assert s[1..] == skipped[1..] + rest;
      ReplaceSkips(skipped[1..], rest, pattern, replacement);
      assert [skipped[0]] + skipped[1..] == skipped;
    }
  }

  /** The first character after replacing is either the first character of
      the replacement or the first character of the string. */
  lemma ReplaceFirst(s: string, pattern: string, replacement: string)
    requires pattern != [] && replacement != []
    ensures var t := ReplaceAll(s, pattern, replacement);
      (s == [] ==> t == []) && (s != [] ==> t != [] && (t[0] == s[0] || t[0] == replacement[0]))
  {
  }

  /** A string starting with one prefix does not start with another prefix
      whose first character differs. */
  lemma PrefixesDiffer(s: string, p: string, q: string)
    requires StartsWith(s, p)
    requires p != [] && q != [] && p[0] != q[0]
    ensures !StartsWith(s, q)
  {
    assert s[0] == p[0];
  }

  /** A concatenation starts with its first part and ends with its second. */
  lemma AffixesOfConcat(a: string, b: string)
    ensures StartsWith(a + b, a) && EndsWith(a + b, b)
  {
    assert (a + b)[..|a|] == a;
    assert (a + b)[|a + b| - |b|..] == b;
  }

  predicate IsDigit(c: char) {
    '0' <= c <= '9'
  }

  /** The characters `\w` matches in a Python 2 pattern compiled without the
      UNICODE flag. */
  predicate IsWordChar(c: char) {
    'a' <= c <= 'z' || 'A' <= c <= 'Z' || IsDigit(c) || c == '_'
  }

  /** The length of the longest prefix of `s` whose characters satisfy `p`. */
  function LeadingRun(s: string, p: char -> bool): (n: nat)
    ensures n <= |s|
    ensures forall i :: 0 <= i < n ==> p(s[i])
    ensures n < |s| ==> !p(s[n])
  {
    if s != [] && p(s[0]) then 1 + LeadingRun(s[1..], p) else 0
  }

  /** A run of `p`-characters followed by a character that is not one is
      the leading run. */
  lemma {:induction false} LeadingRunOfAppend(run: string, tail: string, p: char -> bool)
    requires forall i :: 0 <= i < |run| ==> p(run[i])
    requires tail == [] || !p(tail[0])
    ensures LeadingRun(run + tail, p) == |run|
  {
    if run == [] {
      assert run + tail == tail;
    } else {
      assert (run + tail)[1..] == run[1..] + tail;
      LeadingRunOfAppend(run[1..], tail, p);
    }
  }

  function DigitChar(d: nat): (c: char)
    requires d < 10
    ensures IsDigit(c)
  {
    "0123456789"[d]
  }

  /** `str(n)` for a non-negative integer: its decimal digits, no leading zero. */
  function NatToString(n: nat): (r: string)
    ensures r != [] && forall i :: 0 <= i < |r| ==> IsDigit(r[i])
    ensures |r| > 1 ==> r[0] != '0'
  {
    if n < 10 then [DigitChar(n)] else NatToString(n / 10) + [DigitChar(n % 10)]
  }

  /** `str(i)` for any integer. */
  function IntToString(i: int): string {
    if i < 0 then "-" + NatToString(-i) else NatToString(i)
  }
}
