/** The JavaScript string operations the core relies on, over `seq<char>`. */
module Strings {

  /** The characters JavaScript's `\s` class and `String.prototype.trim` treat as white space. */
  predicate IsSpace(c: char) {
    || c == ' ' || c == '\t' || c == '\n' || c == '\r' || c == '\U{B}' || c == '\U{C}'
    || c == '\U{A0}' || c == '\U{1680}' || ('\U{2000}' <= c <= '\U{200A}')
    || c == '\U{2028}' || c == '\U{2029}' || c == '\U{202F}' || c == '\U{205F}'
    || c == '\U{3000}' || c == '\U{FEFF}'
  }

  /** `s.startsWith(prefix)` */
  predicate StartsWith(s: string, prefix: string) {
    |prefix| <= |s| && s[..|prefix|] == prefix
  }

  /** `s.endsWith(suffix)` */
  predicate EndsWith(s: string, suffix: string) {
    |suffix| <= |s| && s[|s| - |suffix|..] == suffix
  }

  /** `s.includes(sub)`: `sub` occurs at some position of `s`. */
  predicate Contains(s: string, sub: string)
    decreases |s|
  {
    StartsWith(s, sub) || (s != [] && Contains(s[1..], sub))
  }

  /** A string that occurs at position `i` of `s` is contained in it. */
  lemma {:induction false} ContainsAt(s: string, sub: string, i: nat)
    requires i + |sub| <= |s| && s[i..i + |sub|] == sub
    ensures Contains(s, sub)
    decreases i
  {
    if i > 0 {
      assert s[1..][i - 1..i - 1 + |sub|] == s[i..i + |sub|];
      ContainsAt(s[1..], sub, i - 1);
    }
  }

  /** A concatenation starts with its first part. */
  lemma PrefixOfConcat(a: string, b: string)
    ensures StartsWith(a + b, a)
  {
    assert (a + b)[..|a|] == a;
  }

  /** A concatenation ends with its last part. */
  lemma SuffixOfConcat(a: string, b: string)
    ensures EndsWith(a + b, b)
  {
    assert (a + b)[|a + b| - |b|..] == b;
  }

  /** A concatenation contains its middle part. */
  lemma InfixOfConcat(a: string, b: string, c: string)
    ensures Contains(a + b + c, b)
  {
    assert (a + b + c)[|a|..|a| + |b|] == b;
    ContainsAt(a + b + c, b, |a|);
  }

  /** `sub` occurs in `s` starting at position `i`. */
  predicate OccursAt(s: string, sub: string, i: nat) {
    i + |sub| <= |s| && s[i..i + |sub|] == sub
  }

  /** `s.indexOf(sub)`: the first position where `sub` occurs, or -1 when it does not occur. */
  function IndexOf(s: string, sub: string): (i: int)
    ensures i == -1 <==> !Contains(s, sub)
    ensures i >= 0 ==> OccursAt(s, sub, i) && forall j :: 0 <= j < i ==> !OccursAt(s, sub, j)
    decreases |s|
  {
    if StartsWith(s, sub) then
      assert s[0..|sub|] == s[..|sub|];
      0
    else if s == [] then -1
    else
      var k := IndexOf(s[1..], sub);
      if k < 0 then -1
      else
        OccursInTail(s, sub);
        assert s[0..|sub|] == s[..|sub|] || |sub| > |s|;
        k + 1
  }

  /** An occurrence past the first position of `s` is one position earlier in its tail. */
  lemma OccursInTail(s: string, sub: string)
    requires s != []
    ensures forall j: nat :: 1 <= j ==> (OccursAt(s, sub, j) <==> OccursAt(s[1..], sub, j - 1))
  {
    forall j: nat | 1 <= j
      ensures OccursAt(s, sub, j) <==> OccursAt(s[1..], sub, j - 1)
    {
      if j + |sub| <= |s| {
        assert s[1..][j - 1..j - 1 + |sub|] == s[j..j + |sub|];
      }
    }
  }

  /** `s.replace(pattern, replacement)` with a string pattern: only the FIRST occurrence is replaced. */
  function ReplaceFirst(s: string, pattern: string, replacement: string): (r: string)
    requires pattern != []
    ensures !Contains(s, pattern) ==> r == s
    ensures StartsWith(s, pattern) ==> r == replacement + s[|pattern|..]
    decreases |s|
  {
    if StartsWith(s, pattern) then replacement + s[|pattern|..]
    else if s == [] then []
    else [s[0]] + ReplaceFirst(s[1..], pattern, replacement)
  }

  /** The occurrence `replace` rewrites is the one `indexOf` finds; the text around it is kept. */
  lemma {:induction false} ReplaceFirstAt(s: string, pattern: string, replacement: string)
    requires pattern != [] && Contains(s, pattern)
    ensures ReplacesAtIndex(s, pattern, replacement)
    decreases |s|
  {
    if StartsWith(s, pattern) {
      assert s[..0] == [];
    } else {
      ReplaceFirstStep(s, pattern, replacement);
      ReplaceFirstAt(s[1..], pattern, replacement);
      ReplacesAtIndexCons(s, pattern, replacement);
    }
  }

  /** `replace` rewrites the occurrence at `indexOf` and keeps the text around it. */
  predicate ReplacesAtIndex(s: string, pattern: string, replacement: string)
    requires pattern != []
  {
    var i := IndexOf(s, pattern);
    && 0 <= i <= |s| - |pattern|
    && ReplaceFirst(s, pattern, replacement) == s[..i] + replacement + s[i + |pattern|..]
  }

  /** Without a leading occurrence, both `indexOf` and `replace` move one character along. */
  lemma ReplaceFirstStep(s: string, pattern: string, replacement: string)
    requires pattern != [] && Contains(s, pattern) && !StartsWith(s, pattern)
    ensures s != [] && Contains(s[1..], pattern)
    ensures IndexOf(s, pattern) == IndexOf(s[1..], pattern) + 1
    ensures ReplaceFirst(s, pattern, replacement) == [s[0]] + ReplaceFirst(s[1..], pattern, replacement)
  {
  }

  /** The replacement past the first character carries over to the whole text. */
  lemma ReplacesAtIndexCons(s: string, pattern: string, replacement: string)
    requires pattern != [] && s != [] && ReplacesAtIndex(s[1..], pattern, replacement)
    requires IndexOf(s, pattern) == IndexOf(s[1..], pattern) + 1
    requires ReplaceFirst(s, pattern, replacement) == [s[0]] + ReplaceFirst(s[1..], pattern, replacement)
    ensures ReplacesAtIndex(s, pattern, replacement)
  {
    ConsSplice(s, IndexOf(s[1..], pattern), |pattern|, replacement,
               ReplaceFirst(s[1..], pattern, replacement), ReplaceFirst(s, pattern, replacement));
  }

  /** Splicing `x` into the tail of `s` and putting `s[0]` back is splicing it one position later into `s`. */
  lemma ConsSplice(s: string, k: int, m: nat, x: string, inTail: string, inWhole: string)
    requires s != [] && 0 <= k <= |s| - 1 - m
    requires inTail == s[1..][..k] + x + s[1..][k + m..] && inWhole == [s[0]] + inTail
    ensures inWhole == s[..k + 1] + x + s[k + 1 + m..]
  {
    assert s[..k + 1] == [s[0]] + s[1..][..k];
    assert s[k + 1 + m..] == s[1..][k + m..];
  }

  /** The number of white-space characters at the start of `s`. */
  function LeadingSpaces(s: string): (n: nat)
    ensures n <= |s|
    ensures n < |s| ==> !IsSpace(s[n])
  {
    if s != [] && IsSpace(s[0]) then 1 + LeadingSpaces(s[1..]) else 0
  }

  /** The number of white-space characters at the end of `s`. */
  function TrailingSpaces(s: string): (n: nat)
    ensures n <= |s|
    ensures n < |s| ==> !IsSpace(s[|s| - 1 - n])
  {
    if s != [] && IsSpace(s[|s| - 1]) then 1 + TrailingSpaces(s[..|s| - 1]) else 0
  }

  /** The characters `LeadingSpaces` counts are all white space. */
  lemma {:induction false} LeadingAreSpaces(s: string)
    ensures forall k :: 0 <= k < LeadingSpaces(s) ==> IsSpace(s[k])
  {
    if s != [] && IsSpace(s[0]) {
      LeadingAreSpaces(s[1..]);
      forall k | 0 <= k < LeadingSpaces(s) ensures IsSpace(s[k]) {
        if k > 0 {
          assert s[k] == s[1..][k - 1];
        }
      }
    }
  }

  /** The characters `TrailingSpaces` counts are all white space. */
  lemma {:induction false} TrailingAreSpaces(s: string)
    ensures forall k :: |s| - TrailingSpaces(s) <= k < |s| ==> IsSpace(s[k])
  {
    if s != [] && IsSpace(s[|s| - 1]) {
      var init := s[..|s| - 1];
      TrailingAreSpaces(init);
      forall k | |s| - TrailingSpaces(s) <= k < |s| ensures IsSpace(s[k]) {
        if k < |init| {
          assert s[k] == init[k];
        }
      }
    }
  }

  /** `s.trim()`: leading and trailing white space removed. */
  function Trim(s: string): (r: string)
    ensures |r| <= |s|
    ensures r == [] || (!IsSpace(r[0]) && !IsSpace(r[|r| - 1]))
  {
    var t := s[LeadingSpaces(s)..];
    t[..|t| - TrailingSpaces(t)]
  }

  /**
   * `trim` keeps the infix of `s` after its leading white space, and only white space follows
   * it: it removes white space and nothing else.
   */
  lemma TrimSpec(s: string)
    ensures var i := LeadingSpaces(s);
            && i + |Trim(s)| <= |s| && Trim(s) == s[i..i + |Trim(s)|]
            && (forall k :: 0 <= k < i ==> IsSpace(s[k]))
            && (forall k :: i + |Trim(s)| <= k < |s| ==> IsSpace(s[k]))
  {
    var i := LeadingSpaces(s);
    var t := s[i..];
    var r := Trim(s);
    assert r == t[..|t| - TrailingSpaces(t)];
    LeadingAreSpaces(s);
    TrailingAreSpaces(t);
    forall k | i + |r| <= k < |s| ensures IsSpace(s[k]) {
      assert s[k] == t[k - i];
    }
  }

  /** `s.split(sep)` for a one-character separator: always at least one piece, none holding `sep`. */
  function Split(s: string, sep: char): (parts: seq<string>)
    ensures |parts| >= 1
    ensures forall k :: 0 <= k < |parts| ==> sep !in parts[k]
  {
    if s == [] then [[]]
    else
      var rest := Split(s[1..], sep);
      if s[0] == sep then [[]] + rest else [[s[0]] + rest[0]] + rest[1..]
  }

  /** `parts.join(sep)` */
  function Join(parts: seq<string>, sep: string): string {
    if |parts| == 0 then []
    else if |parts| == 1 then parts[0]
    else parts[0] + sep + Join(parts[1..], sep)
  }

  /** Putting one character in front of the first piece puts it in front of the joined text. */
  lemma JoinPrepend(c: char, parts: seq<string>, sep: string)
    requires |parts| >= 1
    ensures Join([[c] + parts[0]] + parts[1..], sep) == [c] + Join(parts, sep)
  {
    var q := [[c] + parts[0]] + parts[1..];
    assert q[1..] == parts[1..];
  }

  /** Splitting then joining with the same separator gives the original text back. */
  lemma {:induction false} JoinSplit(s: string, sep: char)
    ensures Join(Split(s, sep), [sep]) == s
  {
    if s != [] {
      var rest := Split(s[1..], sep);
      JoinSplit(s[1..], sep);
      if s[0] == sep {
        assert ([[]] + rest)[1..] == rest;
      } else {
        JoinPrepend(s[0], rest, [sep]);
      }
    }
  }

  /** `message.replace(/\n/g, "<br>")`: every line feed becomes `<br>`. */
  function ReplaceNewlines(s: string): (r: string)
    ensures '\n' !in r
    ensures |r| >= |s|
  {
    if s == [] then []
    else (if s[0] == '\n' then "<br>" else [s[0]]) + ReplaceNewlines(s[1..])
  }

  /** Replacing every line feed is the same as splitting at line feeds and joining with `<br>`. */
  lemma {:induction false} ReplaceNewlinesIsSplitJoin(s: string)
    ensures ReplaceNewlines(s) == Join(Split(s, '\n'), "<br>")
  {
    if s != [] {
      var rest := Split(s[1..], '\n');
      ReplaceNewlinesIsSplitJoin(s[1..]);
      if s[0] == '\n' {
        assert ([[]] + rest)[1..] == rest;
      } else {
        JoinPrepend(s[0], rest, "<br>");
      }
    }
  }
}
