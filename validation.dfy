/**
 * Input checks shared by the provisioning API route and the admin CLI: present fields, the
 * e-mail pattern `^[^\s@]+@[^\s@]+\.[^\s@]+$` and the minimum password length.
 */
module Validation {
  import opened Wrappers
  import opened Strings

  /** Both the API route and the CLI reject passwords shorter than this. */
  const MinPasswordLength: nat := 8

  /** JavaScript truthiness of an optional string field: present and not empty. */
  predicate Present(o: Option<string>) {
    o.Some? && o.value != []
  }

  /** The regex atom `[^\s@]+`: one or more characters, none white space, none `@`. */
  predicate IsRun(s: string) {
    |s| > 0 && forall k :: 0 <= k < |s| ==> !IsSpace(s[k]) && s[k] != '@'
  }

  /** `s` matches the pattern with its `@` at `i` and its literal `.` at `j`. */
  ghost predicate SplitsAsEmail(s: string, i: int, j: int) {
    && 0 < i < j < |s| - 1
    && s[i] == '@' && s[j] == '.'
    && IsRun(s[..i]) && IsRun(s[i + 1..j]) && IsRun(s[j + 1..])
  }

  /** The reference reading of the regular expression: three runs joined by `@` and `.`. */
  ghost predicate MatchesEmailRegex(s: string) {
    exists i, j :: SplitsAsEmail(s, i, j)
  }

  predicate NoSpace(s: string) {
    forall k :: 0 <= k < |s| ==> !IsSpace(s[k])
  }

  /** The first index of `c` in `s`. */
  function IndexOf(s: string, c: char): (r: nat)
    requires c in s
    ensures r < |s| && s[r] == c && c !in s[..r]
  {
    if s[0] == c then 0
    else
      assert c in s[1..] by { var k :| 0 <= k < |s| && s[k] == c; assert s[1..][k - 1] == c; }
      var r := IndexOf(s[1..], c);
      assert s[..r + 1] == [s[0]] + s[1..][..r];
      r + 1
  }

  /** The domain holds a `.` that is neither its first nor its last character. */
  predicate HasInnerDot(d: string) {
    exists j :: 0 < j < |d| - 1 && d[j] == '.'
  }

  /**
   * `validateEmail` and the route's regex test: no white space, exactly one `@`, a non-empty
   * part before it, and a domain with an inner `.`.
   */
  predicate IsValidEmail(s: string) {
    && NoSpace(s)
    && multiset(s)['@'] == 1
    && var i := IndexOf(s, '@'); i > 0 && HasInnerDot(s[i + 1..])
  }

  /** `password.length >= 8` */
  predicate LongEnough(password: string) {
    |password| >= MinPasswordLength
  }

  /** The check accepts exactly the strings the regular expression matches. */
  lemma EmailCheckIsRegex(s: string)
    ensures IsValidEmail(s) <==> MatchesEmailRegex(s)
  {
    if IsValidEmail(s) { ValidEmailMatches(s); }
    if MatchesEmailRegex(s) {
      var i, j :| SplitsAsEmail(s, i, j);
      MatchingEmailValid(s, i, j);
    }
  }

  lemma ValidEmailMatches(s: string)
    requires IsValidEmail(s)
    ensures MatchesEmailRegex(s)
  {
    var i := IndexOf(s, '@');
    var d := s[i + 1..];
    var j' :| 0 < j' < |d| - 1 && d[j'] == '.';
    var j := i + 1 + j';
    assert s[j] == '.';
    OnlyAt(s, i);
    RunOfSlice(s, 0, i);
    RunOfSlice(s, i + 1, j);
    RunOfSlice(s, j + 1, |s|);
    assert SplitsAsEmail(s, i, j);
  }

  /** The first `@` of a text holding exactly one is the only one. */
  lemma OnlyAt(s: string, i: nat)
    requires i < |s| && s[i] == '@' && '@' !in s[..i] && multiset(s)['@'] == 1
    ensures forall k :: 0 <= k < |s| && k != i ==> s[k] != '@'
  {
    assert s == s[..i] + [s[i]] + s[i + 1..];
    assert multiset(s[i + 1..])['@'] == 0;
    forall k | 0 <= k < |s| && k != i ensures s[k] != '@' {
      if k < i {
        assert s[k] == s[..i][k];
      } else {
        assert s[k] == s[i + 1..][k - i - 1];
        assert s[k] in multiset(s[i + 1..]);
      }
    }
  }

  /** A non-empty slice of a text without white space, holding no `@`, is a run. */
  lemma RunOfSlice(s: string, lo: nat, hi: nat)
    requires lo < hi <= |s| && NoSpace(s)
    requires forall k :: lo <= k < hi ==> s[k] != '@'
    ensures IsRun(s[lo..hi])
  {
    forall k | 0 <= k < hi - lo ensures !IsSpace(s[lo..hi][k]) && s[lo..hi][k] != '@' {
      assert s[lo..hi][k] == s[lo + k];
    }
  }

  lemma MatchingEmailValid(s: string, i: int, j: int)
    requires SplitsAsEmail(s, i, j)
    ensures IsValidEmail(s)
  {
    var a, b, c := s[..i], s[i + 1..j], s[j + 1..];
    assert s == a + [s[i]] + b + [s[j]] + c;
    RunHasNoAt(a);
    RunHasNoAt(b);
    RunHasNoAt(c);
    assert multiset(s)['@'] == 1;
    assert NoSpace(s) by {
      forall k | 0 <= k < |s| ensures !IsSpace(s[k]) {
        if k < i { assert s[k] == a[k]; }
        else if i < k < j { assert s[k] == b[k - i - 1]; }
        else if j < k { assert s[k] == c[k - j - 1]; }
      }
    }
    var r := IndexOf(s, '@');
    assert '@' !in a;
    assert r == i;
    var d := s[i + 1..];
    assert d[j - i - 1] == '.';
  }

  lemma RunHasNoAt(s: string)
    requires IsRun(s)
    ensures multiset(s)['@'] == 0
  {
    assert '@' !in s;
  }
}
