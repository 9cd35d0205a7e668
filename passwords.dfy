/** Random password generation; each random pick is a nondeterministic choice of an index. */
module Passwords {
  /** Appends `n` characters, each one picked from `alphabet`. */
  method Draw(alphabet: string, n: nat) returns (pw: string)
    requires alphabet != []
    ensures |pw| == n
    ensures forall k :: 0 <= k < |pw| ==> pw[k] in alphabet
  {
    pw := "";
    var i := 0;
    while i < n
      invariant 0 <= i <= n
      invariant |pw| == i
      invariant forall k :: 0 <= k < |pw| ==> pw[k] in alphabet
    {
      var pick :| 0 <= pick < |alphabet|;
      pw := pw + [alphabet[pick]];
      i := i + 1;
    }
  }
}
