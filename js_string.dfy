/** The one string primitive the route policy relies on: JavaScript's
    `String.prototype.startsWith(prefix)` called without a position, i.e.
    a character-by-character comparison from index 0 with no notion of
    path segments. */
module JsString {

  /** `s.startsWith(prefix)`: compares characters from the start of `s`.
      The result agrees with Dafny's sequence-prefix relation. */
  function StartsWith(s: string, prefix: string): (b: bool)
    ensures b <==> prefix <= s
    ensures b ==> |prefix| <= |s| && s[..|prefix|] == prefix
  {
    if prefix == [] then true
    else if s == [] then false
    else if s[0] != prefix[0] then false
    else
      var rest := StartsWith(s[1..], prefix[1..]);
      assert prefix == [prefix[0]] + prefix[1..];
      assert s == [s[0]] + s[1..];
      rest
  }

  /** Every string starts with itself followed by anything at all. */
  lemma {:induction false} StartsWithAppend(p: string, t: string)
    ensures StartsWith(p + t, p)
  {
  }

  /** Two strings that differ at some index below both their lengths can
      not both be prefixes of the same string. */
  lemma {:induction false} StartsWithExclusive(s: string, p: string, q: string, i: nat)
    requires i < |p| && i < |q| && p[i] != q[i]
    ensures !(StartsWith(s, p) && StartsWith(s, q))
  {
  }
}
