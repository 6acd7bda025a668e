/** `Array.prototype.some` and regular-expression look-aheads of the form
    `(?=.*[class])`, both of which ask whether some element passes a test. */
module Seqs {

  /** `s.some(p)`: scans `s` from the front and stops at the first element that passes. */
  function Any<T>(s: seq<T>, p: T -> bool): (r: bool)
    ensures r <==> exists i :: 0 <= i < |s| && p(s[i])
  {
    if s == [] then false
    else if p(s[0]) then true
    else
      var r := Any(s[1..], p);
      assert forall i :: 1 <= i < |s| ==> s[i] == s[1..][i - 1];
      r
  }
}
