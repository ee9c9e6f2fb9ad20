/**
 * Sequence helpers shared by the models: `findIndex`/`find` with a
 * predicate, as the JavaScript array methods behave.
 */
module Lists {
  /** `s.findIndex(p)`, except that "not found" is `|s|` instead of -1. */
  function FirstIndex<T>(s: seq<T>, p: T -> bool): (k: nat)
    ensures k <= |s|
    ensures k < |s| ==> p(s[k])
    ensures forall j :: 0 <= j < k ==> !p(s[j])
    ensures k == |s| <==> forall j :: 0 <= j < |s| ==> !p(s[j])
  {
    if s == [] then 0
    else if p(s[0]) then 0
    else 1 + FirstIndex(s[1..], p)
  }
}
