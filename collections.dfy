/** Counting over sequences, for the counters the collectors keep while they loop. */
module Collections {

  /** The number of elements of `s` that satisfy `p`, peeled from the back so that a
      loop running from the front extends it one element at a time. */
  function Count<T>(s: seq<T>, p: T -> bool): (n: nat)
    ensures n <= |s|
  {
    if s == [] then 0
    else Count(s[..|s| - 1], p) + (if p(s[|s| - 1]) then 1 else 0)
  }

  /** Nothing is counted exactly when no element satisfies `p`. */
  lemma {:induction false} CountZero<T>(s: seq<T>, p: T -> bool)
    ensures Count(s, p) == 0 <==> forall i :: 0 <= i < |s| ==> !p(s[i])
  {
    if s != [] {
      var s' := s[..|s| - 1];
      CountZero(s', p);
      assert forall i :: 0 <= i < |s'| ==> s'[i] == s[i];
    }
  }
}
