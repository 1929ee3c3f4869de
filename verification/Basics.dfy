/** Small definitions that several of the models share. */
module Basics {

  datatype Option<+T> = None | Some(value: T)

  /** An ASCII digit. */
  predicate IsDigit(c: char) { '0' <= c <= '9' }

  /** A number not used yet; so is every larger one. */
  lemma UnusedNumber(used: set<nat>) returns (n: nat)
    ensures forall u :: u in used ==> u < n
  {
    n := 0;
    var left := used;
    while left != {}
      invariant forall u :: u in used ==> u in left || u < n
    {
      var u :| u in left;
      n := if u < n then n else u + 1;
      left := left - {u};
    }
  }
}
