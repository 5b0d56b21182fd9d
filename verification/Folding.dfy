/** Folded predicates. A predicate stated as `forall k {:trigger Token(k)} :: Token(k) ==> P` is
    equivalent to `P`, but the verifier looks inside it only where `Token(0)` is mentioned. The
    three tokens keep folds that meet in one proof apart. */
module Folding {
  ghost predicate Token(k: int) {
    true
  }

  ghost predicate Seal(k: int) {
    true
  }

  ghost predicate Clasp(k: int) {
    true
  }
}
