// A conversation with an API server is recorded as the run of a program from its beginning, a
// long term that would be unfolded in every proof about the server. The servers state it under
// a condition that is always true; naming the condition brings the record into a proof.
module Recall {
  predicate Recalled(n: nat) { n >= 0 }
}
