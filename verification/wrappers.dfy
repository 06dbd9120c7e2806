/** The optional value used where the source returns a nil pointer or an "ok" flag, and induction over the states of
    a run. */
module Wrappers {
  datatype Option<+T> = None | Some(value: T)

  /** What every step keeps, holds from where it holds first. */
  lemma {:induction false} Persists(holds: seq<bool>, i: nat, j: nat)
    requires i <= j < |holds| && holds[i]
    requires forall k :: i <= k < j && holds[k] ==> holds[k + 1]
    ensures holds[j]
    decreases j
  {
    if i < j {
      Persists(holds, i, j - 1);
      assert holds[j - 1 + 1];
    }
  }
}
