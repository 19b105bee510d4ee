/** What several models share. */
module Wrappers {
  datatype Option<+T> = None | Some(value: T)

  /** How a call ends that may fail, or that the process may not survive. */
  datatype Completion = Done | Failed | Crashed

  lemma {:induction false} SubsetSize<T>(small: set<T>, large: set<T>)
    requires small <= large
    ensures |small| <= |large|
  {
    assert large == small + (large - small);
  }
}
