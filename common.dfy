/** Small shared vocabulary: optional values, results, and a fact about
    sets used by the loops that visit a map's keys one at a time. */
module Common {
  datatype Option<+T> = None | Some(value: T)
  datatype Result<+T, +E> = Success(value: T) | Failure(error: E)

  /** A set with a positive size has a member to pick. */
  lemma SomeMember<T>(s: set<T>) returns (x: T)
    requires |s| > 0
    ensures x in s
  {
    if forall y :: y !in s {
      assert false;
    }
    x :| x in s;
  }
}
