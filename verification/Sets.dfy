/** Facts about sets shared by the loops that visit a set or a map in no particular order. */
module Sets {

  /** A non-empty set has a member. */
  lemma Member<T>(s: set<T>) returns (x: T)
    requires s != {}
    ensures x in s
  {
    x :| x in s;
  }
}
