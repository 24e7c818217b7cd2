/** Walking an unordered set. */
module Sets {

  /** Some element of a set, as iterating an unordered set yields it. */
  method PickOne<T(==)>(s: set<T>) returns (x: T)
    requires s != {}
    ensures x in s
  {
    x :| x in s;
  }
}
