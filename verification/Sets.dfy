/** Finite sets. */
module Sets {
  lemma {:induction false} SubsetIsNoLarger<T>(small: set<T>, large: set<T>)
    requires small <= large
    ensures |small| <= |large|
  {
    if small != {} {
      var x :| x in small;
      SubsetIsNoLarger(small - {x}, large - {x});
    }
  }
}
