/** Finite sets: picking an element and comparing sizes. */
module Sets {

  ghost function Pick<T>(s: set<T>): (x: T)
    requires s != {}
    ensures x in s
  {
    var x :| x in s; x
  }

  lemma SubsetSmaller<T>(a: set<T>, b: set<T>)
    requires a <= b
    ensures |a| <= |b|
  {
    if a != {} {
      var x :| x in a;
      SubsetSmaller(a - {x}, b - {x});
    }
  }

  /** Losing one element and gaining another is no loss. */
  lemma SwapKeepsCount<T>(before: set<T>, after: set<T>, lost: T, gained: T)
    requires before - {lost} <= after && gained in after && gained !in before
    ensures |before| <= |after|
  {
    assert gained !in before - {lost};
    SubsetSmaller((before - {lost}) + {gained}, after);
  }
}
