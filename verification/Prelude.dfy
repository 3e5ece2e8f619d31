/** Small shared vocabulary: optional values and facts about finite sets. */
module Prelude {

  datatype Option<+T> = None | Some(value: T)

  function Max(a: int, b: int): int {
    if a < b then b else a
  }

  /** A subset of a finite set is no larger than the set. */
  lemma {:induction false} SubsetSize<T>(a: set<T>, b: set<T>)
    requires a <= b
    ensures |a| <= |b|
  {
    if x :| x in a {
      SubsetSize(a - {x}, b - {x});
    }
  }

  /** Any element: the order in which a set or map is walked is not determined. */
  method Pick<T>(s: set<T>) returns (x: T)
    requires s != {}
    ensures x in s
  {
    x :| x in s;
  }

  lemma SomeMember<T>(s: set<T>) returns (x: T)
    requires s != {}
    ensures x in s
  {
    x :| x in s;
  }

  lemma {:induction false} AllIn(a: set<int>, b: set<int>)
    requires forall x | x in a :: x in b
    ensures a <= b
  {
    if a != {} {
      var x := SomeMember(a);
      AllIn(a - {x}, b);
    }
  }

  lemma SameMembers(a: set<int>, b: set<int>)
    requires forall x :: x in a <==> x in b
    ensures a == b
  {
    AllIn(a, b);
    AllIn(b, a);
  }
}
