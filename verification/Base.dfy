/** Result types, identifiers and times shared by the other modules. */
module Base {
  datatype Option<+T> = None | Some(value: T)

  datatype Result<+T, +E> = Success(value: T) | Failure(error: E)

  /** Row identifiers. The database draws them as random UUIDs; only equality matters here. */
  type Id = int

  /** A point in time, as an integer number of ticks. */
  type Time = int

  lemma Inhabited(s: set<Id>)
    ensures s == {} || exists x :: x in s
  {
    if forall x :: x !in s {
      assert s == {};
    }
  }

  lemma {:induction false} SubsetSize(a: set<int>, b: set<int>)
    requires a <= b
    ensures |a| <= |b|
  {
    if a != {} {
      Inhabited(a);
      var x :| x in a;
      SubsetSize(a - {x}, b - {x});
    }
  }
}
