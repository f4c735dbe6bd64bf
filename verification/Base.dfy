/** Identifiers, optional values and outcomes shared by all modules. */
module Base {

  /** A row identifier. The service draws fresh UUIDs; freshness is a premise of every
      operation that takes a new one. */
  type Id = nat

  datatype Option<+T> = None | Some(value: T)

  /** The service's exceptions that a job can raise. */
  datatype Error =
    | NotFound
    | PermissionDenied
    | Validation
    | NameConflict
    | RevisionConflict
    | Conflict
    | PayloadTooLarge
    /** A CHECK of the schema raised `sqlite3.IntegrityError`. */
    | Integrity

  datatype Outcome = Done | Failed(error: Error)

  predicate NoRepeats(list: seq<Id>) { forall i, j :: 0 <= i < j < |list| ==> list[i] != list[j] }

  lemma {:induction false} SubsetSize<T>(a: set<T>, b: set<T>)
    requires a <= b
    ensures |a| <= |b|
    decreases |a|
  {
    if a != {} {
      var x :| x in a;
      SubsetSize(a - {x}, b - {x});
    }
  }
}
