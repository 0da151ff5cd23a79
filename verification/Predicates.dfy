/** The event predicates of the controller and the filter it builds from them. */
module Predicates {

  datatype Event =
    | Create(managed: bool)
    | Update(oldGeneration: nat, newGeneration: nat)
    | Delete(stateUnknown: bool)
    | Generic

  predicate BackupPredicate(e: Event) {
    match e
    case Update(before, after) => before != after
    case _ => true
  }

  predicate ServiceAccountPredicate(e: Event) {
    match e
    case Create(managed) => managed
    case Update(before, after) => before != after
    case Delete(unknown) => !unknown
    case Generic => true
  }

  predicate ClusterRolePredicate(e: Event) {
    match e
    case Create(managed) => managed
    case Update(before, after) => before != after
    case _ => true
  }

  predicate ClusterRoleBindingPredicate(e: Event) {
    match e
    case Create(managed) => managed
    case Update(before, after) => before != after
    case _ => true
  }

  /** The filter installed on every watch.  Because BackupPredicate leaves
      creations and deletions alone, the disjunction drops nothing but updates
      that keep the generation: the label and the "state unknown" tests of the
      other three predicates have no effect. */
  predicate EventFilter(e: Event): (passes: bool)
    ensures passes <==> (e.Update? ==> e.oldGeneration != e.newGeneration)
  {
    || BackupPredicate(e)
    || ServiceAccountPredicate(e)
    || ClusterRolePredicate(e)
    || ClusterRoleBindingPredicate(e)
  }
}
