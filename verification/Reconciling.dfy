/** Tri-state planning: only complete observations lead to a remote change. */
module Reconciling {
  import opened Outcomes
  import opened Tables

  datatype Truth = True | False | Unknown
  datatype Observed<T> = Observed(truth: Truth, complete: bool, value: T)
  datatype ManagedState<T> = ManagedState(present: Observed<()>, qualifies: Observed<()>, current: Observed<T>, desired: Observed<T>)

  predicate Proved<T>(o: Observed<T>) {
    o.complete && !o.truth.Unknown?
  }

  predicate AllProved<T>(s: ManagedState<T>) {
    Proved(s.present) && Proved(s.qualifies) && Proved(s.current) && Proved(s.desired)
  }

  /** `plan`: at most one operation, and none while any observation is in doubt. */
  function Plan<T(==)>(s: ManagedState<T>): (k: Option<OperationKind>)
    ensures k.Some? ==> AllProved(s)
  {
    if !AllProved(s) then None
    else if s.present.truth.False? && s.qualifies.truth.True? then Some(OperationKind.Create)
    else if s.present.truth.True? && s.qualifies.truth.False? then Some(OperationKind.Close)
    else if s.present.truth.True? && s.qualifies.truth.True? && s.current.value != s.desired.value then Some(OperationKind.Move)
    else None
  }

  /** The observation a completed operation leaves behind. */
  function Performed<T>(s: ManagedState<T>, k: OperationKind): ManagedState<T> {
    match k
    case Create => s.(present := Observed(True, true, ()), current := s.desired)
    case Close => s.(present := Observed(False, true, ()))
    case Move => s.(current := s.desired)
  }

  /** As wanted: there exactly if it qualifies, and then in its desired stage. */
  predicate AsWanted<T(==)>(s: ManagedState<T>) {
    && (s.present.truth.True? <==> s.qualifies.truth.True?)
    && (s.present.truth.True? ==> s.current.value == s.desired.value)
  }

  /** Nothing is planned if one of the four observations is incomplete or unknown, or all is as
      wanted; otherwise what is planned makes it so in one step, and only what is absent is created. */
  lemma PlansExactly<T>(s: ManagedState<T>)
    ensures Plan(s).None? <==>
      || !(s.present.complete && s.qualifies.complete && s.current.complete && s.desired.complete)
      || Unknown in {s.present.truth, s.qualifies.truth, s.current.truth, s.desired.truth}
      || AsWanted(s)
    ensures forall k :: Plan(s) == Some(k) ==>
      AsWanted(Performed(s, k)) && Plan(Performed(s, k)) == None && (k.Create? <==> s.present.truth.False?)
  {
  }
}
