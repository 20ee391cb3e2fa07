/** The two write-ahead journals: broker requests and reconciliation operations. */
module Journals {
  import opened Outcomes
  import opened Tables

  predicate SameRequest(row: Request, sid: Id, operation: Verb, arguments: Text) {
    row.session == sid && row.operation == operation && row.arguments == arguments
  }

  function Answer(row: Request): Response {
    if row.response.Some? then row.response.value else Indeterminate
  }

  function Prior(db: Database, sid: Id, key: Text, operation: Verb, arguments: Text): Outcome<Option<Response>> {
    if key !in db.requests then Ok(None)
    else if !SameRequest(db.requests[key], sid, operation, arguments) then Raised(StateError(KeyReused))
    else Ok(Some(Answer(db.requests[key])))
  }

  function Reserve(db: Database, sid: Id, key: Text, operation: Verb, arguments: Text): (tx: Tx<Option<Response>>)
    ensures tx.Commit? ==> OnlyJournals(db, tx.db)
  {
    if key in db.requests then
      if !SameRequest(db.requests[key], sid, operation, arguments) then Rollback(StateError(KeyReused))
      else Commit(db, Some(Answer(db.requests[key])))
    else if sid !in db.sessions then Rollback(IntegrityError)
    else Commit(db.(requests := db.requests[key := Request(sid, operation, arguments, RequestState.Reserved, None)]), None)
  }

  function MarkApplying(db: Database, key: Text): (tx: Tx<()>)
    ensures tx.Commit? ==> OnlyJournals(db, tx.db)
  {
    if key !in db.requests || !db.requests[key].state.Reserved? then Rollback(StateError(RequestNotReserved))
    else Commit(db.(requests := db.requests[key := db.requests[key].(state := RequestState.Applying)]), ())
  }

  function AbandonRead(db: Database, key: Text): (tx: Tx<()>)
    ensures tx.Commit? ==> OnlyJournals(db, tx.db)
  {
    Commit(if key in db.requests && db.requests[key].operation.Read? then db.(requests := db.requests - {key}) else db, ())
  }

  /** No source-state guard: any journalled request takes the new state and response. */
  function Finish(db: Database, key: Text, state: RequestState, response: Response): (tx: Tx<()>)
    ensures tx.Commit? ==> OnlyJournals(db, tx.db)
  {
    if state.Reserved? || state.Applying? then Rollback(StateError(InvalidArgument))
    else
      Commit(if key in db.requests then db.(requests := db.requests[key :=
               db.requests[key].(state := state, response := Some(response))]) else db, ())
  }

  function WithKey(operations: map<Id, Operation>, key: OperationKey): set<Id> {
    set o | o in operations && operations[o].key == key
  }

  /** The journalled operation for the key, new or prior. */
  ghost function ReserveOperation(db: Database, id: Id, key: OperationKey, source: SourceKey, kind: OperationKind,
                                  precondition: Precondition): (tx: Tx<Id>)
    ensures tx.Commit? ==> OnlyJournals(db, tx.db)
  {
    if WithKey(db.operations, key) != {} then
      var prior :| prior in WithKey(db.operations, key);
      var row := db.operations[prior];
      if row.source != source || row.kind != kind || row.precondition != precondition then Rollback(StateError(KeyReused))
      else Commit(db, prior)
    else if id in db.operations then Rollback(IntegrityError)
    else Commit(db.(operations := db.operations[id := Operation(key, source, kind, precondition, Planned)]), id)
  }

  function MarkOperation(db: Database, id: Id): (tx: Tx<()>)
    ensures tx.Commit? ==> OnlyJournals(db, tx.db)
  {
    if id !in db.operations || !db.operations[id].state.Planned? then Rollback(StateError(NotPlanned))
    else Commit(db.(operations := db.operations[id := db.operations[id].(state := OperationState.Applying)]), ())
  }

  predicate MayBecome(before: OperationState, after: OperationState) {
    match before
    case Applying => after.VerifyPending? || after.Succeeded? || after.DeadLetter?
    case VerifyPending => after.Succeeded? || after.DeadLetter?
    case _ => false
  }

  function FinishOperation(db: Database, id: Id, state: OperationState): (tx: Tx<()>)
    ensures tx.Commit? ==> OnlyJournals(db, tx.db)
  {
    if state.Planned? || state.Applying? then Rollback(StateError(InvalidArgument))
    else if id !in db.operations || !MayBecome(db.operations[id].state, state) then Rollback(StateError(BadTransition))
    else Commit(db.(operations := db.operations[id := db.operations[id].(state := state)]), ())
  }
}
