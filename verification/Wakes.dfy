/** Wake and process rows, and the two recovery transactions that release a wake proved
    never to have reached its provider. */
module Wakes {
  import opened Outcomes
  import opened Tables
  import opened Sessions
  import Budgets
  import Deliveries

  function WakesOf(wakes: map<Id, Wake>, sid: Id): set<Id> {
    set w | w in wakes && wakes[w].session == sid
  }

  function ReservationsOf(reservations: map<Id, Reservation>, sid: Id): set<Id> {
    set r | r in reservations && reservations[r].session == sid
  }

  function ProcessesOf(processes: map<ProcessKey, Process>, sid: Id): set<ProcessKey> {
    set p | p in processes && processes[p].session == sid
  }

  predicate Absolute(path: string) {
    |path| > 0 && path[0] == '/'
  }

  function Prepare(db: Database, wakeId: Id, sid: Id, delivery: Option<Id>, reservation: Id, socket: string, reason: string): (tx: Tx<()>)
    ensures tx.Commit? ==> OnlyWakes(db, tx.db)
  {
    if reason == "" || !Absolute(socket) then Rollback(StateError(InvalidArgument))
    else if wakeId in db.wakes || sid !in db.sessions || reservation !in db.reservations
      || (delivery.Some? && delivery.value !in db.deliveries)
      || (exists w :: w in db.wakes && (db.wakes[w].session == sid || db.wakes[w].reservation == reservation
                                        || db.wakes[w].socket == socket)) then
      Rollback(IntegrityError)
    else Commit(db.(wakes := db.wakes[wakeId := Wake(sid, delivery, reservation, socket, Prepared)]), ())
  }

  function MarkRunning(db: Database, wakeId: Id): (tx: Tx<()>)
    ensures tx.Commit? ==> OnlyWakes(db, tx.db)
  {
    if wakeId !in db.wakes || !db.wakes[wakeId].state.Prepared? then Rollback(StateError(WakeNotPrepared))
    else Commit(db.(wakes := db.wakes[wakeId := db.wakes[wakeId].(state := WakeState.Running)]), ())
  }

  function Finish(db: Database, wakeId: Id, state: WakeState): (tx: Tx<()>)
    ensures tx.Commit? ==> OnlyWakes(db, tx.db)
  {
    if state.Prepared? || state.Running? then Rollback(StateError(InvalidArgument))
    else if wakeId !in db.wakes || !LiveWake(db.wakes[wakeId]) then Rollback(StateError(WakeNotActive))
    else Commit(db.(wakes := db.wakes[wakeId := db.wakes[wakeId].(state := state)]), ())
  }

  function Record(db: Database, key: ProcessKey, sid: Id, pid: int, pgid: int, birth: string): (tx: Tx<()>)
    ensures tx.Commit? ==> OnlyWakes(db, tx.db)
  {
    if pid <= 0 || pgid <= 0 || birth == "" then Rollback(StateError(InvalidArgument))
    else if key in db.processes || sid !in db.sessions || (key.WorkerOf? && key.attempt !in db.workers)
      || (exists p :: p in db.processes && db.processes[p].pid == pid && db.processes[p].birth == birth) then
      Rollback(IntegrityError)
    else Commit(db.(processes := db.processes[key := Process(sid, pid, birth, ProcessState.Running)]), ())
  }

  function EndProcess(db: Database, key: ProcessKey, state: ProcessState): (tx: Tx<()>)
    ensures tx.Commit? ==> OnlyWakes(db, tx.db)
  {
    if state.Running? then Rollback(StateError(InvalidArgument))
    else if key !in db.processes || !db.processes[key].state.Running? then Rollback(StateError(ProcessInactive))
    else Commit(db.(processes := db.processes[key := db.processes[key].(state := state)]), ())
  }

  /** `_release_reservation_for`: nothing to do when the session never reserved. */
  ghost function ReleaseFor(db: Database, sid: Id): (tx: Tx<()>)
    ensures tx.Commit? ==> OnlyBudgets(db, tx.db)
  {
    if ReservationsOf(db.reservations, sid) == {} then Commit(db, ())
    else
      var r :| r in ReservationsOf(db.reservations, sid);
      Budgets.Release(db, r)
  }

  function RetryIfBound(db: Database, delivery: Option<Id>, eligibleAt: Option<Time>): (tx: Tx<()>)
    ensures tx.Commit? ==> OnlyRouting(db, tx.db)
  {
    if delivery.None? then Commit(db, ())
    else if eligibleAt.None? then Rollback(StateError(InvalidArgument))
    else Deliveries.RetryLeased(db, delivery.value, eligibleAt.value)
  }

  ghost function ReleaseAndRetry(db: Database, sid: Id, delivery: Option<Id>, eligibleAt: Option<Time>): Tx<()> {
    var released := ReleaseFor(db, sid);
    if released.Rollback? then released else RetryIfBound(released.db, delivery, eligibleAt)
  }

  /** Nothing but, perhaps, a reservation stands behind the session. */
  predicate Bare(db: Database, sid: Id) {
    ProcessesOf(db.processes, sid) == {} && AttemptsOf(db.workers, sid) == {}
  }

  ghost function RecoverOrphan(db: Database, sid: Id, delivery: Option<Id>, eligibleAt: Option<Time>): Tx<()> {
    if !IsActive(db, sid) || WakesOf(db.wakes, sid) != {} || !Bare(db, sid) then Rollback(StateError(NotAnOrphan))
    else
      var released := ReleaseAndRetry(db, sid, delivery, eligibleAt);
      if released.Rollback? then released else Commit(SetSession(released.db, sid, Revoked), ())
  }

  ghost function RecoverPrepared(db: Database, wakeId: Id, eligibleAt: Time): Tx<()> {
    if wakeId !in db.wakes || !db.wakes[wakeId].state.Prepared? then Rollback(StateError(WakeNotPrepared))
    else
      var wake := db.wakes[wakeId];
      if !IsActive(db, wake.session) || !Bare(db, wake.session) then Rollback(StateError(WakeNotProcessFree))
      else
        var released := ReleaseAndRetry(db, wake.session, wake.delivery, Some(eligibleAt));
        if released.Rollback? then released
        else
          var ended := released.db.(wakes := released.db.wakes[wakeId := wake.(state := WakeState.Failed)]);
          Commit(SetSession(ended, wake.session, Revoked), ())
  }
}
