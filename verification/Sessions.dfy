/** Sessions and worker attempts: the transactions of `store.py` that open, close and count
    agents. */
module Sessions {
  import opened Outcomes
  import opened Tables

  /** Sessions may appear and change state, but never change organization or role. */
  ghost predicate SameOwners(db: Database, after: Database) {
    forall s :: s in db.sessions ==>
      s in after.sessions && after.sessions[s].org == db.sessions[s].org && after.sessions[s].role == db.sessions[s].role
  }

  /** Some active reservations may have become held ones; nothing else changed. */
  ghost predicate OnlyHolds(db: Database, after: Database) {
    && SameOwners(db, after)
    && after.buckets == db.buckets
    && after.reservations.Keys == db.reservations.Keys
    && forall r :: r in db.reservations ==>
      || after.reservations[r] == db.reservations[r]
      || (db.reservations[r].state.Active? && after.reservations[r] == db.reservations[r].(state := ReservationState.Uncertain))
  }

  function ActiveSessions(sessions: map<Id, Session>, org: Name): set<Id> {
    set s | s in sessions && sessions[s].org == org && sessions[s].state.Active?
  }

  predicate Busy(w: Worker) {
    w.state.Accepted? || w.state.Running?
  }

  /** Busy attempts of the organization, whatever the state of their session. */
  function BusyWorkers(sessions: map<Id, Session>, workers: map<Id, Worker>, org: Name): set<Id> {
    set w | w in workers && Busy(workers[w]) && workers[w].session in sessions && sessions[workers[w].session].org == org
  }

  function AttemptsOf(workers: map<Id, Worker>, sid: Id): set<Id> {
    set w | w in workers && workers[w].session == sid
  }

  function BusyOf(workers: map<Id, Worker>, sid: Id): set<Id> {
    set w | w in workers && workers[w].session == sid && Busy(workers[w])
  }

  predicate IsActive(db: Database, sid: Id) {
    sid in db.sessions && db.sessions[sid].state.Active?
  }

  function SetSession(db: Database, sid: Id, state: SessionState): (after: Database)
    ensures OnlyStaff(db, after) && OnlyHolds(db, after)
  {
    if sid in db.sessions then db.(sessions := db.sessions[sid := db.sessions[sid].(state := state)]) else db
  }

  function FailBusy(db: Database, sid: Id): (after: Database)
    ensures OnlyStaff(db, after) && OnlyHolds(db, after)
  {
    db.(workers := map w | w in db.workers ::
      if db.workers[w].session == sid && Busy(db.workers[w])
      then db.workers[w].(state := WorkerState.Failed) else db.workers[w])
  }

  function Create(db: Database, id: Id, wakeId: Id, org: Name, role: Name, now: Time, ttl: int,
                  globalCap: int): (tx: Tx<Id>)
    ensures tx.Commit? ==> OnlyStaff(db, tx.db) && OnlyHolds(db, tx.db)
  {
    if globalCap <= 0 || ttl <= 0 then Rollback(StateError(InvalidArgument))
    else if exists s :: s in ActiveSessions(db.sessions, org) && db.sessions[s].role == role then
      Rollback(StateError(RoleBusy))
    else if |ActiveSessions(db.sessions, org)| + |BusyWorkers(db.sessions, db.workers, org)| >= globalCap then
      Rollback(StateError(GlobalCapReached))
    else if id in db.sessions || exists s :: s in db.sessions && db.sessions[s].wakeId == wakeId then
      Rollback(IntegrityError)
    else
      Commit(db.(sessions := db.sessions[id := Session(wakeId, org, role, now + ttl, SessionState.Active)]), id)
  }

  function Revoke(db: Database, sid: Id): (tx: Tx<()>)
    ensures tx.Commit? ==> OnlyStaff(db, tx.db) && OnlyHolds(db, tx.db)
  {
    if BusyOf(db.workers, sid) != {} then Rollback(StateError(WorkersActive))
    else if !IsActive(db, sid) then Rollback(StateError(SessionInactive))
    else Commit(SetSession(db, sid, Revoked), ())
  }

  function ActiveReservationsOf(db: Database, sid: Id): set<Id> {
    set r | r in db.reservations && db.reservations[r].session == sid && db.reservations[r].state.Active?
  }

  function Finish(db: Database, sid: Id): (tx: Tx<()>)
    ensures tx.Commit? ==> OnlyStaff(db, tx.db) && OnlyHolds(db, tx.db)
  {
    if BusyOf(db.workers, sid) != {} || ActiveReservationsOf(db, sid) != {} then
      Rollback(StateError(WorkersOrBudgetActive))
    else if !IsActive(db, sid) then Rollback(StateError(SessionInactive))
    else Commit(SetSession(db, sid, Finished), ())
  }

  function HoldReservations(db: Database, sid: Id): (after: Database)
    ensures OnlyStaff(db, after) && OnlyHolds(db, after)
  {
    db.(reservations := map r | r in db.reservations ::
      if db.reservations[r].session == sid && db.reservations[r].state.Active?
      then db.reservations[r].(state := ReservationState.Uncertain) else db.reservations[r])
  }

  predicate LiveWake(w: Wake) {
    w.state.Prepared? || w.state.Running?
  }

  function EndWakes(db: Database, sid: Id, state: WakeState): (after: Database)
    ensures OnlyStaff(db, after) && OnlyHolds(db, after)
  {
    db.(wakes := map w | w in db.wakes ::
      if db.wakes[w].session == sid && LiveWake(db.wakes[w])
      then db.wakes[w].(state := state) else db.wakes[w])
  }

  function ForceTerminate(db: Database, sid: Id, expired: bool): (tx: Tx<()>)
    ensures tx.Commit? ==> OnlyStaff(db, tx.db) && OnlyHolds(db, tx.db)
  {
    if !IsActive(db, sid) then Rollback(StateError(SessionInactive))
    else
      var closed := SetSession(HoldReservations(FailBusy(db, sid), sid), sid, if expired then Expired else Revoked);
      Commit(EndWakes(closed, sid, WakeState.Terminated), ())
  }

  function Reap(db: Database, sid: Id, now: Time): (tx: Tx<()>)
    ensures tx.Commit? ==> OnlyStaff(db, tx.db) && OnlyHolds(db, tx.db)
  {
    if !IsActive(db, sid) || db.sessions[sid].expiresAt > now then Rollback(StateError(SessionNotExpired))
    else Commit(SetSession(HoldReservations(FailBusy(db, sid), sid), sid, Expired), ())
  }

  predicate Live(db: Database, sid: Id, now: Time) {
    IsActive(db, sid) && db.sessions[sid].expiresAt > now
  }

  function ReserveWorker(db: Database, id: Id, sid: Id, now: Time, cumulativeCap: int, concurrentCap: int,
                         globalCap: int): (tx: Tx<Id>)
    ensures tx.Commit? ==> OnlyStaff(db, tx.db) && OnlyHolds(db, tx.db)
  {
    if !Live(db, sid, now) then Rollback(StateError(SessionInactive))
    else if |AttemptsOf(db.workers, sid)| >= cumulativeCap then Rollback(StateError(CumulativeCapReached))
    else if |BusyOf(db.workers, sid)| >= concurrentCap then Rollback(StateError(ConcurrentCapReached))
    else
      var org := db.sessions[sid].org;
      if |ActiveSessions(db.sessions, org)| + |BusyWorkers(db.sessions, db.workers, org)| >= globalCap then
        Rollback(StateError(GlobalCapReached))
      else if id in db.workers
        || exists w :: w in db.workers && db.workers[w].session == sid
                       && db.workers[w].sequence == |AttemptsOf(db.workers, sid)| + 1 then
        Rollback(IntegrityError)
      else
        Commit(db.(workers := db.workers[id := Worker(sid, |AttemptsOf(db.workers, sid)| + 1, Accepted)]), id)
  }

  /** The unguarded `UPDATE worker_attempt SET state=...` statements of `workers.py`. */
  function SetWorker(db: Database, id: Id, state: WorkerState): (tx: Tx<()>)
    ensures tx.Commit? ==> OnlyStaff(db, tx.db) && OnlyHolds(db, tx.db)
  {
    Commit(if id in db.workers then db.(workers := db.workers[id := db.workers[id].(state := state)]) else db, ())
  }
}
