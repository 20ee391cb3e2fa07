/** What the supervisor's own order of calls keeps true of wakes, so that a restart at any
    moment finds a database it can put in order. */
module Readiness {
  import opened Outcomes
  import opened Tables
  import opened Runs
  import opened Sessions
  import opened Wakes
  import opened Boards
  import opened RunBoard

  /** Each session has at most one wake; a live wake's session is active; a wake and its
      delivery are of one role. */
  ghost predicate WakeRows(wakes: map<Id, Wake>, sessions: map<Id, Session>, deliveries: map<Id, Delivery>) {
    forall w :: w in wakes ==>
      && wakes[w].session in sessions && WakesOf(wakes, wakes[w].session) == {w}
      && (LiveWake(wakes[w]) ==> sessions[wakes[w].session].state.Active?)
      && (wakes[w].delivery.Some? ==>
            wakes[w].delivery.value in deliveries && deliveries[wakes[w].delivery.value].role == sessions[wakes[w].session].role)
  }

  /** No process is recorded before its session's wake, and no worker accepted before a process. */
  ghost predicate ProcessRows(processes: map<ProcessKey, Process>, sessions: map<Id, Session>, wakes: map<Id, Wake>) {
    forall p :: p in processes ==> processes[p].session in sessions && WakesOf(wakes, processes[p].session) != {}
  }

  ghost predicate WorkerRows(workers: map<Id, Worker>, processes: map<ProcessKey, Process>) {
    forall w :: w in workers ==> ProcessesOf(processes, workers[w].session) != {}
  }

  /** A session without a wake still holds its reservation, and tokens were only ever given
      back for a session that recorded no process. */
  ghost predicate ReservationRows(reservations: map<Id, Reservation>, sessions: map<Id, Session>, wakes: map<Id, Wake>,
                                  processes: map<ProcessKey, Process>) {
    forall r :: r in reservations ==>
      && reservations[r].session in sessions
      && (sessions[reservations[r].session].state.Active? && WakesOf(wakes, reservations[r].session) == {} ==>
            reservations[r].state.Active?)
      && (reservations[r].state.Released? ==> ProcessesOf(processes, reservations[r].session) == {})
  }

  ghost predicate Ready(db: Database) {
    && WakeRows(db.wakes, db.sessions, db.deliveries)
    && ProcessRows(db.processes, db.sessions, db.wakes)
    && WorkerRows(db.workers, db.processes)
    && ReservationRows(db.reservations, db.sessions, db.wakes, db.processes)
  }

  /** No wake of the session is prepared or running. */
  ghost predicate Unwoken(db: Database, sid: Id) {
    forall w :: w in db.wakes && db.wakes[w].session == sid ==> !LiveWake(db.wakes[w])
  }

  ghost predicate Unreleased(db: Database, sid: Id) {
    forall r :: r in db.reservations && db.reservations[r].session == sid ==> !db.reservations[r].state.Released?
  }

  /** The order the supervisor issues its calls in: a session is closed only once no wake of
      it is live, budgets are settled or held only after a wake is prepared, a process is
      recorded only after that, and workers are accepted only after a process. */
  ghost predicate Disciplined(db: Database, c: Command) {
    match c
    case OfSession(RevokeSession(sid)) => Unwoken(db, sid)
    case OfSession(FinishSession(sid)) => Unwoken(db, sid)
    case OfSession(ReapExpiredSession(sid, _)) => Unwoken(db, sid)
    case OfSession(ReserveWorker(_, sid, _, _, _, _)) => ProcessesOf(db.processes, sid) != {}
    case OfBudget(SettleBudget(id, _)) => id in db.reservations ==> WakesOf(db.wakes, db.reservations[id].session) != {}
    case OfBudget(MarkBudgetUncertain(id)) => id in db.reservations ==> WakesOf(db.wakes, db.reservations[id].session) != {}
    case OfBudget(ReleaseBudget(id)) =>
      id in db.reservations ==> !IsActive(db, db.reservations[id].session) && ProcessesOf(db.processes, db.reservations[id].session) == {}
    case OfWake(PrepareWake(_, sid, delivery, _, _, _)) =>
      && IsActive(db, sid)
      && (delivery.Some? && delivery.value in db.deliveries ==> db.deliveries[delivery.value].role == db.sessions[sid].role)
    case OfWake(RecordProcess(_, sid, _, _, _)) => WakesOf(db.wakes, sid) != {} && Unreleased(db, sid)
    case _ => true
  }

  // ---------- every disciplined command keeps readiness ----------

  predicate SameRoles(before: map<Id, Delivery>, after: map<Id, Delivery>) {
    forall d :: d in before ==> d in after && after[d].role == before[d].role
  }

  /** Session `sid` is closed: its wakes are over, its reservation kept or, when it recorded no
      process, perhaps given back; nothing of another session changes. */
  ghost predicate Shuts(db: Database, after: Database, sid: Id) {
    && sid in db.sessions && sid in after.sessions && !after.sessions[sid].state.Active?
    && after.sessions == db.sessions[sid := db.sessions[sid].(state := after.sessions[sid].state)]
    && after.processes == db.processes && SameRoles(db.deliveries, after.deliveries)
    && after.workers.Keys == db.workers.Keys && (forall w :: w in db.workers ==> after.workers[w].session == db.workers[w].session)
    && after.wakes.Keys == db.wakes.Keys && (forall w :: w in db.wakes ==> WakeShuts(db.wakes[w], after.wakes[w], sid))
    && after.reservations.Keys == db.reservations.Keys
    && (forall r :: r in db.reservations ==> ReservationShuts(db, db.reservations[r], after.reservations[r], sid))
  }

  predicate WakeShuts(before: Wake, after: Wake, sid: Id) {
    after == before.(state := after.state) && (if before.session == sid then !LiveWake(after) else after == before)
  }

  predicate ReservationShuts(db: Database, before: Reservation, after: Reservation, sid: Id) {
    && after == before.(state := after.state)
    && (before.session != sid ==> after == before)
    && (after.state.Released? ==> before.state.Released? || ProcessesOf(db.processes, sid) == {})
  }

  lemma SameWakesOf(before: map<Id, Wake>, after: map<Id, Wake>)
    requires after.Keys == before.Keys && forall w :: w in before ==> after[w].session == before[w].session
    ensures forall s: Id :: WakesOf(after, s) == WakesOf(before, s)
  {
  }

  lemma ShuttingKeepsWakes(db: Database, after: Database, sid: Id)
    requires WakeRows(db.wakes, db.sessions, db.deliveries) && Shuts(db, after, sid)
    ensures WakeRows(after.wakes, after.sessions, after.deliveries)
  {
  }

  lemma ShuttingKeepsReservations(db: Database, after: Database, sid: Id)
    requires ReservationRows(db.reservations, db.sessions, db.wakes, db.processes) && Shuts(db, after, sid)
    ensures ReservationRows(after.reservations, after.sessions, after.wakes, after.processes)
  {
  }

  lemma ShuttingKeepsReady(db: Database, after: Database, sid: Id)
    requires Ready(db) && Shuts(db, after, sid)
    ensures Ready(after)
  {
    ShuttingKeepsWakes(db, after, sid);
    ShuttingKeepsReservations(db, after, sid);
    SameWakesOf(db.wakes, after.wakes);
  }

  lemma RevokeShuts(db: Database, sid: Id)
    requires Sessions.Revoke(db, sid).Commit? && Unwoken(db, sid)
    ensures Shuts(db, Sessions.Revoke(db, sid).db, sid)
  {
  }

  lemma FinishShuts(db: Database, sid: Id)
    requires Sessions.Finish(db, sid).Commit? && Unwoken(db, sid)
    ensures Shuts(db, Sessions.Finish(db, sid).db, sid)
  {
  }

  lemma ReapShuts(db: Database, sid: Id, now: Time)
    requires Sessions.Reap(db, sid, now).Commit? && Unwoken(db, sid)
    ensures Shuts(db, Sessions.Reap(db, sid, now).db, sid)
  {
  }

  lemma TerminateShuts(db: Database, sid: Id, expired: bool)
    requires Sessions.ForceTerminate(db, sid, expired).Commit?
    ensures Shuts(db, Sessions.ForceTerminate(db, sid, expired).db, sid)
  {
  }

  /** Releasing for a session and returning its delivery touches only that session's
      reservation and the delivery's state. */
  lemma ReleaseAndRetryLeaves(db: Database, sid: Id, delivery: Option<Id>, eligible: Option<Time>)
    requires ReleaseAndRetry(db, sid, delivery, eligible).Commit?
    ensures var after := ReleaseAndRetry(db, sid, delivery, eligible).db;
      && after.sessions == db.sessions && after.workers == db.workers && after.wakes == db.wakes && after.processes == db.processes
      && SameRoles(db.deliveries, after.deliveries)
      && after.reservations.Keys == db.reservations.Keys
      && (forall r :: r in db.reservations ==> after.reservations[r] == db.reservations[r].(state := after.reservations[r].state))
      && (forall r :: r in db.reservations && db.reservations[r].session != sid ==> after.reservations[r] == db.reservations[r])
  {
  }

  lemma OrphanShuts(db: Database, sid: Id, delivery: Option<Id>, eligible: Option<Time>)
    requires RecoverOrphan(db, sid, delivery, eligible).Commit?
    ensures Shuts(db, RecoverOrphan(db, sid, delivery, eligible).db, sid)
  {
    ReleaseAndRetryLeaves(db, sid, delivery, eligible);
    forall w | w in db.wakes ensures db.wakes[w].session != sid {
      assert w !in WakesOf(db.wakes, sid);
    }
  }

  lemma PreparedShuts(db: Database, wakeId: Id, eligibleAt: Time)
    requires WakeRows(db.wakes, db.sessions, db.deliveries) && RecoverPrepared(db, wakeId, eligibleAt).Commit?
    ensures wakeId in db.wakes && Shuts(db, RecoverPrepared(db, wakeId, eligibleAt).db, db.wakes[wakeId].session)
  {
    ReleaseAndRetryLeaves(db, db.wakes[wakeId].session, db.wakes[wakeId].delivery, Some(eligibleAt));
    forall w | w in db.wakes && db.wakes[w].session == db.wakes[wakeId].session ensures w == wakeId {
      assert w in WakesOf(db.wakes, db.wakes[wakeId].session);
      assert WakesOf(db.wakes, db.wakes[wakeId].session) == {wakeId};
    }
  }

  lemma CreateKeepsReady(db: Database, id: Id, wakeId: Id, org: Name, role: Name, now: Time, ttl: int, cap: int)
    requires Ready(db)
    ensures Ready(After(db, Sessions.Create(db, id, wakeId, org, role, now, ttl, cap)))
  {
  }

  lemma HireKeepsReady(db: Database, id: Id, sid: Id, now: Time, cumulative: int, concurrent: int, cap: int)
    requires Ready(db) && ProcessesOf(db.processes, sid) != {}
    ensures Ready(After(db, Sessions.ReserveWorker(db, id, sid, now, cumulative, concurrent, cap)))
  {
  }

  lemma SetWorkerKeepsReady(db: Database, id: Id, state: WorkerState)
    requires Ready(db)
    ensures Ready(After(db, Sessions.SetWorker(db, id, state)))
  {
  }

  lemma SessionStepKeepsReady(db: Database, c: SessionCommand)
    requires Ready(db) && Disciplined(db, OfSession(c))
    ensures Ready(SessionStep(db, c))
  {
    if SessionStep(db, c) != db {
      match c
      case CreateSession(id, wakeId, org, role, now, ttl, cap) => CreateKeepsReady(db, id, wakeId, org, role, now, ttl, cap);
      case RevokeSession(sid) => RevokeShuts(db, sid); ShuttingKeepsReady(db, SessionStep(db, c), sid);
      case FinishSession(sid) => FinishShuts(db, sid); ShuttingKeepsReady(db, SessionStep(db, c), sid);
      case ForceTerminateSession(sid, expired) => TerminateShuts(db, sid, expired); ShuttingKeepsReady(db, SessionStep(db, c), sid);
      case ReapExpiredSession(sid, now) => ReapShuts(db, sid, now); ShuttingKeepsReady(db, SessionStep(db, c), sid);
      case ReserveWorker(id, sid, now, cumulative, concurrent, cap) => HireKeepsReady(db, id, sid, now, cumulative, concurrent, cap);
      case SetWorker(id, state) => SetWorkerKeepsReady(db, id, state);
    }
  }

  lemma RecoveryStepKeepsReady(db: Database, c: RecoveryCommand)
    requires Ready(db)
    ensures Ready(RecoveryStep(db, c))
  {
    if RecoveryStep(db, c) != db {
      match c
      case RecoverOrphanSession(sid, delivery, eligible) =>
        OrphanShuts(db, sid, delivery, eligible);
        ShuttingKeepsReady(db, RecoveryStep(db, c), sid);
      case RecoverPreparedWake(wakeId, eligibleAt) =>
        PreparedShuts(db, wakeId, eligibleAt);
        ShuttingKeepsReady(db, RecoveryStep(db, c), db.wakes[wakeId].session);
    }
  }

  lemma BudgetStepKeepsReady(db: Database, c: BudgetCommand)
    requires Ready(db) && Disciplined(db, OfBudget(c))
    ensures Ready(BudgetStep(db, c))
  {
  }

  lemma PrepareKeepsReady(db: Database, wakeId: Id, sid: Id, delivery: Option<Id>, reservation: Id, socket: string, reason: string)
    requires Ready(db) && Disciplined(db, OfWake(PrepareWake(wakeId, sid, delivery, reservation, socket, reason)))
    ensures Ready(After(db, Wakes.Prepare(db, wakeId, sid, delivery, reservation, socket, reason)))
  {
    var tx := Wakes.Prepare(db, wakeId, sid, delivery, reservation, socket, reason);
    if tx.Commit? {
      var after := tx.db;
      forall s: Id ensures WakesOf(after.wakes, s) == if s == sid then {wakeId} else WakesOf(db.wakes, s) {
        if s == sid {
          assert WakesOf(db.wakes, sid) == {};
        }
      }
    }
  }

  lemma WakesMoveKeepsReady(db: Database, after: Database)
    requires Ready(db) && after == db.(wakes := after.wakes) && after.wakes.Keys == db.wakes.Keys
    requires forall w :: w in db.wakes ==>
      after.wakes[w] == db.wakes[w].(state := after.wakes[w].state) && (LiveWake(after.wakes[w]) ==> LiveWake(db.wakes[w]))
    ensures Ready(after)
  {
  }

  lemma RecordKeepsReady(db: Database, key: ProcessKey, sid: Id, pid: int, pgid: int, birth: string)
    requires Ready(db) && WakesOf(db.wakes, sid) != {} && Unreleased(db, sid)
    ensures Ready(After(db, Wakes.Record(db, key, sid, pid, pgid, birth)))
  {
  }

  lemma EndProcessKeepsReady(db: Database, key: ProcessKey, state: ProcessState)
    requires Ready(db)
    ensures Ready(After(db, Wakes.EndProcess(db, key, state)))
  {
  }

  lemma SameProcessesOf(before: map<ProcessKey, Process>, after: map<ProcessKey, Process>)
    requires after.Keys == before.Keys && forall p :: p in before ==> after[p].session == before[p].session
    ensures forall s: Id :: ProcessesOf(after, s) == ProcessesOf(before, s)
  {
  }

  lemma WakeStepKeepsReady(db: Database, c: WakeCommand)
    requires Ready(db) && Disciplined(db, OfWake(c))
    ensures Ready(WakeStep(db, c))
  {
    if WakeStep(db, c) != db {
      match c
      case PrepareWake(wakeId, sid, delivery, reservation, socket, reason) =>
        PrepareKeepsReady(db, wakeId, sid, delivery, reservation, socket, reason);
      case MarkWakeRunning(wakeId) => WakesMoveKeepsReady(db, WakeStep(db, c));
      case FinishWake(wakeId, state) => WakesMoveKeepsReady(db, WakeStep(db, c));
      case QuarantineWake(sid) => WakesMoveKeepsReady(db, WakeStep(db, c));
      case RecordProcess(key, sid, pid, pgid, birth) => RecordKeepsReady(db, key, sid, pid, pgid, birth);
      case FinishProcess(key, state) => EndProcessKeepsReady(db, key, state);
    }
  }

  lemma RolesKeepReady(db: Database, after: Database)
    requires Ready(db) && SameRoles(db.deliveries, after.deliveries)
    requires after.sessions == db.sessions && after.workers == db.workers && after.reservations == db.reservations
    requires after.wakes == db.wakes && after.processes == db.processes
    ensures Ready(after)
  {
  }

  /** Every disciplined step keeps readiness. */
  lemma {:induction false} StepKeepsReady(db: Database, c: Command, ceiling: int)
    requires Ready(db) && Disciplined(db, c) && Board(db, ceiling) && 0 <= ceiling && Bounded(c, ceiling)
    ensures Ready(Step(db, c))
  {
    match c
    case OfSession(s) => SessionStepKeepsReady(db, s);
    case OfBudget(b) => BudgetStepKeepsReady(db, b);
    case OfWake(w) => WakeStepKeepsReady(db, w);
    case OfRecovery(r) => RecoveryStepKeepsReady(db, r);
    case OfDelivery(d) => DeliveryFrame(db, d); DeliveryProgresses(db, d, ceiling); RolesKeepReady(db, Step(db, c));
    case OfFeed(f) => FeedFrame(db, f); RolesKeepReady(db, Step(db, c));
    case OfJournal(j) => JournalFrame(db, j); RolesKeepReady(db, Step(db, c));
  }
}
