/** The wake protocol over any number of boots: threads running `_run_wake`, their workers, an
    operator's pause and the tick, interleaved in any order between store transactions; crashes
    that end every thread; and the transactions of restart recovery, itself cut short anywhere. */
module WakeThreads {
  import opened Outcomes
  import opened Tables
  import opened Runs
  import opened Sessions
  import opened Wakes
  import opened Readiness
  import opened RunBoard
  import Boards
  import Deliveries
  import Budgets
  import Capacities
  import Policies
  import RunCapacity
  import RunLedger
  import Recovery

  /** Where a thread stands in `_run_wake`: the next store call it will make. */
  datatype Point =
    | Opening           // create the session
    | Funding           // reserve the budget
    | Refused           // budget refused: revoke the session
    | Holding           // put the delivery on budget hold
    | Preparing         // persist the wake
    | Launching         // start socket and provider; no store call
    | Recording         // the provider is spawned: record its process
    | Marking           // mark the wake running
    | Starting          // mark the delivery running, then send the prompt
    | Reaping           // killed before its prompt: end its process row
    | Waiting           // end the process row once the provider exits
    | Settling          // charge the tokens
    | Closing           // finish the wake
    | Delivering        // finish the delivery
    | Finishing         // finish the session
    | Undoing           // failed before the spawn: recover orphan or prepared wake
    | Stopping          // failed after it: terminate what is recorded
    | Keeping           // hold the tokens as uncertain
    | Quarantining      // quarantine the delivery
    | Ending            // finish the wake as uncertain
    | Shutting          // close the session if everything is proved dead
    | Abandoned         // no session: give the delivery back
    | Over

  datatype Thread = Thread(at: Point, role: Name, delivery: Option<Id>, sid: Id, wakeId: Id, reservation: Id)

  /** The store call a thread makes at its point; arguments the environment chooses are free. */
  ghost predicate Calls(db: Database, t: Thread, c: Command, policy: Policies.Policy) {
    match t.at
    case Opening =>
      c.OfSession? && c.session.CreateSession? && c.session.id == t.sid && c.session.wakeId == t.wakeId
      && c.session.org == policy.org && c.session.role == t.role && c.session.globalCap == policy.globalCap
    case Funding => c.OfBudget? && c.budget.ReserveBudget? && c.budget.id == t.reservation && c.budget.sid == t.sid
    case Refused => c == OfSession(RevokeSession(t.sid))
    case Preparing =>
      c.OfWake? && c.wake.PrepareWake? && c.wake.wakeId == t.wakeId && c.wake.sid == t.sid && c.wake.delivery == t.delivery
      && c.wake.reservation == t.reservation
    case Recording => c.OfWake? && c.wake.RecordProcess? && c.wake.process == ParentOf(t.sid) && c.wake.sid == t.sid
    case Marking => c == OfWake(MarkWakeRunning(t.wakeId))
    case Starting => c.OfDelivery? && c.delivery.StartDelivery? && Some(c.delivery.id) == t.delivery
    case Reaping => c == OfWake(FinishProcess(ParentOf(t.sid), ProcessState.Terminated))
    case Waiting => c.OfWake? && c.wake.FinishProcess? && c.wake.process == ParentOf(t.sid)
    case Settling => c.OfBudget? && c.budget.SettleBudget? && c.budget.id == t.reservation
    case Closing => c == OfWake(FinishWake(t.wakeId, WakeState.Succeeded)) || c == OfWake(FinishWake(t.wakeId, WakeState.Failed))
    case Finishing => c == OfSession(FinishSession(t.sid))
    case Undoing =>
      if WakesOf(db.wakes, t.sid) == {} then
        c.OfRecovery? && c.recovery.RecoverOrphanSession? && c.recovery.sid == t.sid && c.recovery.delivery == t.delivery
      else c.OfRecovery? && c.recovery.RecoverPreparedWake? && c.recovery.wakeId == t.wakeId
    case Stopping => c.OfWake? && c.wake.FinishProcess?
    case Keeping => c == OfBudget(MarkBudgetUncertain(t.reservation))
    case Ending => c == OfWake(FinishWake(t.wakeId, WakeState.Uncertain))
    case Shutting => c == OfSession(ForceTerminateSession(t.sid, false))
    case Quarantining => c.OfDelivery? && c.delivery.ForceDeliveryUncertain? && Some(c.delivery.id) == t.delivery
    case Holding => c.OfDelivery? && c.delivery.FinishDelivery? && Some(c.delivery.id) == t.delivery
    case Delivering => c.OfDelivery? && c.delivery.FinishDelivery? && Some(c.delivery.id) == t.delivery
    case Abandoned => c.OfDelivery? && c.delivery.FinishDelivery? && Some(c.delivery.id) == t.delivery
    case Launching => false
    case Over => false
  }

  /** The point after a call that committed. */
  ghost predicate Succeeds(at: Point, next: Point) {
    match at
    case Opening => next.Funding?
    case Funding => next.Preparing?
    case Refused => next.Holding? || next.Undoing?
    case Holding => next.Over?
    case Preparing => next.Launching?
    case Launching => next.Recording?
    case Recording => next.Marking?
    case Marking => next.Starting?
    case Starting => next.Waiting?
    case Reaping => next.Stopping?
    case Waiting => next.Settling? || next.Stopping?
    case Settling => next.Closing? || next.Stopping?
    case Closing => next.Delivering?
    case Delivering => next.Finishing?
    case Finishing => next.Over?
    case Undoing => next.Over?
    case Stopping => next.Stopping? || next.Keeping?
    case Keeping => next.Quarantining?
    case Quarantining => next.Ending?
    case Ending => next.Shutting?
    case Shutting => next.Over?
    case Abandoned => next.Over?
    case Over => false
  }

  /** Where an exception leads, whether a call was refused or something else failed. */
  ghost predicate Fails(at: Point, next: Point) {
    match at
    case Opening => next.Abandoned?
    case Funding => next.Refused? || next.Undoing?
    case Refused => next.Undoing?
    case Holding => next.Undoing?
    case Preparing => next.Undoing?
    case Launching => next.Undoing?
    case Recording => next.Reaping?
    case Marking => next.Reaping?
    case Starting => next.Reaping?
    case Reaping => next.Stopping?
    case Stopping => next.Keeping?
    case Keeping => next.Quarantining?
    case Quarantining => next.Ending?
    case Ending => next.Shutting?
    case Waiting => next.Stopping?
    case Settling => next.Stopping?
    case Closing => next.Stopping?
    case Delivering => next.Stopping?
    case Finishing => next.Stopping?
    case _ => next.Over?
  }

  /** Points whose call a thread without a delivery skips. */
  predicate OfDeliveryOnly(at: Point) {
    at.Starting? || at.Delivering? || at.Quarantining? || at.Abandoned?
  }

  datatype System = System(db: Database, threads: map<Id, Thread>, actuals: Budgets.Actuals)

  datatype Event =
    | Begins(t: Thread)                     // a delivery was leased, or an operator asked for a wake
    | Acts(sid: Id, c: Command, next: Point)
    | Breaks(sid: Id, next: Point)          // a refused call, another exception, or a skipped call
    | Works(sid: Id, c: Command)            // the broker serving a provider, or a worker
    | Pauses(sid: Id, c: Command)           // `_terminate_wake`
    | Ticks(c: Command)
    | Crashes                               // the process ends, wherever its threads stand
    | Repairs(c: Command)                   // one transaction of `recover` at the next boot

  /** The calls whose success a thread's next point depends on. */
  ghost predicate Commits(db: Database, c: Command) {
    match c
    case OfSession(s) => SessionCommits(db, s)
    case OfBudget(b) => BudgetCommits(db, b)
    case OfWake(w) => WakeCommits(db, w)
    case OfDelivery(StartDelivery(id, owner, now)) => Deliveries.Start(db, id, owner, now).Commit?
    case OfDelivery(FinishDelivery(id, owner, outcome, at)) => Deliveries.Finish(db, id, owner, outcome, at).Commit?
    case OfDelivery(ForceDeliveryUncertain(id)) => Deliveries.ForceUncertain(db, id).Commit?
    case OfRecovery(RecoverOrphanSession(sid, delivery, eligible)) => Wakes.RecoverOrphan(db, sid, delivery, eligible).Commit?
    case OfRecovery(RecoverPreparedWake(w, at)) => Wakes.RecoverPrepared(db, w, at).Commit?
    case _ => true
  }

  predicate SessionCommits(db: Database, c: SessionCommand) {
    match c
    case CreateSession(id, wakeId, org, role, now, ttl, cap) => Sessions.Create(db, id, wakeId, org, role, now, ttl, cap).Commit?
    case RevokeSession(sid) => Sessions.Revoke(db, sid).Commit?
    case FinishSession(sid) => Sessions.Finish(db, sid).Commit?
    case ForceTerminateSession(sid, expired) => Sessions.ForceTerminate(db, sid, expired).Commit?
    case _ => true
  }

  predicate BudgetCommits(db: Database, c: BudgetCommand) {
    match c
    case ReserveBudget(id, sid, now, epoch, requested, asks) => Budgets.Reserve(db, id, sid, now, epoch, requested, asks).Commit?
    case SettleBudget(id, actual) => Budgets.Settle(db, id, actual).Commit?
    case MarkBudgetUncertain(id) => Budgets.MarkUncertain(db, id).Commit?
    case ReleaseBudget(id) => Budgets.Release(db, id).Commit?
  }

  predicate WakeCommits(db: Database, c: WakeCommand) {
    match c
    case PrepareWake(wakeId, sid, delivery, reservation, socket, reason) =>
      Wakes.Prepare(db, wakeId, sid, delivery, reservation, socket, reason).Commit?
    case MarkWakeRunning(wakeId) => Wakes.MarkRunning(db, wakeId).Commit?
    case FinishWake(wakeId, state) => Wakes.Finish(db, wakeId, state).Commit?
    case QuarantineWake(_) => true
    case RecordProcess(key, sid, pid, pgid, birth) => Wakes.Record(db, key, sid, pid, pgid, birth).Commit?
    case FinishProcess(key, state) => Wakes.EndProcess(db, key, state).Commit?
  }

  predicate WorkerCall(c: Command, sid: Id) {
    match c
    case OfSession(ReserveWorker(_, parent, _, _, _, _)) => parent == sid
    case OfSession(SetWorker(_, _)) => true
    case OfWake(RecordProcess(_, parent, _, _, _)) => parent == sid
    case OfWake(FinishProcess(_, _)) => true
    case OfJournal(_) => true
    case _ => false
  }

  predicate PauseCall(c: Command, sid: Id) {
    match c
    case OfWake(FinishProcess(_, _)) => true
    case OfWake(QuarantineWake(parent)) => parent == sid
    case OfDelivery(ForceDeliveryUncertain(_)) => true
    case OfSession(ForceTerminateSession(parent, expired)) => parent == sid && !expired
    case _ => false
  }

  /** What `recover` calls, in either loop. */
  predicate RepairCall(c: Command) {
    match c
    case OfRecovery(RecoverOrphanSession(_, delivery, eligible)) => delivery.None? && eligible.None?
    case OfRecovery(RecoverPreparedWake(_, _)) => true
    case OfWake(FinishProcess(_, _)) => true
    case OfWake(QuarantineWake(_)) => true
    case OfDelivery(ForceDeliveryUncertain(_)) => true
    case OfSession(ForceTerminateSession(_, expired)) => !expired
    case _ => false
  }

  ghost predicate Enabled(s: System, e: Event, policy: Policies.Policy, ceiling: int) {
    match e
    case Begins(t) =>
      && t.at.Opening? && t.sid !in s.threads && t.role in policy.roles
      && (t.delivery.Some? ==> t.delivery.value in s.db.deliveries && s.db.deliveries[t.delivery.value].role == t.role)
    case Acts(sid, c, next) =>
      sid in s.threads && Calls(s.db, s.threads[sid], c, policy) && Commits(s.db, c) && Succeeds(s.threads[sid].at, next)
    case Breaks(sid, next) =>
      && sid in s.threads
      && (|| Fails(s.threads[sid].at, next)
          || (s.threads[sid].at.Launching? && next.Recording?)
          || (OfDeliveryOnly(s.threads[sid].at) && s.threads[sid].delivery.None? && Succeeds(s.threads[sid].at, next)))
    case Works(sid, c) =>
      // a request only arrives after the prompt, which is sent after the process is recorded
      ProcessesOf(s.db.processes, sid) != {} && WorkerCall(c, sid)
    case Pauses(sid, c) => WakesOf(s.db.wakes, sid) != {} && PauseCall(c, sid)
    case Ticks(c) => (c.OfDelivery? || c.OfFeed? || c.OfJournal?) && Bounded(c, ceiling)
    case Crashes => true
    case Repairs(c) => RepairCall(c) && AllOver(s.threads)
  }

  /** No thread of this boot runs: recovery comes before any tick. */
  predicate AllOver(threads: map<Id, Thread>) {
    forall sid :: sid in threads ==> threads[sid].at.Over?
  }

  function Ended(threads: map<Id, Thread>): map<Id, Thread> {
    map sid | sid in threads :: threads[sid].(at := Over)
  }

  function CommandOf(e: Event): Option<Command> {
    match e
    case Begins(_) => None
    case Breaks(_, _) => None
    case Acts(_, c, _) => Some(c)
    case Works(_, c) => Some(c)
    case Pauses(_, c) => Some(c)
    case Ticks(c) => Some(c)
    case Crashes => None
    case Repairs(c) => Some(c)
  }

  ghost function Effect(s: System, e: Event): System {
    System(
      if CommandOf(e).Some? then Step(s.db, CommandOf(e).value) else s.db,
      match e
      case Begins(t) => s.threads[t.sid := t]
      case Acts(sid, _, next) => if sid in s.threads then s.threads[sid := s.threads[sid].(at := next)] else s.threads
      case Breaks(sid, next) => if sid in s.threads then s.threads[sid := s.threads[sid].(at := next)] else s.threads
      case Crashes => Ended(s.threads)
      case _ => s.threads,
      if CommandOf(e).Some? then Charge(s.db, s.actuals, CommandOf(e).value) else s.actuals)
  }

  // ---------- what a thread's point says about its rows ----------

  predicate Unborn(at: Point) {
    at.Opening? || at.Abandoned?
  }

  predicate Unwaked(at: Point) {
    at.Funding? || at.Refused? || at.Preparing?
  }

  predicate Waked(at: Point) {
    || at.Launching? || at.Recording? || at.Marking? || at.Starting? || at.Reaping? || at.Waiting? || at.Settling? || at.Closing?
    || at.Delivering? || at.Finishing? || at.Stopping? || at.Keeping? || at.Quarantining? || at.Ending? || at.Shutting?
  }

  ghost predicate Fits(db: Database, t: Thread) {
    && (t.delivery.Some? ==> t.delivery.value in db.deliveries && db.deliveries[t.delivery.value].role == t.role)
    && (t.sid in db.sessions ==> db.sessions[t.sid].role == t.role)
    && (Unborn(t.at) ==> t.sid !in db.sessions)
    && (Unwaked(t.at) ==> IsActive(db, t.sid) && WakesOf(db.wakes, t.sid) == {})
    && (t.at.Preparing? || Waked(t.at) ==> t.reservation in db.reservations && db.reservations[t.reservation].session == t.sid)
    && (Waked(t.at) ==> t.wakeId in db.wakes && db.wakes[t.wakeId].session == t.sid)
    && (t.at.Holding? ==> WakesOf(db.wakes, t.sid) == {})
    && (t.at.Undoing? && WakesOf(db.wakes, t.sid) != {} ==> t.wakeId in db.wakes && db.wakes[t.wakeId].session == t.sid)
    && (t.at.Launching? || t.at.Recording? ==> Unreleased(db, t.sid))
    && (t.at.Delivering? || t.at.Finishing? ==> Unwoken(db, t.sid))
  }

  ghost predicate Threads(s: System, policy: Policies.Policy) {
    && (forall sid :: sid in s.threads ==>
          s.threads[sid].sid == sid && s.threads[sid].role in policy.roles && Fits(s.db, s.threads[sid]))
    && (forall sid :: sid in s.db.sessions ==> sid in s.threads)
  }

  // ---------- commands leave other threads' rows alone ----------

  ghost predicate Leaves(db: Database, after: Database, s: Id) {
    && (s in db.sessions <==> s in after.sessions)
    && (s in db.sessions ==> after.sessions[s].role == db.sessions[s].role)
    && (WakesOf(db.wakes, s) == {} ==> WakesOf(after.wakes, s) == {} && (IsActive(db, s) ==> IsActive(after, s)))
    && (forall w :: w in db.wakes ==>
          w in after.wakes && after.wakes[w].session == db.wakes[w].session && (LiveWake(after.wakes[w]) ==> LiveWake(db.wakes[w])))
    && (forall w :: w in after.wakes && after.wakes[w].session == s ==> w in db.wakes)
    && (forall r :: r in db.reservations ==>
          && r in after.reservations && after.reservations[r].session == db.reservations[r].session
          && (db.reservations[r].session == s && after.reservations[r].state.Released? ==> db.reservations[r].state.Released?))
    && (forall r :: r in after.reservations && r !in db.reservations ==> after.reservations[r].state.Active?)
    && SameRoles(db.deliveries, after.deliveries)
  }

  lemma LeavesKeepFits(db: Database, after: Database, t: Thread)
    requires Fits(db, t) && Leaves(db, after, t.sid)
    ensures Fits(after, t)
  {
  }

  ghost predicate Foreign(db: Database, c: Command, s: Id) {
    match c
    case OfSession(CreateSession(id, _, _, _, _, _, _)) => id != s
    case OfSession(RevokeSession(sid)) => sid != s
    case OfSession(FinishSession(sid)) => sid != s
    case OfSession(ForceTerminateSession(sid, _)) => sid != s || WakesOf(db.wakes, s) != {}
    case OfSession(ReapExpiredSession(sid, _)) => sid != s
    case OfBudget(ReleaseBudget(id)) => id in db.reservations ==> db.reservations[id].session != s
    case OfWake(PrepareWake(_, sid, _, _, _, _)) => sid != s
    case OfRecovery(RecoverOrphanSession(sid, _, _)) => sid != s
    case OfRecovery(RecoverPreparedWake(w, _)) => w in db.wakes ==> db.wakes[w].session != s
    case _ => true
  }

  lemma ShuttingLeaves(db: Database, after: Database, sid: Id, s: Id)
    requires Shuts(db, after, sid) && s != sid
    ensures Leaves(db, after, s)
  {
  }

  lemma TerminationLeaves(db: Database, s: Id, expired: bool)
    requires Sessions.ForceTerminate(db, s, expired).Commit? && WakesOf(db.wakes, s) != {}
    ensures Leaves(db, Sessions.ForceTerminate(db, s, expired).db, s)
  {
  }

  lemma SessionLeaves(db: Database, c: SessionCommand, s: Id)
    requires Ready(db) && Disciplined(db, OfSession(c)) && Foreign(db, OfSession(c), s)
    ensures Leaves(db, SessionStep(db, c), s)
  {
    if SessionStep(db, c) != db {
      match c
      case CreateSession(id, wakeId, org, role, now, ttl, cap) => CreateLeaves(db, id, wakeId, org, role, now, ttl, cap, s);
      case RevokeSession(sid) => RevokeShuts(db, sid); ShuttingLeaves(db, SessionStep(db, c), sid, s);
      case FinishSession(sid) => FinishShuts(db, sid); ShuttingLeaves(db, SessionStep(db, c), sid, s);
      case ReapExpiredSession(sid, now) => ReapShuts(db, sid, now); ShuttingLeaves(db, SessionStep(db, c), sid, s);
      case ForceTerminateSession(sid, expired) =>
        if sid == s {
          TerminationLeaves(db, s, expired);
        } else {
          TerminateShuts(db, sid, expired);
          ShuttingLeaves(db, SessionStep(db, c), sid, s);
        }
      case ReserveWorker(id, sid, now, cumulative, concurrent, cap) => HireLeaves(db, id, sid, now, cumulative, concurrent, cap, s);
      case SetWorker(id, state) => SameLeaves(db, SessionStep(db, c), s);
    }
  }

  lemma CreateLeaves(db: Database, id: Id, wakeId: Id, org: Name, role: Name, now: Time, ttl: int, cap: int, s: Id)
    requires s != id
    ensures Leaves(db, After(db, Sessions.Create(db, id, wakeId, org, role, now, ttl, cap)), s)
  {
  }

  lemma HireLeaves(db: Database, id: Id, sid: Id, now: Time, cumulative: int, concurrent: int, cap: int, s: Id)
    ensures Leaves(db, After(db, Sessions.ReserveWorker(db, id, sid, now, cumulative, concurrent, cap)), s)
  {
  }

  lemma SameLeaves(db: Database, after: Database, s: Id)
    requires after.sessions == db.sessions && after.wakes == db.wakes && after.reservations == db.reservations
    requires SameRoles(db.deliveries, after.deliveries)
    ensures Leaves(db, after, s)
  {
  }

  lemma ReserveLeaves(db: Database, id: Id, sid: Id, now: Time, epoch: Name, requested: int, asks: seq<Budgets.Ask>, s: Id)
    ensures Leaves(db, After(db, Budgets.Reserve(db, id, sid, now, epoch, requested, asks)), s)
  {
  }

  lemma MovedReservationLeaves(db: Database, after: Database, id: Id, s: Id)
    requires OnlyBudgets(db, after) && id in db.reservations && id in after.reservations
    requires after.reservations == db.reservations[id := db.reservations[id].(state := after.reservations[id].state)]
    requires after.reservations[id].state.Released? ==> db.reservations[id].session != s
    ensures Leaves(db, after, s)
  {
  }

  lemma BudgetLeaves(db: Database, c: BudgetCommand, s: Id)
    requires Foreign(db, OfBudget(c), s)
    ensures Leaves(db, BudgetStep(db, c), s)
  {
    BudgetFrame(db, c);
    if BudgetStep(db, c) == db {
      SameLeaves(db, db, s);
    } else {
      match c
      case ReserveBudget(id, sid, now, epoch, requested, asks) => ReserveLeaves(db, id, sid, now, epoch, requested, asks, s);
      case SettleBudget(id, actual) => MovedReservationLeaves(db, BudgetStep(db, c), id, s);
      case MarkBudgetUncertain(id) => MovedReservationLeaves(db, BudgetStep(db, c), id, s);
      case ReleaseBudget(id) => MovedReservationLeaves(db, BudgetStep(db, c), id, s);
    }
  }

  lemma MarkLeaves(db: Database, wakeId: Id, s: Id)
    ensures Leaves(db, After(db, Wakes.MarkRunning(db, wakeId)), s)
  {
  }

  lemma FinishLeaves(db: Database, wakeId: Id, state: WakeState, s: Id)
    ensures Leaves(db, After(db, Wakes.Finish(db, wakeId, state)), s)
  {
  }

  lemma QuarantineLeaves(db: Database, sid: Id, s: Id)
    ensures Leaves(db, Sessions.EndWakes(db, sid, WakeState.Uncertain), s)
  {
  }

  lemma ProcessLeaves(db: Database, after: Database, s: Id)
    requires after == db.(processes := after.processes)
    ensures Leaves(db, after, s)
  {
  }

  lemma WakeLeaves(db: Database, c: WakeCommand, s: Id)
    requires Foreign(db, OfWake(c), s)
    ensures Leaves(db, WakeStep(db, c), s)
  {
    match c
    case PrepareWake(wakeId, sid, delivery, reservation, socket, reason) =>
      PrepareLeaves(db, wakeId, sid, delivery, reservation, socket, reason, s);
    case MarkWakeRunning(wakeId) => MarkLeaves(db, wakeId, s);
    case FinishWake(wakeId, state) => FinishLeaves(db, wakeId, state, s);
    case QuarantineWake(sid) => QuarantineLeaves(db, sid, s);
    case RecordProcess(key, sid, pid, pgid, birth) => ProcessLeaves(db, WakeStep(db, c), s);
    case FinishProcess(key, state) => ProcessLeaves(db, WakeStep(db, c), s);
  }

  lemma PrepareLeaves(db: Database, wakeId: Id, sid: Id, delivery: Option<Id>, reservation: Id, socket: string, reason: string, s: Id)
    requires s != sid
    ensures Leaves(db, After(db, Wakes.Prepare(db, wakeId, sid, delivery, reservation, socket, reason)), s)
  {
  }

  lemma RecoveryLeaves(db: Database, c: RecoveryCommand, s: Id)
    requires Ready(db) && Foreign(db, OfRecovery(c), s)
    ensures Leaves(db, RecoveryStep(db, c), s)
  {
    if RecoveryStep(db, c) != db {
      match c
      case RecoverOrphanSession(sid, delivery, eligible) =>
        OrphanShuts(db, sid, delivery, eligible);
        ShuttingLeaves(db, RecoveryStep(db, c), sid, s);
      case RecoverPreparedWake(w, at) =>
        PreparedShuts(db, w, at);
        ShuttingLeaves(db, RecoveryStep(db, c), db.wakes[w].session, s);
    }
  }

  /** A command that is not about session `s` leaves every row a thread of `s` relies on. */
  lemma {:induction false} ForeignLeaves(db: Database, c: Command, s: Id, ceiling: int)
    requires Ready(db) && Disciplined(db, c) && Foreign(db, c, s) && Boards.Board(db, ceiling) && 0 <= ceiling && Bounded(c, ceiling)
    ensures Leaves(db, Step(db, c), s)
  {
    match c
    case OfSession(x) => SessionLeaves(db, x, s);
    case OfBudget(x) => BudgetLeaves(db, x, s);
    case OfWake(x) => WakeLeaves(db, x, s);
    case OfRecovery(x) => RecoveryLeaves(db, x, s);
    case OfDelivery(x) => DeliveryFrame(db, x); DeliveryProgresses(db, x, ceiling); SameLeaves(db, Step(db, c), s);
    case OfFeed(x) => FeedFrame(db, x); SameLeaves(db, Step(db, c), s);
    case OfJournal(x) => JournalFrame(db, x); SameLeaves(db, Step(db, c), s);
  }

  // ---------- every call is disciplined, and about its own session ----------

  lemma CallsAreDisciplined(db: Database, t: Thread, c: Command, policy: Policies.Policy)
    requires Ready(db) && Fits(db, t) && Calls(db, t, c, policy) && t.role in policy.roles
    ensures Disciplined(db, c) && RunCapacity.Obeys(db, c, policy)
  {
  }

  lemma CallsAreOwn(db: Database, t: Thread, c: Command, policy: Policies.Policy, s: Id)
    requires Ready(db) && Fits(db, t) && Calls(db, t, c, policy) && s != t.sid
    ensures Foreign(db, c, s)
  {
  }

  // ---------- a thread's own call ----------

  lemma CreateFits(db: Database, t: Thread, c: SessionCommand)
    requires Ready(db) && Fits(db, t) && t.at.Opening? && c.CreateSession? && c.id == t.sid && c.role == t.role && SessionCommits(db, c)
    ensures Fits(SessionStep(db, c), t.(at := Funding))
  {
  }

  lemma ReserveFits(db: Database, t: Thread, c: BudgetCommand)
    requires Ready(db) && Fits(db, t) && t.at.Funding? && c.ReserveBudget?
    requires c.id == t.reservation && c.sid == t.sid && BudgetCommits(db, c)
    ensures Fits(BudgetStep(db, c), t.(at := Preparing))
  {
  }

  lemma PrepareFits(db: Database, t: Thread, c: WakeCommand)
    requires Ready(db) && Fits(db, t) && t.at.Preparing? && c.PrepareWake? && c.wakeId == t.wakeId && c.sid == t.sid && WakeCommits(db, c)
    ensures Fits(WakeStep(db, c), t.(at := Launching))
  {
  }

  lemma RevokeFits(db: Database, t: Thread, next: Point)
    requires Fits(db, t) && t.at.Refused? && Sessions.Revoke(db, t.sid).Commit? && (next.Holding? || next.Undoing?)
    ensures Fits(Sessions.Revoke(db, t.sid).db, t.(at := next))
  {
  }

  /** Past its last store call a thread relies on roles alone. */
  lemma OverFits(db: Database, after: Database, t: Thread)
    requires Fits(db, t) && t.sid in db.sessions ==> t.sid in after.sessions && after.sessions[t.sid].role == db.sessions[t.sid].role
    requires Fits(db, t) && t.sid !in db.sessions ==> t.sid !in after.sessions
    requires Fits(db, t) && SameRoles(db.deliveries, after.deliveries)
    ensures Fits(after, t.(at := Over))
  {
  }

  lemma FinishFits(db: Database, t: Thread)
    requires Fits(db, t) && Sessions.Finish(db, t.sid).Commit?
    ensures Fits(Sessions.Finish(db, t.sid).db, t.(at := Over))
  {
  }

  lemma UndoneFits(db: Database, t: Thread, c: RecoveryCommand)
    requires Ready(db) && Fits(db, t)
    ensures Fits(RecoveryStep(db, c), t.(at := Over))
  {
    if RecoveryStep(db, c) == db {
      OverFits(db, db, t);
    } else {
      match c
      case RecoverOrphanSession(sid, delivery, eligible) =>
        OrphanShuts(db, sid, delivery, eligible);
        OverFits(db, RecoveryStep(db, c), t);
      case RecoverPreparedWake(w, at) =>
        PreparedShuts(db, w, at);
        OverFits(db, RecoveryStep(db, c), t);
    }
  }

  /** A wake just finished is over, and its session has no other. */
  lemma ClosedUnwoken(db: Database, t: Thread, state: WakeState)
    requires Ready(db) && Fits(db, t) && t.at.Closing? && Wakes.Finish(db, t.wakeId, state).Commit?
    ensures Unwoken(Wakes.Finish(db, t.wakeId, state).db, t.sid)
  {
  }

  /** The points whose own call concerns the thread's session as a whole. */
  predicate Turns(at: Point) {
    at.Opening? || at.Funding? || at.Refused? || at.Preparing? || at.Finishing? || at.Undoing?
  }

  lemma OthersAreForeign(db: Database, t: Thread, c: Command, policy: Policies.Policy)
    requires Fits(db, t) && Calls(db, t, c, policy) && !Turns(t.at)
    ensures Foreign(db, c, t.sid)
  {
    if Waked(t.at) {
      assert t.wakeId in WakesOf(db.wakes, t.sid);
    }
  }

  /** What the next point assumes, the present one does too. */
  predicate Weakens(at: Point, next: Point) {
    && (Unborn(next) ==> Unborn(at)) && (Unwaked(next) ==> Unwaked(at)) && (next.Preparing? ==> at.Preparing?)
    && (Waked(next) ==> Waked(at)) && (next.Holding? ==> at.Holding?)
    && (next.Undoing? ==> Waked(at) || Unwaked(at) || at.Holding?)
    && (next.Launching? || next.Recording? ==> at.Launching? || at.Recording?)
    && (next.Delivering? || next.Finishing? ==> at.Delivering? || at.Finishing?)
  }

  lemma WeakerFits(db: Database, t: Thread, next: Point)
    requires Fits(db, t) && Weakens(t.at, next)
    ensures Fits(db, t.(at := next))
  {
  }

  lemma SuccessWeakens(at: Point, next: Point)
    requires !Turns(at) && Succeeds(at, next)
    ensures at.Closing? || Weakens(at, next)
  {
  }

  lemma FailureWeakens(at: Point, next: Point)
    requires Fails(at, next) || (at.Launching? && next.Recording?) || (OfDeliveryOnly(at) && Succeeds(at, next))
    ensures Weakens(at, next)
  {
  }

  lemma DeliveringFits(db: Database, t: Thread)
    requires Fits(db, t) && t.at.Closing? && Unwoken(db, t.sid)
    ensures Fits(db, t.(at := Delivering))
  {
  }

  lemma TurnsFit(db: Database, t: Thread, c: Command, next: Point, policy: Policies.Policy)
    requires Ready(db) && Fits(db, t) && Calls(db, t, c, policy) && Commits(db, c) && Succeeds(t.at, next) && Turns(t.at)
    ensures Fits(Step(db, c), t.(at := next))
  {
    match t.at
    case Opening => CreateFits(db, t, c.session);
    case Funding => ReserveFits(db, t, c.budget);
    case Refused => RevokeFits(db, t, next);
    case Preparing => PrepareFits(db, t, c.wake);
    case Finishing => FinishFits(db, t);
    case Undoing => UndoneFits(db, t, c.recovery);
  }

  lemma PlainCallFits(db: Database, t: Thread, c: Command, policy: Policies.Policy, ceiling: int)
    requires Ready(db) && Fits(db, t) && t.role in policy.roles && Calls(db, t, c, policy) && !Turns(t.at)
    requires Boards.Board(db, ceiling) && 0 <= ceiling
    ensures Fits(Step(db, c), t)
  {
    CallsAreDisciplined(db, t, c, policy);
    OthersAreForeign(db, t, c, policy);
    ForeignLeaves(db, c, t.sid, ceiling);
    LeavesKeepFits(db, Step(db, c), t);
  }

  lemma CloseFits(db: Database, t: Thread, c: Command, policy: Policies.Policy)
    requires Ready(db) && Fits(db, t) && t.at.Closing? && Calls(db, t, c, policy) && Commits(db, c) && Fits(Step(db, c), t)
    ensures Fits(Step(db, c), t.(at := Delivering))
  {
    ClosedUnwoken(db, t, c.wake.wake);
    DeliveringFits(Step(db, c), t);
  }

  lemma {:induction false} OwnCallFits(db: Database, t: Thread, c: Command, next: Point, policy: Policies.Policy, ceiling: int)
    requires Ready(db) && Fits(db, t) && t.role in policy.roles && Calls(db, t, c, policy) && Commits(db, c) && Succeeds(t.at, next)
    requires Boards.Board(db, ceiling) && 0 <= ceiling
    ensures Fits(Step(db, c), t.(at := next))
  {
    if Turns(t.at) {
      TurnsFit(db, t, c, next, policy);
    } else {
      PlainCallFits(db, t, c, policy, ceiling);
      if t.at.Closing? {
        CloseFits(db, t, c, policy);
      } else {
        SuccessWeakens(t.at, next);
        WeakerFits(Step(db, c), t, next);
      }
    }
  }

  // ---------- the system invariant ----------

  ghost predicate Safe(s: System, policy: Policies.Policy, ceiling: int) {
    && Ready(s.db) && Capacities.Parents(s.db.sessions, policy) && Boards.Board(s.db, ceiling)
    && RunLedger.Sound(s.db, s.actuals) && Recovery.OneReservation(s.db) && Threads(s, policy)
  }

  lemma BudgetKeepsOne(db: Database, c: BudgetCommand)
    requires Recovery.OneReservation(db)
    ensures Recovery.OneReservation(BudgetStep(db, c))
  {
  }

  lemma RecoveryKeepsOne(db: Database, c: RecoveryCommand)
    requires Recovery.OneReservation(db) && Ready(db)
    ensures Recovery.OneReservation(RecoveryStep(db, c))
  {
    if RecoveryStep(db, c) != db {
      match c
      case RecoverOrphanSession(sid, delivery, eligible) =>
        OrphanShuts(db, sid, delivery, eligible);
        ShutsKeepOne(db, RecoveryStep(db, c), sid);
      case RecoverPreparedWake(w, at) => PreparedShuts(db, w, at); ShutsKeepOne(db, RecoveryStep(db, c), db.wakes[w].session);
    }
  }

  lemma ShutsKeepOne(db: Database, after: Database, sid: Id)
    requires Recovery.OneReservation(db) && Shuts(db, after, sid)
    ensures Recovery.OneReservation(after)
  {
  }

  lemma HoldsKeepOne(db: Database, after: Database)
    requires Recovery.OneReservation(db) && OnlyHolds(db, after)
    ensures Recovery.OneReservation(after)
  {
  }

  lemma StepKeepsOne(db: Database, c: Command)
    requires Recovery.OneReservation(db) && Ready(db)
    ensures Recovery.OneReservation(Step(db, c))
  {
    match c
    case OfSession(x) => RunLedger.SessionStepOnlyHolds(db, x); HoldsKeepOne(db, Step(db, c));
    case OfBudget(x) => BudgetKeepsOne(db, x);
    case OfRecovery(x) => RecoveryKeepsOne(db, x);
    case OfDelivery(x) => DeliveryFrame(db, x);
    case OfWake(x) => WakeFrame(db, x);
    case OfFeed(x) => FeedFrame(db, x);
    case OfJournal(x) => JournalFrame(db, x);
  }

  /** Whatever the event, its command is one the supervisor's discipline and policy allow. */
  lemma EventsAreDisciplined(s: System, e: Event, policy: Policies.Policy, ceiling: int)
    requires Safe(s, policy, ceiling) && Enabled(s, e, policy, ceiling) && CommandOf(e).Some?
    ensures var c := CommandOf(e).value; Disciplined(s.db, c) && RunCapacity.Employs(c, policy) && Bounded(c, ceiling)
  {
    match e
    case Acts(sid, c, _) => CallsAreDisciplined(s.db, s.threads[sid], c, policy);
    case Works(sid, c) => WorkIsDisciplined(s.db, sid, c);
    case Pauses(_, _) =>
    case Ticks(_) =>
    case Repairs(_) =>
  }

  lemma WorkIsDisciplined(db: Database, sid: Id, c: Command)
    requires Ready(db) && ProcessesOf(db.processes, sid) != {} && WorkerCall(c, sid)
    ensures Disciplined(db, c)
  {
  }

  /** An event is about at most one session's thread: all others keep their footing. */
  lemma EventsAreForeign(s: System, e: Event, policy: Policies.Policy, ceiling: int, other: Id)
    requires Safe(s, policy, ceiling) && Enabled(s, e, policy, ceiling) && CommandOf(e).Some?
    requires !e.Repairs? && (e.Acts? ==> other != e.sid)
    ensures Foreign(s.db, CommandOf(e).value, other)
  {
    if e.Acts? {
      CallsAreOwn(s.db, s.threads[e.sid], e.c, policy, other);
    }
  }

  lemma DatabaseStaysSafe(s: System, e: Event, policy: Policies.Policy, ceiling: int)
    requires Safe(s, policy, ceiling) && Policies.Sound(policy) && 0 <= ceiling && Enabled(s, e, policy, ceiling) && CommandOf(e).Some?
    ensures var c := CommandOf(e).value; var after := Step(s.db, c);
      && Ready(after) && Capacities.Parents(after.sessions, policy) && Boards.Board(after, ceiling)
      && RunLedger.Sound(after, Charge(s.db, s.actuals, c)) && Recovery.OneReservation(after)
  {
    var c := CommandOf(e).value;
    EventsAreDisciplined(s, e, policy, ceiling);
    StepKeepsReady(s.db, c, ceiling);
    RunCapacity.StepKeepsParents(s.db, policy, c);
    StepProgresses(s.db, c, ceiling);
    RunLedger.StepKeepsSound(s.db, s.actuals, c);
    StepKeepsOne(s.db, c);
  }

  lemma ThreadStaysFit(s: System, e: Event, policy: Policies.Policy, ceiling: int, sid: Id)
    requires Safe(s, policy, ceiling) && 0 <= ceiling && Enabled(s, e, policy, ceiling) && sid in Effect(s, e).threads
    ensures var t := Effect(s, e).threads[sid]; t.sid == sid && t.role in policy.roles && Fits(Effect(s, e).db, t)
  {
    if e.Begins? {
      BeginningFits(s, e.t, policy, sid);
    } else if e.Acts? && e.sid == sid {
      OwnCallFits(s.db, s.threads[sid], e.c, e.next, policy, ceiling);
    } else if e.Breaks? {
      if e.sid == sid {
        FailureWeakens(s.threads[sid].at, e.next);
        WeakerFits(s.db, s.threads[sid], e.next);
      }
    } else if e.Crashes? {
      OverFits(s.db, s.db, s.threads[sid]);
    } else if e.Repairs? {
      RepairsKeepOwners(s.db, e.c);
      OverFits(s.db, Step(s.db, e.c), s.threads[sid]);
    } else {
      OtherEventFits(s, e, policy, ceiling, sid);
    }
  }

  /** No session was opened and nobody's role changed. */
  ghost predicate KeepsOwners(db: Database, after: Database) {
    && after.sessions.Keys == db.sessions.Keys
    && (forall s :: s in db.sessions ==> after.sessions[s].role == db.sessions[s].role)
    && SameRoles(db.deliveries, after.deliveries)
  }

  lemma ShuttingKeepsOwners(db: Database, after: Database, sid: Id)
    requires Shuts(db, after, sid)
    ensures KeepsOwners(db, after)
  {
  }

  lemma RecoveryKeepsOwners(db: Database, c: RecoveryCommand)
    requires Ready(db)
    ensures KeepsOwners(db, RecoveryStep(db, c))
  {
    if RecoveryStep(db, c) != db {
      match c
      case RecoverOrphanSession(sid, delivery, eligible) =>
        OrphanShuts(db, sid, delivery, eligible);
        ShuttingKeepsOwners(db, RecoveryStep(db, c), sid);
      case RecoverPreparedWake(w, at) =>
        PreparedShuts(db, w, at);
        ShuttingKeepsOwners(db, RecoveryStep(db, c), db.wakes[w].session);
    }
  }

  lemma QuarantineKeepsOwners(db: Database, did: Id)
    ensures KeepsOwners(db, After(db, Deliveries.ForceUncertain(db, did)))
  {
  }

  lemma TerminationKeepsOwners(db: Database, sid: Id, expired: bool)
    ensures KeepsOwners(db, After(db, Sessions.ForceTerminate(db, sid, expired)))
  {
    if Sessions.ForceTerminate(db, sid, expired).Commit? {
      TerminateShuts(db, sid, expired);
      ShuttingKeepsOwners(db, Sessions.ForceTerminate(db, sid, expired).db, sid);
    }
  }

  /** Recovery opens no session and changes nobody's role. */
  lemma RepairsKeepOwners(db: Database, c: Command)
    requires Ready(db) && RepairCall(c)
    ensures KeepsOwners(db, Step(db, c))
  {
    match c
    case OfRecovery(r) => RecoveryKeepsOwners(db, r);
    case OfSession(ForceTerminateSession(sid, expired)) => TerminationKeepsOwners(db, sid, expired);
    case OfWake(w) => WakeFrame(db, w);
    case OfDelivery(ForceDeliveryUncertain(did)) => QuarantineKeepsOwners(db, did);
  }

  /** An event about another session, or by no thread, leaves the thread's footing. */
  lemma OtherEventFits(s: System, e: Event, policy: Policies.Policy, ceiling: int, sid: Id)
    requires Safe(s, policy, ceiling) && 0 <= ceiling && Enabled(s, e, policy, ceiling) && sid in s.threads
    requires CommandOf(e).Some? && !e.Repairs? && (e.Acts? ==> e.sid != sid)
    ensures Fits(Step(s.db, CommandOf(e).value), s.threads[sid])
  {
    EventsAreDisciplined(s, e, policy, ceiling);
    EventsAreForeign(s, e, policy, ceiling, sid);
    ForeignLeaves(s.db, CommandOf(e).value, sid, ceiling);
    LeavesKeepFits(s.db, Step(s.db, CommandOf(e).value), s.threads[sid]);
  }

  lemma BeginningFits(s: System, t: Thread, policy: Policies.Policy, sid: Id)
    requires Threads(s, policy) && t.at.Opening? && t.sid !in s.threads && t.role in policy.roles
    requires t.delivery.Some? ==> t.delivery.value in s.db.deliveries && s.db.deliveries[t.delivery.value].role == t.role
    requires sid in s.threads || sid == t.sid
    ensures var u := s.threads[t.sid := t][sid]; u.sid == sid && u.role in policy.roles && Fits(s.db, u)
  {
  }

  lemma SessionsStayOwned(s: System, e: Event, policy: Policies.Policy, ceiling: int, sid: Id)
    requires Safe(s, policy, ceiling) && 0 <= ceiling && Enabled(s, e, policy, ceiling) && sid in Effect(s, e).db.sessions
    ensures sid in Effect(s, e).threads
  {
    if e.Repairs? {
      RepairsKeepOwners(s.db, e.c);
    } else if sid !in s.threads && CommandOf(e).Some? {
      EventsAreDisciplined(s, e, policy, ceiling);
      EventsAreForeign(s, e, policy, ceiling, sid);
      ForeignLeaves(s.db, CommandOf(e).value, sid, ceiling);
    }
  }

  lemma ThreadsStay(s: System, e: Event, policy: Policies.Policy, ceiling: int)
    requires Safe(s, policy, ceiling) && 0 <= ceiling && Enabled(s, e, policy, ceiling)
    ensures Threads(Effect(s, e), policy)
  {
    forall sid | sid in Effect(s, e).threads
      ensures var t := Effect(s, e).threads[sid]; t.sid == sid && t.role in policy.roles && Fits(Effect(s, e).db, t)
    {
      ThreadStaysFit(s, e, policy, ceiling, sid);
    }
    forall sid | sid in Effect(s, e).db.sessions ensures sid in Effect(s, e).threads {
      SessionsStayOwned(s, e, policy, ceiling, sid);
    }
  }

  lemma {:induction false} EventsKeepSafe(s: System, e: Event, policy: Policies.Policy, ceiling: int)
    requires Safe(s, policy, ceiling) && Policies.Sound(policy) && 0 <= ceiling && Enabled(s, e, policy, ceiling)
    ensures Safe(Effect(s, e), policy, ceiling)
  {
    ThreadsStay(s, e, policy, ceiling);
    if CommandOf(e).Some? {
      DatabaseStaysSafe(s, e, policy, ceiling);
    }
  }

  // ---------- runs, crashes and recovery ----------

  const IDLE: System := System(EMPTY, map[], map[])

  ghost function Reached(events: seq<Event>): System {
    if events == [] then IDLE else Effect(Reached(events[..|events| - 1]), events[|events| - 1])
  }

  /** Every event was possible when it happened. */
  ghost predicate Possible(events: seq<Event>, policy: Policies.Policy, ceiling: int) {
    events == [] ||
    (&& Possible(events[..|events| - 1], policy, ceiling)
     && Enabled(Reached(events[..|events| - 1]), events[|events| - 1], policy, ceiling))
  }

  lemma IdleIsSafe(policy: Policies.Policy, ceiling: int)
    ensures Safe(IDLE, policy, ceiling)
  {
  }

  lemma {:induction false} RunsAreSafe(events: seq<Event>, policy: Policies.Policy, ceiling: int)
    requires Policies.Sound(policy) && 0 <= ceiling && Possible(events, policy, ceiling)
    ensures Safe(Reached(events), policy, ceiling)
  {
    if events == [] {
      IdleIsSafe(policy, ceiling);
    } else {
      RunsAreSafe(events[..|events| - 1], policy, ceiling);
      EventsKeepSafe(Reached(events[..|events| - 1]), events[|events| - 1], policy, ceiling);
    }
  }

  lemma ParentsAreAlone(db: Database, policy: Policies.Policy)
    requires Capacities.Parents(db.sessions, policy)
    ensures Recovery.OnePerRole(db.sessions)
  {
  }

  lemma Grow(events: seq<Event>, e: Event, policy: Policies.Policy, ceiling: int)
    requires Possible(events, policy, ceiling) && Enabled(Reached(events), e, policy, ceiling)
    ensures Possible(events + [e], policy, ceiling) && Reached(events + [e]) == Effect(Reached(events), e)
  {
    assert (events + [e])[..|events|] == events && (events + [e])[|events|] == e;
  }

  /** Every worker of the run was accepted under the policy's caps and marked running in time. */
  ghost predicate Punctual(events: seq<Event>, policy: Policies.Policy) {
    events == [] ||
    (var last, before := events[|events| - 1], events[..|events| - 1];
     Punctual(before, policy) && (last.Works? ==> RunCapacity.Obeys(Reached(before).db, last.c, policy)))
  }

  /** A run whose workers are punctual keeps every cap as well. */
  lemma {:induction false} PunctualRunsKeepCapacity(events: seq<Event>, policy: Policies.Policy, ceiling: int)
    requires Policies.Sound(policy) && 0 <= ceiling && Possible(events, policy, ceiling) && Punctual(events, policy)
    ensures Capacities.Capacity(Reached(events).db, policy)
  {
    if events != [] {
      var before, last := events[..|events| - 1], events[|events| - 1];
      PunctualRunsKeepCapacity(before, policy, ceiling);
      RunsAreSafe(before, policy, ceiling);
      if CommandOf(last).Some? {
        EventsObey(Reached(before), last, policy, ceiling);
        RunCapacity.StepKeepsCapacity(Reached(before).db, policy, CommandOf(last).value);
      }
    }
  }

  lemma EventsObey(s: System, e: Event, policy: Policies.Policy, ceiling: int)
    requires Safe(s, policy, ceiling) && Enabled(s, e, policy, ceiling) && CommandOf(e).Some?
    requires e.Works? ==> RunCapacity.Obeys(s.db, e.c, policy)
    ensures RunCapacity.Obeys(s.db, CommandOf(e).value, policy)
  {
    if e.Acts? {
      CallsAreDisciplined(s.db, s.threads[e.sid], e.c, policy);
    }
  }

  /** Crash anywhere: stop any run after any transaction, a run of wakes, workers, pauses and
      ticks over any number of boots, with every earlier recovery complete or itself cut
      short. Recovery at the restart raises if and only if some unstarted wake is blocked; when it
      does not, every wake is over, and with every process group proved dead the sessions
      still active are exactly those whose wake was already over. */
  lemma {:induction false} CrashIsRecoverable(events: seq<Event>, policy: Policies.Policy, ceiling: int, orphans: seq<Id>, ws: seq<Id>,
                                              proved: set<ProcessKey>, at: Time)
    requires Policies.Sound(policy) && 0 <= ceiling && Possible(events, policy, ceiling)
    requires Recovery.OrphanListing(Reached(events).db, orphans) && Recovery.WakeListing(Reached(events).db, ws)
    ensures Recovery.Concluded(Reached(events).db, Recovery.Restarted(Reached(events).db, orphans, ws, proved, at), |orphans| + |ws|,
                               proved, Reached(events).actuals)
  {
    RunsAreSafe(events, policy, ceiling);
    ParentsAreAlone(Reached(events).db, policy);
    Recovery.RecoveryExactly(Reached(events).db, orphans, ws, proved, at, Reached(events).actuals);
  }

  /** With every running process proved dead, a session stays active only if its wake was
      over before recovery began. */
  lemma ProvedDeadLeavesOnlyFinalWakes(start: Database, db: Database, proved: set<ProcessKey>, s: Id)
    requires Recovery.InOrder(start, db, proved)
    requires forall p :: p in start.processes && start.processes[p].state.Running? ==> p in proved
    ensures IsActive(db, s) <==> IsActive(start, s) && WakesOf(start.wakes, s) != {} && Unwoken(start, s)
  {
  }
}
