/** Whole runs of the store: any sequence of its transactions, by any callers in any order,
    from an empty database, with the history the tables do not keep. */
module Runs {
  import opened Outcomes
  import opened Tables
  import Sessions
  import Budgets
  import Deliveries
  import Wakes
  import Feeds
  import Journals

  datatype SessionCommand =
    | CreateSession(id: Id, wakeId: Id, org: Name, role: Name, now: Time, ttl: int, globalCap: int)
    | RevokeSession(sid: Id)
    | FinishSession(sid: Id)
    | ForceTerminateSession(sid: Id, expired: bool)
    | ReapExpiredSession(sid: Id, now: Time)
    | ReserveWorker(id: Id, sid: Id, now: Time, cumulativeCap: int, concurrentCap: int, globalCap: int)
    | SetWorker(id: Id, worker: WorkerState)

  datatype BudgetCommand =
    | ReserveBudget(id: Id, sid: Id, now: Time, epoch: Name, requested: int, asks: seq<Budgets.Ask>)
    | SettleBudget(id: Id, actual: int)
    | MarkBudgetUncertain(id: Id)
    | ReleaseBudget(id: Id)

  datatype DeliveryCommand =
    | FinishEventRouting(event: EventId, target: Option<Name>)
    | EnqueueDelivery(id: Id, role: Name, events: set<EventId>, key: DeliveryKey, eligibleAt: Time)
    | LeaseDelivery(owner: Name, now: Time, seconds: int, ceiling: int)
    | StartDelivery(id: Id, owner: Name, now: Time)
    | FinishDelivery(id: Id, owner: Name, outcome: Deliveries.Result, eligibleAt: Time)
    | ReleaseBudgetHold(id: Id, eligibleAt: Time)
    | ForceDeliveryUncertain(id: Id)

  datatype WakeCommand =
    | PrepareWake(wakeId: Id, sid: Id, delivery: Option<Id>, reservation: Id, socket: string, reason: string)
    | MarkWakeRunning(wakeId: Id)
    | FinishWake(wakeId: Id, wake: WakeState)
    | QuarantineWake(sid: Id)
    | RecordProcess(process: ProcessKey, sid: Id, pid: int, pgid: int, birth: string)
    | FinishProcess(process: ProcessKey, ended: ProcessState)

  datatype RecoveryCommand =
    | RecoverOrphanSession(sid: Id, delivery: Option<Id>, eligible: Option<Time>)
    | RecoverPreparedWake(wakeId: Id, eligibleAt: Time)

  datatype FeedCommand =
    | OpenCheckpoint(source: Name, initial: Time)
    | BeginSnapshot(id: Id, source: Name)
    | StageObservation(id: Id, seen: Observation)
    | FinishSnapshot(id: Id, complete: bool, watermark: Option<Time>)

  datatype JournalCommand =
    | ReserveRequest(sid: Id, key: Text, operation: Verb, arguments: Text)
    | MarkRequestApplying(key: Text)
    | AbandonReadRequest(key: Text)
    | FinishRequest(key: Text, request: RequestState, response: Response)
    | ReserveReconcile(id: Id, digest: OperationKey, source: SourceKey, kind: OperationKind, precondition: Precondition)
    | MarkReconcileApplying(id: Id)
    | FinishReconcile(id: Id, outcome: OperationState)

  datatype Command =
    | OfSession(session: SessionCommand)
    | OfBudget(budget: BudgetCommand)
    | OfDelivery(delivery: DeliveryCommand)
    | OfWake(wake: WakeCommand)
    | OfRecovery(recovery: RecoveryCommand)
    | OfFeed(feed: FeedCommand)
    | OfJournal(journal: JournalCommand)

  function SessionStep(db: Database, c: SessionCommand): Database {
    match c
    case CreateSession(id, wakeId, org, role, now, ttl, cap) => After(db, Sessions.Create(db, id, wakeId, org, role, now, ttl, cap))
    case RevokeSession(sid) => After(db, Sessions.Revoke(db, sid))
    case FinishSession(sid) => After(db, Sessions.Finish(db, sid))
    case ForceTerminateSession(sid, expired) => After(db, Sessions.ForceTerminate(db, sid, expired))
    case ReapExpiredSession(sid, now) => After(db, Sessions.Reap(db, sid, now))
    case ReserveWorker(id, sid, now, cumulative, concurrent, cap) =>
      After(db, Sessions.ReserveWorker(db, id, sid, now, cumulative, concurrent, cap))
    case SetWorker(id, state) => After(db, Sessions.SetWorker(db, id, state))
  }

  function BudgetStep(db: Database, c: BudgetCommand): Database {
    match c
    case ReserveBudget(id, sid, now, epoch, requested, asks) => After(db, Budgets.Reserve(db, id, sid, now, epoch, requested, asks))
    case SettleBudget(id, actual) => After(db, Budgets.Settle(db, id, actual))
    case MarkBudgetUncertain(id) => After(db, Budgets.MarkUncertain(db, id))
    case ReleaseBudget(id) => After(db, Budgets.Release(db, id))
  }

  ghost function DeliveryStep(db: Database, c: DeliveryCommand): Database {
    match c
    case FinishEventRouting(event, target) => After(db, Deliveries.FinishRouting(db, event, target))
    case EnqueueDelivery(id, role, events, key, eligibleAt) => After(db, Deliveries.Enqueue(db, id, role, events, key, eligibleAt))
    case LeaseDelivery(owner, now, seconds, ceiling) => After(db, Deliveries.Lease(db, owner, now, seconds, ceiling))
    case StartDelivery(id, owner, now) => After(db, Deliveries.Start(db, id, owner, now))
    case FinishDelivery(id, owner, outcome, eligibleAt) => After(db, Deliveries.Finish(db, id, owner, outcome, eligibleAt))
    case ReleaseBudgetHold(id, eligibleAt) => After(db, Deliveries.ReleaseHold(db, id, eligibleAt))
    case ForceDeliveryUncertain(id) => After(db, Deliveries.ForceUncertain(db, id))
  }

  function WakeStep(db: Database, c: WakeCommand): Database {
    match c
    case PrepareWake(wakeId, sid, delivery, reservation, socket, reason) =>
      After(db, Wakes.Prepare(db, wakeId, sid, delivery, reservation, socket, reason))
    case MarkWakeRunning(wakeId) => After(db, Wakes.MarkRunning(db, wakeId))
    case FinishWake(wakeId, state) => After(db, Wakes.Finish(db, wakeId, state))
    case QuarantineWake(sid) => Sessions.EndWakes(db, sid, WakeState.Uncertain)
    case RecordProcess(key, sid, pid, pgid, birth) => After(db, Wakes.Record(db, key, sid, pid, pgid, birth))
    case FinishProcess(key, state) => After(db, Wakes.EndProcess(db, key, state))
  }

  ghost function RecoveryStep(db: Database, c: RecoveryCommand): Database {
    match c
    case RecoverOrphanSession(sid, delivery, eligible) => After(db, Wakes.RecoverOrphan(db, sid, delivery, eligible))
    case RecoverPreparedWake(wakeId, eligibleAt) => After(db, Wakes.RecoverPrepared(db, wakeId, eligibleAt))
  }

  function FeedStep(db: Database, c: FeedCommand): Database {
    match c
    case OpenCheckpoint(source, initial) => Feeds.Opened(db, source, initial)
    case BeginSnapshot(id, source) => After(db, Feeds.Begin(db, id, source))
    case StageObservation(id, seen) => After(db, Feeds.Stage(db, id, seen))
    case FinishSnapshot(id, complete, watermark) => After(db, Feeds.Finish(db, id, complete, watermark))
  }

  ghost function JournalStep(db: Database, c: JournalCommand): Database {
    match c
    case ReserveRequest(sid, key, operation, arguments) => After(db, Journals.Reserve(db, sid, key, operation, arguments))
    case MarkRequestApplying(key) => After(db, Journals.MarkApplying(db, key))
    case AbandonReadRequest(key) => After(db, Journals.AbandonRead(db, key))
    case FinishRequest(key, state, response) => After(db, Journals.Finish(db, key, state, response))
    case ReserveReconcile(id, key, source, kind, precondition) =>
      After(db, Journals.ReserveOperation(db, id, key, source, kind, precondition))
    case MarkReconcileApplying(id) => After(db, Journals.MarkOperation(db, id))
    case FinishReconcile(id, state) => After(db, Journals.FinishOperation(db, id, state))
  }

  ghost function Step(db: Database, c: Command): Database {
    match c
    case OfSession(s) => SessionStep(db, s)
    case OfBudget(b) => BudgetStep(db, b)
    case OfDelivery(d) => DeliveryStep(db, d)
    case OfWake(w) => WakeStep(db, w)
    case OfRecovery(r) => RecoveryStep(db, r)
    case OfFeed(f) => FeedStep(db, f)
    case OfJournal(j) => JournalStep(db, j)
  }

  // ---------- which tables a command can touch ----------

  lemma DeliveryFrame(db: Database, c: DeliveryCommand)
    ensures OnlyRouting(db, DeliveryStep(db, c))
  {
  }

  lemma WakeFrame(db: Database, c: WakeCommand)
    ensures OnlyWakes(db, WakeStep(db, c))
  {
  }

  lemma FeedFrame(db: Database, c: FeedCommand)
    ensures OnlyFeeds(db, FeedStep(db, c))
  {
  }

  lemma JournalFrame(db: Database, c: JournalCommand)
    ensures OnlyJournals(db, JournalStep(db, c))
  {
  }

  lemma SessionFrame(db: Database, c: SessionCommand)
    ensures OnlyStaff(db, SessionStep(db, c))
  {
  }

  lemma BudgetFrame(db: Database, c: BudgetCommand)
    ensures OnlyBudgets(db, BudgetStep(db, c))
  {
  }

  /** The database, and what happened on the way: the tokens each settlement charged, and how
      often each delivery was leased, put back by a budget hold, and started. */
  datatype History = History(db: Database, actuals: Budgets.Actuals, leases: multiset<Id>, holds: multiset<Id>, starts: multiset<Id>)

  const START: History := History(EMPTY, map[], multiset{}, multiset{}, multiset{})

  function Charge(db: Database, actuals: Budgets.Actuals, c: Command): Budgets.Actuals {
    if c.OfBudget? && c.budget.SettleBudget? && Budgets.Settle(db, c.budget.id, c.budget.actual).Commit?
    then actuals[c.budget.id := c.budget.actual] else actuals
  }

  /** The delivery a lease call hands out. */
  ghost function LeasedBy(db: Database, c: Command): multiset<Id> {
    if !(c.OfDelivery? && c.delivery.LeaseDelivery?) then multiset{}
    else
      var tx := Deliveries.Lease(db, c.delivery.owner, c.delivery.now, c.delivery.seconds, c.delivery.ceiling);
      if tx.Commit? && tx.value.Some? then multiset{tx.value.value} else multiset{}
  }

  function HeldBy(db: Database, c: Command): multiset<Id> {
    if c.OfDelivery? && c.delivery.FinishDelivery? && c.delivery.outcome.Hold?
       && Deliveries.Finish(db, c.delivery.id, c.delivery.owner, c.delivery.outcome, c.delivery.eligibleAt).Commit?
    then multiset{c.delivery.id} else multiset{}
  }

  function StartedBy(db: Database, c: Command): multiset<Id> {
    if c.OfDelivery? && c.delivery.StartDelivery? && Deliveries.Start(db, c.delivery.id, c.delivery.owner, c.delivery.now).Commit?
    then multiset{c.delivery.id} else multiset{}
  }

  ghost function Next(h: History, c: Command): History {
    History(Step(h.db, c), Charge(h.db, h.actuals, c), h.leases + LeasedBy(h.db, c), h.holds + HeldBy(h.db, c),
            h.starts + StartedBy(h.db, c))
  }

  ghost function Run(h: History, commands: seq<Command>): History {
    if commands == [] then h else Next(Run(h, commands[..|commands| - 1]), commands[|commands| - 1])
  }
}
