/** The tables of the control plane's SQLite database, as finite maps from primary key to
    row. Only columns that some rule reads are kept; timestamps are ordered integers. */
module Tables {
  import opened Outcomes

  /** A random UUID read as its number; the order of canonical texts is the order of numbers. */
  type Id = nat
  type Time = int
  type Name = string

  /** A text the store only compares: idempotency keys, canonical arguments, results. */
  type Text = nat

  /** A name-based UUID (version 5) stands for the name it was derived from. */
  type EventId = string

  datatype SessionState = Active | Revoked | Finished | Expired
  datatype Session = Session(wakeId: Id, org: Name, role: Name, expiresAt: Time, state: SessionState)

  datatype WorkerState = Accepted | Running | Succeeded | Failed | Rejected
  datatype Worker = Worker(session: Id, sequence: nat, state: WorkerState)

  datatype Scope = OrgScope | RoleScope
  datatype BucketKey = BucketKey(scope: Scope, subject: Name, epoch: Name)
  datatype Bucket = Bucket(limit: int, consumed: int, reserved: int)

  datatype ReservationState = Active | Settled | Released | Uncertain
  datatype Reservation = Reservation(session: Id, epoch: Name, tokens: int, state: ReservationState)

  datatype Checkpoint = Checkpoint(watermark: Time, overlap: int, lastComplete: Option<Id>)
  datatype SnapshotState = Collecting | Complete | Incomplete
  datatype Snapshot = Snapshot(source: Name, state: SnapshotState)
  datatype StagedKey = StagedKey(snapshot: Id, event: EventId)
  datatype Observation = Observation(source: Name, external: string, version: string, occurred: Time)

  datatype Enrichment = Pending | Ignored | Routed
  datatype ObservedEvent = ObservedEvent(facts: Observation, enrichment: Enrichment)

  datatype DeliveryState =
    Queued | Leased | Running | RetryWait | BudgetHeld | Succeeded | DeadLetter | Uncertain
  /** SHA-256 of the role and the sorted event ids; `Other` is any other key text. */
  datatype DeliveryKey = RouteDigest(role: Name, events: set<EventId>) | Other(text: string)
  datatype Delivery = Delivery(
    key: DeliveryKey, role: Name, state: DeliveryState, attempt: int, eligibleAt: Time,
    owner: Option<Name>, leaseUntil: Option<Time>)

  datatype RouteState = Pending | Queued | Leased | Delivered | ManualReview | DeadLetter
  datatype RouteKey = RouteKey(event: EventId, role: Name)
  datatype Route = Route(state: RouteState, delivery: Option<Id>)
  datatype Membership = Membership(delivery: Id, event: EventId, role: Name)

  datatype WakeState = Prepared | Running | Succeeded | Failed | Uncertain | Terminated
  datatype Wake = Wake(session: Id, delivery: Option<Id>, reservation: Id, socket: string, state: WakeState)

  /** The text `parent:<session>` or `worker:<attempt>`. */
  datatype ProcessKey = ParentOf(session: Id) | WorkerOf(attempt: Id)
  datatype ProcessState = Running | Exited | Terminated | Uncertain
  datatype Process = Process(session: Id, pid: int, birth: string, state: ProcessState)

  /** An operation name: one of the ten in `READ_OPERATIONS`, or any other. */
  datatype Verb = Read(name: Text) | Write(name: Text)
  datatype RequestState = Reserved | Applying | VerifyPending | Succeeded | Failed
  /** A digest of the canonical arguments stands for the arguments themselves. */
  datatype Request = Request(
    session: Id, operation: Verb, arguments: Text, state: RequestState, response: Option<Response>)
  datatype Response =
    | OkResponse(result: Text)
    | Denied
    | Conflict
    | Retryable
    | Indeterminate

  /** A governance source key, `kind:subject`, told apart by kind. */
  datatype SourceKey = Blocker(name: Text) | Proposal(number: Id) | PullRequest(repository: Text, pull: Id)
  datatype Precondition = Precondition(queue: Id, issue: Option<Id>, content: Text)
  datatype OperationKind = Create | Move | Close
  /** SHA-256 over these fields. */
  datatype OperationKey = OperationKey(source: SourceKey, kind: OperationKind, version: Text, precondition: Precondition)
  datatype OperationState = Planned | Applying | VerifyPending | Succeeded | DeadLetter
  datatype Operation = Operation(
    key: OperationKey, source: SourceKey, kind: OperationKind, precondition: Precondition, state: OperationState)

  datatype Database = Database(
    sessions: map<Id, Session>,
    workers: map<Id, Worker>,
    buckets: map<BucketKey, Bucket>,
    reservations: map<Id, Reservation>,
    checkpoints: map<Name, Checkpoint>,
    snapshots: map<Id, Snapshot>,
    staged: map<StagedKey, Observation>,
    observed: map<EventId, ObservedEvent>,
    deliveries: map<Id, Delivery>,
    routes: map<RouteKey, Route>,
    members: set<Membership>,
    wakes: map<Id, Wake>,
    processes: map<ProcessKey, Process>,
    requests: map<Text, Request>,
    operations: map<Id, Operation>)

  const EMPTY: Database :=
    Database(map[], map[], map[], map[], map[], map[], map[], map[], map[], map[], {}, map[], map[], map[], map[])

  /** What one immediate transaction does: it commits a new database, or raises and leaves
      the database as it was. */
  datatype Tx<+T> = Commit(db: Database, value: T) | Rollback(error: Failure)

  /** The database after the transaction ran on `db`. */
  function After<T>(db: Database, tx: Tx<T>): Database {
    if tx.Commit? then tx.db else db
  }

  /** A store method ran exactly the transaction `tx`. */
  ghost predicate Executes<T>(before: Database, after: Database, tx: Tx<T>, r: Outcome<T>) {
    && after == After(before, tx)
    && r == if tx.Commit? then Ok(tx.value) else Raised(tx.error)
  }

  // ---------- which tables a transaction may touch ----------

  predicate OnlyRouting(db: Database, after: Database) {
    after == db.(deliveries := after.deliveries, routes := after.routes, members := after.members, observed := after.observed)
  }

  predicate OnlyWakes(db: Database, after: Database) {
    after == db.(wakes := after.wakes, processes := after.processes)
  }

  predicate OnlyFeeds(db: Database, after: Database) {
    after == db.(checkpoints := after.checkpoints, snapshots := after.snapshots, staged := after.staged, observed := after.observed)
  }

  predicate OnlyJournals(db: Database, after: Database) {
    after == db.(requests := after.requests, operations := after.operations)
  }

  predicate OnlyStaff(db: Database, after: Database) {
    after == db.(sessions := after.sessions, workers := after.workers, reservations := after.reservations, wakes := after.wakes)
  }

  predicate OnlyBudgets(db: Database, after: Database) {
    after == db.(buckets := after.buckets, reservations := after.reservations)
  }
}
