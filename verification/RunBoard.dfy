/** Routing and delivery over whole runs: no event lost or doubled, at most one start per
    delivery, and attempts that count leases. */
module RunBoard {
  import opened Outcomes
  import opened Tables
  import opened Deliveries
  import opened Boards
  import opened Runs
  import Wakes
  import Feeds

  /** Every lease call of the run uses the same retry ceiling. */
  predicate Bounded(c: Command, ceiling: int) {
    c.OfDelivery? && c.delivery.LeaseDelivery? ==> c.delivery.ceiling == ceiling
  }

  predicate SameBoard(db: Database, after: Database) {
    && after.deliveries == db.deliveries && after.routes == db.routes && after.members == db.members
    && after.observed == db.observed
  }

  /** What is known about events and routes is only added to: facts never change, a routing
      decision is final, and a bound route stays with its delivery. */
  ghost predicate Remembers(db: Database, after: Database) {
    && (forall e :: e in db.observed ==>
          && e in after.observed && after.observed[e].facts == db.observed[e].facts
          && (!db.observed[e].enrichment.Pending? ==> after.observed[e].enrichment == db.observed[e].enrichment))
    && (forall k :: k in db.routes ==>
          k in after.routes && (db.routes[k].delivery.Some? ==> after.routes[k].delivery == db.routes[k].delivery))
    && db.members <= after.members
  }

  /** The step keeps the board, moves deliveries only forward and forgets nothing. */
  ghost predicate Progresses(db: Database, after: Database, ceiling: int) {
    Board(after, ceiling) && Advances(db, after) && Remembers(db, after)
  }

  lemma SameProgresses(db: Database, after: Database, ceiling: int)
    requires Board(db, ceiling) && SameBoard(db, after)
    ensures Progresses(db, after, ceiling)
  {
  }

  lemma UntouchedKeepsBoard(db: Database, after: Database, ceiling: int)
    requires Board(db, ceiling) && SameBoard(db, after)
    ensures Board(after, ceiling)
  {
  }

  /** New observations are pending and have no routes yet. */
  lemma ObservingKeepsBoard(db: Database, after: Database, ceiling: int)
    requires Board(db, ceiling)
    requires after.deliveries == db.deliveries && after.routes == db.routes && after.members == db.members
    requires forall e :: e in db.observed ==> e in after.observed && after.observed[e] == db.observed[e]
    requires forall e :: e in after.observed && e !in db.observed ==> after.observed[e].enrichment.Pending?
    ensures Board(after, ceiling)
  {
  }

  lemma FeedProgresses(db: Database, c: FeedCommand, ceiling: int)
    requires Board(db, ceiling)
    ensures Progresses(db, FeedStep(db, c), ceiling)
  {
    var after := FeedStep(db, c);
    FeedFrame(db, c);
    if c.FinishSnapshot? {
      FinishingObserves(db, c.id, c.complete, c.watermark);
      ObservingKeepsBoard(db, after, ceiling);
    } else {
      FeedKeepsObserved(db, c);
      SameProgresses(db, after, ceiling);
    }
  }

  lemma FinishingObserves(db: Database, id: Id, complete: bool, watermark: Option<Time>)
    ensures var after := After(db, Feeds.Finish(db, id, complete, watermark));
      && (forall e :: e in db.observed ==> e in after.observed && after.observed[e] == db.observed[e])
      && (forall e :: e in after.observed && e !in db.observed ==> after.observed[e].enrichment.Pending?)
  {
  }

  lemma FeedKeepsObserved(db: Database, c: FeedCommand)
    requires !c.FinishSnapshot?
    ensures FeedStep(db, c).observed == db.observed
  {
  }

  lemma RoutingRemembers(db: Database, event: EventId, target: Option<Name>)
    requires FinishRouting(db, event, target).Commit?
    ensures Remembers(db, FinishRouting(db, event, target).db)
  {
  }

  lemma BindingRemembers(db: Database, id: Id, role: Name, events: set<EventId>, key: DeliveryKey, eligibleAt: Time)
    requires forall e :: e in events ==> Unassigned(db, role, e)
    ensures Remembers(db, Bound(db, id, role, events, key, eligibleAt))
  {
  }

  /** The same routes under the same deliveries: true of every transaction that only moves
      states. */
  predicate SameBindings(db: Database, after: Database) {
    && after.members == db.members && after.observed == db.observed && after.routes.Keys == db.routes.Keys
    && forall k :: k in db.routes ==> after.routes[k].delivery == db.routes[k].delivery
  }

  lemma BindingsRemember(db: Database, after: Database)
    requires SameBindings(db, after)
    ensures Remembers(db, after)
  {
  }

  lemma LeavesBindings(db: Database, now: Time, until: Time, owner: Name, ceiling: int, leased: Option<Id>, after: Database)
    requires LeaseLeaves(db, now, until, owner, ceiling, leased, after)
    ensures SameBindings(db, after)
  {
  }

  lemma EnqueueProgresses(db: Database, id: Id, role: Name, events: set<EventId>, key: DeliveryKey, eligibleAt: Time, ceiling: int)
    requires Board(db, ceiling) && 0 <= ceiling && Enqueue(db, id, role, events, key, eligibleAt).Commit?
    ensures Progresses(db, Enqueue(db, id, role, events, key, eligibleAt).db, ceiling)
  {
    EnqueueCases(db, id, role, events, key, eligibleAt);
    if WithKey(db.deliveries, key) == {} {
      BindingKeepsBoard(db, id, role, events, key, eligibleAt, ceiling);
      BindingAdvances(db, id, role, events, key, eligibleAt);
      BindingRemembers(db, id, role, events, key, eligibleAt);
    }
  }

  lemma LeavesProgress(db: Database, now: Time, until: Time, owner: Name, ceiling: int, leased: Option<Id>, after: Database)
    requires Board(db, ceiling) && LeaseLeaves(db, now, until, owner, ceiling, leased, after)
    ensures Progresses(db, after, ceiling)
  {
    LeavesKeepBoard(db, now, until, owner, ceiling, leased, after);
    LeavesAdvance(db, now, until, owner, ceiling, leased, after);
    LeavesBindings(db, now, until, owner, ceiling, leased, after);
    BindingsRemember(db, after);
  }

  lemma LeaseProgresses(db: Database, owner: Name, now: Time, seconds: int, ceiling: int)
    requires Board(db, ceiling) && Lease(db, owner, now, seconds, ceiling).Commit?
    ensures Progresses(db, Lease(db, owner, now, seconds, ceiling).db, ceiling)
  {
    LeaseCases(db, owner, now, seconds, ceiling);
    LeavesProgress(db, now, now + seconds, owner, ceiling, Lease(db, owner, now, seconds, ceiling).value,
                   Lease(db, owner, now, seconds, ceiling).db);
  }

  lemma RoutingProgresses(db: Database, event: EventId, target: Option<Name>, ceiling: int)
    requires Board(db, ceiling) && FinishRouting(db, event, target).Commit?
    ensures Progresses(db, FinishRouting(db, event, target).db, ceiling)
  {
    RoutingKeepsBoard(db, event, target, ceiling);
    RoutingRemembers(db, event, target);
  }

  lemma StartProgresses(db: Database, id: Id, owner: Name, now: Time, ceiling: int)
    requires Board(db, ceiling) && Start(db, id, owner, now).Commit?
    ensures Progresses(db, Start(db, id, owner, now).db, ceiling)
  {
    StartKeepsBoard(db, id, owner, now, ceiling);
    BindingsRemember(db, Start(db, id, owner, now).db);
  }

  lemma FinishProgresses(db: Database, id: Id, owner: Name, outcome: Result, eligibleAt: Time, ceiling: int)
    requires Board(db, ceiling) && Finish(db, id, owner, outcome, eligibleAt).Commit?
    ensures Progresses(db, Finish(db, id, owner, outcome, eligibleAt).db, ceiling)
  {
    FinishKeepsBoard(db, id, owner, outcome, eligibleAt, ceiling);
    FinishAdvances(db, id, owner, outcome, eligibleAt);
    BindingsRemember(db, Finish(db, id, owner, outcome, eligibleAt).db);
  }

  lemma ReleaseHoldProgresses(db: Database, id: Id, eligibleAt: Time, ceiling: int)
    requires Board(db, ceiling) && ReleaseHold(db, id, eligibleAt).Commit?
    ensures Progresses(db, ReleaseHold(db, id, eligibleAt).db, ceiling)
  {
    ReleaseHoldKeepsBoard(db, id, eligibleAt, ceiling);
    BindingsRemember(db, ReleaseHold(db, id, eligibleAt).db);
  }

  lemma ForceUncertainProgresses(db: Database, id: Id, ceiling: int)
    requires Board(db, ceiling) && ForceUncertain(db, id).Commit?
    ensures Progresses(db, ForceUncertain(db, id).db, ceiling)
  {
    ForceUncertainKeepsBoard(db, id, ceiling);
    BindingsRemember(db, ForceUncertain(db, id).db);
  }

  lemma RetryProgresses(db: Database, id: Id, eligibleAt: Time, ceiling: int)
    requires Board(db, ceiling) && RetryLeased(db, id, eligibleAt).Commit?
    ensures Progresses(db, RetryLeased(db, id, eligibleAt).db, ceiling)
  {
    RetryLeasedKeepsBoard(db, id, eligibleAt, ceiling);
    BindingsRemember(db, RetryLeased(db, id, eligibleAt).db);
  }

  lemma DeliveryProgresses(db: Database, c: DeliveryCommand, ceiling: int)
    requires Board(db, ceiling) && 0 <= ceiling && Bounded(OfDelivery(c), ceiling)
    ensures Progresses(db, DeliveryStep(db, c), ceiling)
  {
    if DeliveryStep(db, c) == db {
      SameProgresses(db, db, ceiling);
    } else {
      match c
      case FinishEventRouting(event, target) => RoutingProgresses(db, event, target, ceiling);
      case EnqueueDelivery(id, role, events, key, eligibleAt) => EnqueueProgresses(db, id, role, events, key, eligibleAt, ceiling);
      case LeaseDelivery(owner, now, seconds, _) => LeaseProgresses(db, owner, now, seconds, ceiling);
      case StartDelivery(id, owner, now) => StartProgresses(db, id, owner, now, ceiling);
      case FinishDelivery(id, owner, outcome, eligibleAt) => FinishProgresses(db, id, owner, outcome, eligibleAt, ceiling);
      case ReleaseBudgetHold(id, eligibleAt) => ReleaseHoldProgresses(db, id, eligibleAt, ceiling);
      case ForceDeliveryUncertain(id) => ForceUncertainProgresses(db, id, ceiling);
    }
  }

  lemma RetryIfBoundProgresses(db: Database, delivery: Option<Id>, eligible: Option<Time>, ceiling: int)
    requires Board(db, ceiling) && Wakes.RetryIfBound(db, delivery, eligible).Commit?
    ensures Progresses(db, Wakes.RetryIfBound(db, delivery, eligible).db, ceiling)
  {
    if delivery.None? {
      SameProgresses(db, db, ceiling);
    } else {
      RetryProgresses(db, delivery.value, eligible.value, ceiling);
    }
  }

  lemma ProgressThenSame(db: Database, middle: Database, after: Database, ceiling: int)
    requires Progresses(db, middle, ceiling) && SameBoard(middle, after)
    ensures Progresses(db, after, ceiling)
  {
    UntouchedKeepsBoard(middle, after, ceiling);
  }

  lemma SameThenProgress(db: Database, middle: Database, after: Database, ceiling: int)
    requires SameBoard(db, middle) && Progresses(middle, after, ceiling)
    ensures Progresses(db, after, ceiling)
  {
  }

  lemma OrphanParts(db: Database, sid: Id, delivery: Option<Id>, eligible: Option<Time>)
    requires Wakes.RecoverOrphan(db, sid, delivery, eligible).Commit?
    ensures Wakes.ReleaseFor(db, sid).Commit? && SameBoard(db, Wakes.ReleaseFor(db, sid).db)
    ensures Wakes.RetryIfBound(Wakes.ReleaseFor(db, sid).db, delivery, eligible).Commit?
    ensures SameBoard(Wakes.RetryIfBound(Wakes.ReleaseFor(db, sid).db, delivery, eligible).db,
                      Wakes.RecoverOrphan(db, sid, delivery, eligible).db)
  {
  }

  lemma PreparedParts(db: Database, wakeId: Id, eligibleAt: Time)
    requires Wakes.RecoverPrepared(db, wakeId, eligibleAt).Commit?
    ensures wakeId in db.wakes
    ensures var sid := db.wakes[wakeId].session;
      && Wakes.ReleaseFor(db, sid).Commit? && SameBoard(db, Wakes.ReleaseFor(db, sid).db)
      && Wakes.RetryIfBound(Wakes.ReleaseFor(db, sid).db, db.wakes[wakeId].delivery, Some(eligibleAt)).Commit?
      && SameBoard(Wakes.RetryIfBound(Wakes.ReleaseFor(db, sid).db, db.wakes[wakeId].delivery, Some(eligibleAt)).db,
                   Wakes.RecoverPrepared(db, wakeId, eligibleAt).db)
  {
  }

  lemma ReleasedAndRetriedProgresses(db: Database, sid: Id, delivery: Option<Id>, eligible: Option<Time>, after: Database, ceiling: int)
    requires Board(db, ceiling)
    requires Wakes.ReleaseFor(db, sid).Commit? && SameBoard(db, Wakes.ReleaseFor(db, sid).db)
    requires Wakes.RetryIfBound(Wakes.ReleaseFor(db, sid).db, delivery, eligible).Commit?
    requires SameBoard(Wakes.RetryIfBound(Wakes.ReleaseFor(db, sid).db, delivery, eligible).db, after)
    ensures Progresses(db, after, ceiling)
  {
    var released := Wakes.ReleaseFor(db, sid).db;
    var retried := Wakes.RetryIfBound(released, delivery, eligible).db;
    UntouchedKeepsBoard(db, released, ceiling);
    RetryIfBoundProgresses(released, delivery, eligible, ceiling);
    SameThenProgress(db, released, retried, ceiling);
    ProgressThenSame(db, retried, after, ceiling);
  }

  lemma RecoveryProgresses(db: Database, c: RecoveryCommand, ceiling: int)
    requires Board(db, ceiling)
    ensures Progresses(db, RecoveryStep(db, c), ceiling)
  {
    if RecoveryStep(db, c) == db {
      SameProgresses(db, db, ceiling);
    } else {
      match c
      case RecoverOrphanSession(sid, delivery, eligible) =>
        OrphanParts(db, sid, delivery, eligible);
        ReleasedAndRetriedProgresses(db, sid, delivery, eligible, RecoveryStep(db, c), ceiling);
      case RecoverPreparedWake(wakeId, eligibleAt) =>
        PreparedParts(db, wakeId, eligibleAt);
        var wake := db.wakes[wakeId];
        ReleasedAndRetriedProgresses(db, wake.session, wake.delivery, Some(eligibleAt), RecoveryStep(db, c), ceiling);
    }
  }

  lemma StepProgresses(db: Database, c: Command, ceiling: int)
    requires Board(db, ceiling) && 0 <= ceiling && Bounded(c, ceiling)
    ensures Progresses(db, Step(db, c), ceiling)
  {
    match c
    case OfDelivery(d) => DeliveryProgresses(db, d, ceiling);
    case OfRecovery(r) => RecoveryProgresses(db, r, ceiling);
    case OfFeed(f) => FeedProgresses(db, f, ceiling);
    case OfSession(s) => SessionFrame(db, s); SameProgresses(db, Step(db, c), ceiling);
    case OfBudget(b) => BudgetFrame(db, b); SameProgresses(db, Step(db, c), ceiling);
    case OfWake(w) => WakeFrame(db, w); SameProgresses(db, Step(db, c), ceiling);
    case OfJournal(j) => JournalFrame(db, j); SameProgresses(db, Step(db, c), ceiling);
  }

  // ---------- attempts count leases ----------

  /** What a step may do to one delivery, given how often it leased, held back and started it. */
  predicate Moved(before: Delivery, after: Delivery, leased: nat, held: nat, started: nat) {
    && after.attempt == before.attempt + leased - held
    && (started > 0 ==> started == 1 && Stage(before.state) == 0 && after.state.Running?)
    && (after.state.Running? && started == 0 ==> before.state.Running?)
  }

  ghost predicate Tallies(db: Database, after: Database, leased: multiset<Id>, held: multiset<Id>, started: multiset<Id>) {
    && (forall d :: d in db.deliveries ==>
          d in after.deliveries && Moved(db.deliveries[d], after.deliveries[d], leased[d], held[d], started[d]))
    && (forall d :: d in after.deliveries && d !in db.deliveries ==>
          after.deliveries[d].attempt == 0 && after.deliveries[d].state.Queued?)
    && (forall d :: d in leased || d in held || d in started ==> d in db.deliveries)
  }

  /** Attempts are leases less budget holds, and a delivery started at most once: never while
      it may still be leased, once from the moment it runs. */
  ghost predicate Tallied(h: History) {
    && (forall d :: d in h.db.deliveries ==>
          && h.db.deliveries[d].attempt + h.holds[d] == h.leases[d]
          && h.starts[d] <= 1
          && (Stage(h.db.deliveries[d].state) == 0 ==> h.starts[d] == 0)
          && (h.db.deliveries[d].state.Running? ==> h.starts[d] == 1))
    && (forall d :: d in h.leases || d in h.holds || d in h.starts ==> d in h.db.deliveries)
  }

  lemma TalliesKeepTallied(h: History, after: Database, leased: multiset<Id>, held: multiset<Id>, started: multiset<Id>,
                           actuals: map<Id, int>)
    requires Tallied(h) && Tallies(h.db, after, leased, held, started) && Advances(h.db, after)
    ensures Tallied(History(after, actuals, h.leases + leased, h.holds + held, h.starts + started))
  {
  }

  lemma ClearedTallies(db: Database, now: Time, ceiling: int)
    ensures Tallies(db, Cleared(db, now, ceiling), multiset{}, multiset{}, multiset{})
  {
  }

  lemma LeavesTally(db: Database, now: Time, until: Time, owner: Name, ceiling: int, leased: Option<Id>, after: Database)
    requires LeaseLeaves(db, now, until, owner, ceiling, leased, after)
    ensures Tallies(db, after, if leased.Some? then multiset{leased.value} else multiset{}, multiset{}, multiset{})
  {
    ClearedTallies(db, now, ceiling);
    if leased.Some? {
      var swept := Cleared(db, now, ceiling);
      assert leased.value in swept.deliveries && swept.deliveries.Keys == db.deliveries.Keys;
    }
  }

  lemma LeaseTallies(db: Database, owner: Name, now: Time, seconds: int, ceiling: int)
    ensures Tallies(db, After(db, Lease(db, owner, now, seconds, ceiling)),
                    LeasedBy(db, OfDelivery(LeaseDelivery(owner, now, seconds, ceiling))), multiset{}, multiset{})
  {
    var tx := Lease(db, owner, now, seconds, ceiling);
    if tx.Commit? {
      LeaseCases(db, owner, now, seconds, ceiling);
      LeavesTally(db, now, now + seconds, owner, ceiling, tx.value, tx.db);
    }
  }

  lemma EnqueueTallies(db: Database, id: Id, role: Name, events: set<EventId>, key: DeliveryKey, eligibleAt: Time)
    ensures Tallies(db, After(db, Enqueue(db, id, role, events, key, eligibleAt)), multiset{}, multiset{}, multiset{})
  {
  }

  lemma StartTallies(db: Database, id: Id, owner: Name, now: Time)
    ensures Tallies(db, After(db, Start(db, id, owner, now)), multiset{}, multiset{},
                    StartedBy(db, OfDelivery(StartDelivery(id, owner, now))))
  {
  }

  lemma FinishTallies(db: Database, id: Id, owner: Name, outcome: Result, eligibleAt: Time)
    ensures Tallies(db, After(db, Finish(db, id, owner, outcome, eligibleAt)), multiset{},
                    HeldBy(db, OfDelivery(FinishDelivery(id, owner, outcome, eligibleAt))), multiset{})
  {
  }

  lemma SameTallies(db: Database, after: Database)
    requires after.deliveries == db.deliveries
    ensures Tallies(db, after, multiset{}, multiset{}, multiset{})
  {
  }

  lemma DeliveryTallies(db: Database, c: DeliveryCommand)
    ensures Tallies(db, DeliveryStep(db, c), LeasedBy(db, OfDelivery(c)), HeldBy(db, OfDelivery(c)), StartedBy(db, OfDelivery(c)))
  {
    match c
    case EnqueueDelivery(id, role, events, key, eligibleAt) =>
      EnqueueTallies(db, id, role, events, key, eligibleAt);
    case LeaseDelivery(owner, now, seconds, ceiling) =>
      LeaseTallies(db, owner, now, seconds, ceiling);
    case StartDelivery(id, owner, now) => StartTallies(db, id, owner, now);
    case FinishDelivery(id, owner, outcome, eligibleAt) => FinishTallies(db, id, owner, outcome, eligibleAt);
    case FinishEventRouting(event, target) => SameTallies(db, After(db, FinishRouting(db, event, target)));
    case ReleaseBudgetHold(id, eligibleAt) => ReleaseHoldTallies(db, id, eligibleAt);
    case ForceDeliveryUncertain(id) => ForceUncertainTallies(db, id);
  }

  lemma ReleaseHoldTallies(db: Database, id: Id, eligibleAt: Time)
    ensures Tallies(db, After(db, ReleaseHold(db, id, eligibleAt)), multiset{}, multiset{}, multiset{})
  {
  }

  lemma ForceUncertainTallies(db: Database, id: Id)
    ensures Tallies(db, After(db, ForceUncertain(db, id)), multiset{}, multiset{}, multiset{})
  {
  }

  lemma RecoveryTallies(db: Database, c: RecoveryCommand)
    ensures Tallies(db, RecoveryStep(db, c), multiset{}, multiset{}, multiset{})
  {
    if RecoveryStep(db, c) == db {
      SameTallies(db, db);
    } else {
      match c
      case RecoverOrphanSession(sid, delivery, eligible) =>
        OrphanParts(db, sid, delivery, eligible);
        RetryTallies(Wakes.ReleaseFor(db, sid).db, delivery, eligible);
      case RecoverPreparedWake(wakeId, eligibleAt) =>
        PreparedParts(db, wakeId, eligibleAt);
        RetryTallies(Wakes.ReleaseFor(db, db.wakes[wakeId].session).db, db.wakes[wakeId].delivery, Some(eligibleAt));
    }
  }

  lemma RetryTallies(db: Database, delivery: Option<Id>, eligible: Option<Time>)
    requires Wakes.RetryIfBound(db, delivery, eligible).Commit?
    ensures Tallies(db, Wakes.RetryIfBound(db, delivery, eligible).db, multiset{}, multiset{}, multiset{})
  {
  }

  lemma StepTallies(db: Database, c: Command)
    ensures Tallies(db, Step(db, c), LeasedBy(db, c), HeldBy(db, c), StartedBy(db, c))
  {
    match c
    case OfDelivery(d) => DeliveryTallies(db, d);
    case OfRecovery(r) => RecoveryTallies(db, r);
    case OfFeed(f) => FeedFrame(db, f); SameTallies(db, Step(db, c));
    case OfSession(s) => SessionFrame(db, s); SameTallies(db, Step(db, c));
    case OfBudget(b) => BudgetFrame(db, b); SameTallies(db, Step(db, c));
    case OfWake(w) => WakeFrame(db, w); SameTallies(db, Step(db, c));
    case OfJournal(j) => JournalFrame(db, j); SameTallies(db, Step(db, c));
  }

  // ---------- over runs ----------

  /** In every reachable state the board is sound and the attempts count the leases. */
  lemma {:induction false} RunsKeepBoard(commands: seq<Command>, ceiling: int)
    requires 0 <= ceiling && forall c :: c in commands ==> Bounded(c, ceiling)
    ensures Board(Run(START, commands).db, ceiling) && Tallied(Run(START, commands))
  {
    if commands != [] {
      var before, last := Run(START, commands[..|commands| - 1]), commands[|commands| - 1];
      RunsKeepBoard(commands[..|commands| - 1], ceiling);
      StepProgresses(before.db, last, ceiling);
      StepTallies(before.db, last);
      TalliesKeepTallied(before, Step(before.db, last), LeasedBy(before.db, last), HeldBy(before.db, last), StartedBy(before.db, last),
                         Charge(before.db, before.actuals, last));
    }
  }

  lemma AdvancesThrough(a: Database, b: Database, c: Database, ceiling: int)
    requires Advances(a, b) && Remembers(a, b) && Progresses(b, c, ceiling)
    ensures Advances(a, c) && Remembers(a, c)
  {
  }

  /** From any sound state on, deliveries only move forward and nothing observed, routed or
      bound is forgotten: once running, a delivery is never waiting or leased again, and a
      finished one keeps its row for ever. */
  lemma {:induction false} RunsMoveForward(h: History, commands: seq<Command>, ceiling: int)
    requires Board(h.db, ceiling) && 0 <= ceiling && forall c :: c in commands ==> Bounded(c, ceiling)
    ensures Board(Run(h, commands).db, ceiling)
    ensures Advances(h.db, Run(h, commands).db) && Remembers(h.db, Run(h, commands).db)
  {
    if commands != [] {
      var before, last := Run(h, commands[..|commands| - 1]), commands[|commands| - 1];
      RunsMoveForward(h, commands[..|commands| - 1], ceiling);
      StepProgresses(before.db, last, ceiling);
      AdvancesThrough(h.db, before.db, Run(h, commands).db, ceiling);
    }
  }

  /** A delivery with finitely many budget holds is leased finitely often, and starts at most
      once however the run goes. */
  lemma {:induction false} LeasesAreBounded(commands: seq<Command>, ceiling: int, d: Id)
    requires 0 <= ceiling && forall c :: c in commands ==> Bounded(c, ceiling)
    ensures var h := Run(START, commands); h.holds[d] <= h.leases[d] <= ceiling + h.holds[d] && h.starts[d] <= 1
  {
    RunsKeepBoard(commands, ceiling);
    var h := Run(START, commands);
    if d in h.db.deliveries {
      assert DeliveryRow(h.db.deliveries[d], ceiling);
    } else {
      assert d !in h.leases && d !in h.holds && d !in h.starts;
    }
  }

  /** The rows of `delivery_event` are exactly the routes bound to the delivery. */
  lemma MembersAreRoutes(db: Database, ceiling: int, d: Id)
    requires Board(db, ceiling) && d in db.deliveries
    ensures EventsOf(db, d) == set k | k in db.routes && db.routes[k].delivery == Some(d) :: k.event
    ensures forall k :: k in db.routes && db.routes[k].delivery == Some(d) ==> k.role == db.deliveries[d].role
  {
  }
}
