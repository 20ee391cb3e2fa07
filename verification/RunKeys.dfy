/** Delivery keys over whole runs: as long as every enqueue uses the route key of its own role
    and events, no delivery ever holds the key of events that are still pending. */
module RunKeys {
  import opened Outcomes
  import opened Tables
  import opened Deliveries
  import opened Boards
  import opened Runs
  import opened RunBoard
  import opened Ticks
  import Wakes

  /** The only key the tick computes. */
  predicate Digested(c: Command) {
    c.OfDelivery? && c.delivery.EnqueueDelivery? ==> c.delivery.key == RouteDigest(c.delivery.role, c.delivery.events)
  }

  /** The same deliveries under the same keys and roles, with the same events. */
  ghost predicate SameIdentities(db: Database, after: Database) {
    && after.members == db.members && after.deliveries.Keys == db.deliveries.Keys
    && forall d :: d in db.deliveries ==>
      after.deliveries[d].key == db.deliveries[d].key && after.deliveries[d].role == db.deliveries[d].role
  }

  lemma SameIdentitiesHonest(db: Database, after: Database)
    requires SameIdentities(db, after) && HonestKeys(db)
    ensures HonestKeys(after)
  {
    forall d | d in after.deliveries ensures EventsOf(after, d) == EventsOf(db, d) {
    }
  }

  lemma SweepsKeepIdentities(db: Database, now: Time, ceiling: int)
    ensures SameIdentities(db, Cleared(db, now, ceiling))
  {
  }

  lemma LeaseKeepsIdentities(db: Database, owner: Name, now: Time, seconds: int, ceiling: int)
    ensures SameIdentities(db, After(db, Lease(db, owner, now, seconds, ceiling)))
  {
    var tx := Lease(db, owner, now, seconds, ceiling);
    if tx.Commit? {
      LeaseCases(db, owner, now, seconds, ceiling);
      SweepsKeepIdentities(db, now, ceiling);
    }
  }

  lemma FinishKeepsIdentities(db: Database, id: Id, owner: Name, outcome: Result, at: Time)
    ensures SameIdentities(db, After(db, Finish(db, id, owner, outcome, at)))
  {
  }

  lemma EnqueueKeepsHonest(db: Database, id: Id, role: Name, events: set<EventId>, at: Time, ceiling: int)
    requires RouteRows(db) && HonestKeys(db)
    ensures HonestKeys(After(db, Enqueue(db, id, role, events, RouteDigest(role, events), at)))
  {
    if Enqueue(db, id, role, events, RouteDigest(role, events), at).Commit? {
      EnqueueCases(db, id, role, events, RouteDigest(role, events), at);
      if WithKey(db.deliveries, RouteDigest(role, events)) == {} {
        BoundHonest(db, ceiling, id, role, events, at);
      }
    }
  }

  lemma RoutingKeepsIdentities(db: Database, event: EventId, target: Option<Name>)
    ensures SameIdentities(db, After(db, FinishRouting(db, event, target)))
  {
  }

  lemma StartKeepsIdentities(db: Database, id: Id, owner: Name, now: Time)
    ensures SameIdentities(db, After(db, Start(db, id, owner, now)))
  {
  }

  lemma ReleaseHoldKeepsIdentities(db: Database, id: Id, at: Time)
    ensures SameIdentities(db, After(db, ReleaseHold(db, id, at)))
  {
  }

  lemma ForceUncertainKeepsIdentities(db: Database, id: Id)
    ensures SameIdentities(db, After(db, ForceUncertain(db, id)))
  {
  }

  lemma DeliveryKeepsIdentities(db: Database, c: DeliveryCommand)
    requires !c.EnqueueDelivery?
    ensures SameIdentities(db, DeliveryStep(db, c))
  {
    match c
    case LeaseDelivery(owner, now, seconds, limit) => LeaseKeepsIdentities(db, owner, now, seconds, limit);
    case FinishDelivery(id, owner, outcome, at) => FinishKeepsIdentities(db, id, owner, outcome, at);
    case FinishEventRouting(event, target) => RoutingKeepsIdentities(db, event, target);
    case StartDelivery(id, owner, now) => StartKeepsIdentities(db, id, owner, now);
    case ReleaseBudgetHold(id, at) => ReleaseHoldKeepsIdentities(db, id, at);
    case ForceDeliveryUncertain(id) => ForceUncertainKeepsIdentities(db, id);
  }

  lemma DeliveryKeepsHonest(db: Database, c: DeliveryCommand, ceiling: int)
    requires RouteRows(db) && HonestKeys(db) && Digested(OfDelivery(c))
    ensures HonestKeys(DeliveryStep(db, c))
  {
    if c.EnqueueDelivery? {
      EnqueueKeepsHonest(db, c.id, c.role, c.events, c.eligibleAt, ceiling);
    } else {
      DeliveryKeepsIdentities(db, c);
      SameIdentitiesHonest(db, DeliveryStep(db, c));
    }
  }

  lemma RetryKeepsIdentities(db: Database, delivery: Option<Id>, eligible: Option<Time>)
    requires Wakes.RetryIfBound(db, delivery, eligible).Commit?
    ensures SameIdentities(db, Wakes.RetryIfBound(db, delivery, eligible).db)
  {
  }

  lemma RecoveryKeepsIdentities(db: Database, c: RecoveryCommand)
    ensures SameIdentities(db, RecoveryStep(db, c))
  {
    if RecoveryStep(db, c) != db {
      match c
      case RecoverOrphanSession(sid, delivery, eligible) =>
        OrphanParts(db, sid, delivery, eligible);
        RetryKeepsIdentities(Wakes.ReleaseFor(db, sid).db, delivery, eligible);
      case RecoverPreparedWake(w, at) =>
        PreparedParts(db, w, at);
        RetryKeepsIdentities(Wakes.ReleaseFor(db, db.wakes[w].session).db, db.wakes[w].delivery, Some(at));
    }
  }

  lemma StepKeepsHonest(db: Database, c: Command, ceiling: int)
    requires RouteRows(db) && HonestKeys(db) && Digested(c)
    ensures HonestKeys(Step(db, c))
  {
    match c
    case OfDelivery(d) => DeliveryKeepsHonest(db, d, ceiling);
    case OfRecovery(r) => RecoveryKeepsIdentities(db, r); SameIdentitiesHonest(db, Step(db, c));
    case OfSession(x) => SessionFrame(db, x); SameIdentitiesHonest(db, Step(db, c));
    case OfBudget(x) => BudgetFrame(db, x); SameIdentitiesHonest(db, Step(db, c));
    case OfWake(x) => WakeFrame(db, x); SameIdentitiesHonest(db, Step(db, c));
    case OfFeed(x) => FeedFrame(db, x); SameIdentitiesHonest(db, Step(db, c));
    case OfJournal(x) => JournalFrame(db, x); SameIdentitiesHonest(db, Step(db, c));
  }

  /** In every reachable state each delivery's key is the route key of its own role and events. */
  lemma {:induction false} RunsKeepHonestKeys(commands: seq<Command>, ceiling: int)
    requires 0 <= ceiling && forall c :: c in commands ==> Bounded(c, ceiling) && Digested(c)
    ensures HonestKeys(Run(START, commands).db)
  {
    if commands != [] {
      var earlier, last := commands[..|commands| - 1], commands[|commands| - 1];
      assert last in commands && forall c :: c in earlier ==> c in commands;
      RunsKeepHonestKeys(earlier, ceiling);
      RunsKeepBoard(earlier, ceiling);
      StepKeepsHonest(Run(START, earlier).db, last, ceiling);
    }
  }

  /** The tick's enqueue always binds a new delivery: in no reachable state does it raise or
      return an old one. */
  lemma {:induction false} TickEnqueueBinds(commands: seq<Command>, ceiling: int, id: Id, role: Name, events: set<EventId>, at: Time)
    requires 0 <= ceiling && forall c :: c in commands ==> Bounded(c, ceiling) && Digested(c)
    requires var db := Run(START, commands).db; role != "" && events != {} && events <= PendingRoutes(db, role) && id !in db.deliveries
    ensures var db, key := Run(START, commands).db, RouteDigest(role, events);
      Enqueue(db, id, role, events, key, at) == Commit(Bound(db, id, role, events, key, at), id)
  {
    RunsKeepBoard(commands, ceiling);
    RunsKeepHonestKeys(commands, ceiling);
    HonestEnqueueBinds(Run(START, commands).db, ceiling, id, role, events, at);
  }
}
