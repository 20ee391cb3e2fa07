/** No event is lost or doubled between routing and its delivery, and no delivery runs twice:
    the invariants of the routing tables and the order in which deliveries move. */
module Boards {
  import opened Outcomes
  import opened Tables
  import opened Deliveries

  /** The route states a delivery state allows. An expired lease waits for retry while its
      routes still read leased. */
  predicate Follows(route: RouteState, delivery: DeliveryState) {
    match delivery
    case Queued => route.Queued?
    case Leased => route.Leased?
    case Running => route.Leased?
    case RetryWait => route.Queued? || route.Leased?
    case BudgetHeld => route.Queued?
    case Succeeded => route.Delivered?
    case DeadLetter => route.DeadLetter?
    case Uncertain => route.ManualReview?
  }

  predicate Held(state: DeliveryState) {
    state.Leased? || state.Running?
  }

  predicate DeliveryRow(d: Delivery, ceiling: int) {
    && (d.owner.Some? <==> Held(d.state)) && (d.leaseUntil.Some? <==> Held(d.state))
    && 0 <= d.attempt <= ceiling && (Held(d.state) ==> 1 <= d.attempt)
  }

  /** A route is pending and unbound, or bound to a delivery of its role that lists it and
      whose state it follows. */
  ghost predicate RouteRow(db: Database, k: RouteKey)
    requires k in db.routes
  {
    match db.routes[k].delivery
    case None => db.routes[k].state.Pending?
    case Some(d) =>
      && d in db.deliveries && db.deliveries[d].role == k.role
      && Membership(d, k.event, k.role) in db.members
      && Follows(db.routes[k].state, db.deliveries[d].state)
  }

  ghost predicate MemberRow(db: Database, m: Membership) {
    RouteKey(m.event, m.role) in db.routes && db.routes[RouteKey(m.event, m.role)].delivery == Some(m.delivery)
  }

  ghost predicate RouteRows(db: Database) {
    && (forall k :: k in db.routes ==> RouteRow(db, k))
    && (forall m :: m in db.members ==> MemberRow(db, m))
  }

  ghost predicate DeliveryRows(db: Database, ceiling: int) {
    forall d :: d in db.deliveries ==> DeliveryRow(db.deliveries[d], ceiling) && EventsOf(db, d) != {}
  }

  ghost predicate KeysUnique(db: Database) {
    forall d :: d in db.deliveries ==> WithKey(db.deliveries, db.deliveries[d].key) == {d}
  }

  function RoutesOf(db: Database, event: EventId): set<RouteKey> {
    set k | k in db.routes && k.event == event
  }

  /** An observed event is routed exactly when it has a route, and never has two. */
  ghost predicate EventRows(db: Database) {
    && (forall k :: k in db.routes ==> k.event in db.observed && db.observed[k.event].enrichment.Routed? && RoutesOf(db, k.event) == {k})
    && (forall e :: e in db.observed && db.observed[e].enrichment.Routed? ==> RoutesOf(db, e) != {})
  }

  ghost predicate Board(db: Database, ceiling: int) {
    RouteRows(db) && DeliveryRows(db, ceiling) && KeysUnique(db) && EventRows(db)
  }

  // ---------- how a delivery may move ----------

  /** 0 before it ever runs, 1 while it runs, 2 when it is over. */
  function Stage(state: DeliveryState): nat {
    match state
    case Running => 1
    case Succeeded => 2
    case DeadLetter => 2
    case Uncertain => 2
    case _ => 0
  }

  /** Deliveries are never deleted or rebound; their stage never falls; the last is final. */
  ghost predicate Advances(db: Database, after: Database) {
    forall d :: d in db.deliveries ==>
      && d in after.deliveries
      && after.deliveries[d].key == db.deliveries[d].key && after.deliveries[d].role == db.deliveries[d].role
      && Stage(db.deliveries[d].state) <= Stage(after.deliveries[d].state)
      && (Stage(db.deliveries[d].state) == 2 ==> after.deliveries[d] == db.deliveries[d])
  }

  /** The delivery got a new state and lease; its identity stays and its row is sound. */
  predicate Renewed(before: Delivery, after: Delivery, ceiling: int) {
    after.key == before.key && after.role == before.role && DeliveryRow(after, ceiling)
  }

  ghost predicate Reposted(db: Database, after: Database, k: RouteKey)
    requires k in db.routes && k in after.routes
  {
    && after.routes[k].delivery == db.routes[k].delivery
    && match db.routes[k].delivery
       case None => after.routes[k] == db.routes[k]
       case Some(d) => d in after.deliveries && Follows(after.routes[k].state, after.deliveries[d].state)
  }

  /** Rows were relabelled: same deliveries, routes, bindings and events, new states. */
  ghost predicate Relabels(db: Database, after: Database, ceiling: int) {
    && after.members == db.members && after.observed == db.observed
    && after.deliveries.Keys == db.deliveries.Keys && after.routes.Keys == db.routes.Keys
    && (forall d :: d in db.deliveries ==> Renewed(db.deliveries[d], after.deliveries[d], ceiling))
    && (forall k :: k in db.routes ==> Reposted(db, after, k))
  }

  lemma {:induction false} RelabelsKeepBoard(db: Database, after: Database, ceiling: int)
    requires Board(db, ceiling) && Relabels(db, after, ceiling)
    ensures Board(after, ceiling)
  {
  }

  /** One delivery got a new row and its routes the state that goes with it. */
  lemma {:induction false} OneRelabels(db: Database, did: Id, row: Delivery, state: RouteState, ceiling: int)
    requires RouteRows(db) && DeliveryRows(db, ceiling) && did in db.deliveries
    requires Renewed(db.deliveries[did], row, ceiling) && Follows(state, row.state)
    ensures Relabels(db, SetRoutes(SetDelivery(db, did, row), did, state), ceiling)
  {
    var after := SetRoutes(SetDelivery(db, did, row), did, state);
    forall k | k in db.routes ensures Reposted(db, after, k) {
      assert RouteRow(db, k);
    }
  }

  lemma {:induction false} QuarantineRelabels(db: Database, now: Time, ceiling: int)
    requires RouteRows(db) && DeliveryRows(db, ceiling)
    ensures Relabels(db, Quarantined(db, Overrun(db, now)), ceiling)
  {
    var after := Quarantined(db, Overrun(db, now));
    forall k | k in db.routes ensures Reposted(db, after, k) {
      assert RouteRow(db, k);
    }
    forall d | d in db.deliveries ensures Renewed(db.deliveries[d], after.deliveries[d], ceiling) {
    }
  }

  lemma {:induction false} UnleaseRelabels(db: Database, now: Time, ceiling: int)
    requires RouteRows(db) && DeliveryRows(db, ceiling)
    ensures Relabels(db, Unleased(db, now), ceiling)
  {
    var after := Unleased(db, now);
    forall k | k in db.routes ensures Reposted(db, after, k) {
      assert RouteRow(db, k);
    }
    forall d | d in db.deliveries ensures Renewed(db.deliveries[d], after.deliveries[d], ceiling) {
    }
  }

  lemma {:induction false} BurialRelabels(db: Database, ceiling: int)
    requires RouteRows(db) && DeliveryRows(db, ceiling)
    ensures Relabels(db, Buried(db, AtCeiling(db, ceiling)), ceiling)
  {
  }

  lemma QuarantineAdvances(db: Database, now: Time)
    ensures Advances(db, Quarantined(db, Overrun(db, now)))
  {
  }

  lemma UnleaseAdvances(db: Database, now: Time)
    ensures Advances(Quarantined(db, Overrun(db, now)), Swept(db, now))
  {
  }

  lemma SweepAdvances(db: Database, now: Time, ceiling: int)
    ensures Advances(db, Cleared(db, now, ceiling))
  {
    var quarantined := Quarantined(db, Overrun(db, now));
    var swept := Swept(db, now);
    QuarantineAdvances(db, now);
    UnleaseAdvances(db, now);
    AdvancesTransitive(db, quarantined, swept);
    BurialAdvances(swept, ceiling);
    AdvancesTransitive(db, swept, Cleared(db, now, ceiling));
  }

  lemma BurialAdvances(db: Database, ceiling: int)
    ensures Advances(db, Buried(db, AtCeiling(db, ceiling)))
  {
  }

  /** The table after the sweeps of a lease call. */
  lemma {:induction false} SweepsKeepBoard(db: Database, now: Time, ceiling: int)
    requires Board(db, ceiling)
    ensures Board(Cleared(db, now, ceiling), ceiling)
  {
    var quarantined, swept := Quarantined(db, Overrun(db, now)), Swept(db, now);
    QuarantineRelabels(db, now, ceiling);
    RelabelsKeepBoard(db, quarantined, ceiling);
    UnleaseRelabels(quarantined, now, ceiling);
    RelabelsKeepBoard(quarantined, swept, ceiling);
    BurialRelabels(swept, ceiling);
    RelabelsKeepBoard(swept, Cleared(db, now, ceiling), ceiling);
  }

  /** An expired lease below the ceiling goes back to waiting while its routes still read leased. */
  lemma ExpiredLeaseKeepsRoutes(db: Database, now: Time, ceiling: int, d: Id, k: RouteKey)
    requires Board(db, ceiling) && d in db.deliveries && db.deliveries[d].state.Leased? && db.deliveries[d].attempt < ceiling
    requires db.deliveries[d].leaseUntil.Some? && db.deliveries[d].leaseUntil.value <= now
    requires k in db.routes && db.routes[k] == Route(RouteState.Leased, Some(d))
    ensures var swept := Cleared(db, now, ceiling);
      && d in swept.deliveries && swept.deliveries[d].state.RetryWait? && swept.deliveries[d].owner.None?
      && k in swept.routes && swept.routes[k] == Route(RouteState.Leased, Some(d))
  {
  }

  lemma NoneExhausted(db: Database, now: Time, ceiling: int, d: Id)
    requires d in db.deliveries
    ensures d in Cleared(db, now, ceiling).deliveries && !Exhausted(Cleared(db, now, ceiling).deliveries[d], ceiling)
  {
  }

  lemma {:induction false} TakingRelabels(db: Database, did: Id, owner: Name, until: Time, ceiling: int)
    requires RouteRows(db) && DeliveryRows(db, ceiling) && did in db.deliveries
    requires Waiting(db.deliveries[did]) && !Exhausted(db.deliveries[did], ceiling)
    ensures Relabels(db, Taken(db, did, owner, until), ceiling)
  {
  }

  /** Leasing one waiting delivery below the ceiling. */
  lemma {:induction false} TakingKeepsBoard(db: Database, did: Id, owner: Name, until: Time, ceiling: int)
    requires Board(db, ceiling) && did in db.deliveries
    requires Waiting(db.deliveries[did]) && !Exhausted(db.deliveries[did], ceiling)
    ensures Board(Taken(db, did, owner, until), ceiling)
  {
    TakingRelabels(db, did, owner, until, ceiling);
    RelabelsKeepBoard(db, Taken(db, did, owner, until), ceiling);
  }

  lemma TakingAdvances(db: Database, did: Id, owner: Name, until: Time)
    requires did in db.deliveries && Waiting(db.deliveries[did])
    ensures Advances(db, Taken(db, did, owner, until))
  {
  }

  lemma AdvancesTransitive(a: Database, b: Database, c: Database)
    requires Advances(a, b) && Advances(b, c)
    ensures Advances(a, c)
  {
  }

  /** The sweeps, and then perhaps one lease: what a lease call may leave. */
  ghost predicate LeaseLeaves(db: Database, now: Time, until: Time, owner: Name, ceiling: int, leased: Option<Id>, after: Database) {
    var swept := Cleared(db, now, ceiling);
    if leased.None? then after == swept
    else leased.value in Candidates(swept, now) && after == Taken(swept, leased.value, owner, until)
  }

  lemma LeaseCases(db: Database, owner: Name, now: Time, seconds: int, ceiling: int)
    requires Lease(db, owner, now, seconds, ceiling).Commit?
    ensures var tx := Lease(db, owner, now, seconds, ceiling);
      LeaseLeaves(db, now, now + seconds, owner, ceiling, tx.value, tx.db)
  {
  }

  /** A lease is only given below the ceiling, to a delivery that never ran. */
  lemma {:induction false} LeavesKeepBoard(db: Database, now: Time, until: Time, owner: Name, ceiling: int, leased: Option<Id>,
                                           after: Database)
    requires Board(db, ceiling) && LeaseLeaves(db, now, until, owner, ceiling, leased, after)
    ensures Board(after, ceiling)
  {
    var swept := Cleared(db, now, ceiling);
    SweepsKeepBoard(db, now, ceiling);
    if leased.Some? {
      assert leased.value in db.deliveries && Waiting(swept.deliveries[leased.value]);
      NoneExhausted(db, now, ceiling, leased.value);
      TakingKeepsBoard(swept, leased.value, owner, until, ceiling);
    }
  }

  lemma {:induction false} LeavesAdvance(db: Database, now: Time, until: Time, owner: Name, ceiling: int, leased: Option<Id>,
                                         after: Database)
    requires LeaseLeaves(db, now, until, owner, ceiling, leased, after)
    ensures Advances(db, after)
  {
    var swept := Cleared(db, now, ceiling);
    SweepAdvances(db, now, ceiling);
    if leased.Some? {
      TakingAdvances(swept, leased.value, owner, until);
      AdvancesTransitive(db, swept, after);
    }
  }

  lemma {:induction false} StartKeepsBoard(db: Database, did: Id, owner: Name, now: Time, ceiling: int)
    requires Board(db, ceiling) && Start(db, did, owner, now).Commit?
    ensures Board(Start(db, did, owner, now).db, ceiling) && Advances(db, Start(db, did, owner, now).db)
  {
    RelabelsKeepBoard(db, Start(db, did, owner, now).db, ceiling);
  }

  lemma {:induction false} FinishKeepsBoard(db: Database, did: Id, owner: Name, outcome: Result, eligibleAt: Time, ceiling: int)
    requires Board(db, ceiling) && Finish(db, did, owner, outcome, eligibleAt).Commit?
    ensures Board(Finish(db, did, owner, outcome, eligibleAt).db, ceiling)
  {
    var after := Finish(db, did, owner, outcome, eligibleAt).db;
    assert DeliveryRow(db.deliveries[did], ceiling);
    OneRelabels(db, did, after.deliveries[did], Target(outcome).1, ceiling);
    RelabelsKeepBoard(db, after, ceiling);
  }

  lemma FinishAdvances(db: Database, did: Id, owner: Name, outcome: Result, eligibleAt: Time)
    requires Finish(db, did, owner, outcome, eligibleAt).Commit?
    ensures Advances(db, Finish(db, did, owner, outcome, eligibleAt).db)
  {
  }

  lemma {:induction false} ReleaseHoldKeepsBoard(db: Database, did: Id, eligibleAt: Time, ceiling: int)
    requires Board(db, ceiling) && ReleaseHold(db, did, eligibleAt).Commit?
    ensures var after := ReleaseHold(db, did, eligibleAt).db; Board(after, ceiling) && Advances(db, after)
  {
    var after := ReleaseHold(db, did, eligibleAt).db;
    OneRelabels(db, did, after.deliveries[did], RouteState.Queued, ceiling);
    RelabelsKeepBoard(db, after, ceiling);
  }

  lemma {:induction false} ForceUncertainKeepsBoard(db: Database, did: Id, ceiling: int)
    requires Board(db, ceiling) && ForceUncertain(db, did).Commit?
    ensures Board(ForceUncertain(db, did).db, ceiling) && Advances(db, ForceUncertain(db, did).db)
  {
    var after := ForceUncertain(db, did).db;
    OneRelabels(db, did, after.deliveries[did], ManualReview, ceiling);
    RelabelsKeepBoard(db, after, ceiling);
  }

  lemma {:induction false} RetryLeasedKeepsBoard(db: Database, did: Id, eligibleAt: Time, ceiling: int)
    requires Board(db, ceiling) && RetryLeased(db, did, eligibleAt).Commit?
    ensures var after := RetryLeased(db, did, eligibleAt).db; Board(after, ceiling) && Advances(db, after)
  {
    var after := RetryLeased(db, did, eligibleAt).db;
    OneRelabels(db, did, after.deliveries[did], RouteState.Queued, ceiling);
    RelabelsKeepBoard(db, after, ceiling);
  }

  lemma {:induction false} RoutingKeepsBoard(db: Database, event: EventId, role: Option<Name>, ceiling: int)
    requires Board(db, ceiling) && FinishRouting(db, event, role).Commit?
    ensures var after := FinishRouting(db, event, role).db; Board(after, ceiling) && Advances(db, after)
  {
    var after := FinishRouting(db, event, role).db;
    forall d | d in after.deliveries ensures EventsOf(after, d) != {} {
      assert EventsOf(after, d) == EventsOf(db, d);
    }
    forall k | k in after.routes ensures RouteRow(after, k) {
      assert k in db.routes ==> RouteRow(db, k);
    }
    forall m | m in after.members ensures MemberRow(after, m) {
      assert MemberRow(db, m);
    }
    forall d | d in after.deliveries ensures WithKey(after.deliveries, after.deliveries[d].key) == {d} {
      assert WithKey(after.deliveries, after.deliveries[d].key) == WithKey(db.deliveries, db.deliveries[d].key);
    }
    RoutingKeepsEvents(db, event, role);
  }

  lemma {:induction false} RoutingKeepsEvents(db: Database, event: EventId, role: Option<Name>)
    requires EventRows(db) && FinishRouting(db, event, role).Commit?
    ensures EventRows(FinishRouting(db, event, role).db)
  {
  }

  /** An enqueue that commits returns a prior delivery unchanged or binds a new one. */
  lemma EnqueueCases(db: Database, id: Id, role: Name, events: set<EventId>, key: DeliveryKey, eligibleAt: Time)
    requires Enqueue(db, id, role, events, key, eligibleAt).Commit?
    ensures var after := Enqueue(db, id, role, events, key, eligibleAt).db;
      if WithKey(db.deliveries, key) != {} then after == db
      else && events != {} && id !in db.deliveries && (forall e :: e in events ==> Unassigned(db, role, e))
           && after == Bound(db, id, role, events, key, eligibleAt)
  {
  }

  lemma {:induction false} BindingKeepsBoard(db: Database, id: Id, role: Name, events: set<EventId>, key: DeliveryKey,
                                             eligibleAt: Time, ceiling: int)
    requires Board(db, ceiling) && 0 <= ceiling && WithKey(db.deliveries, key) == {} && events != {} && id !in db.deliveries
    requires forall e :: e in events ==> Unassigned(db, role, e)
    ensures Board(Bound(db, id, role, events, key, eligibleAt), ceiling)
  {
    BoundKeepsRoutes(db, id, role, events, key, eligibleAt, ceiling);
    BoundKeepsDeliveries(db, id, role, events, key, eligibleAt, ceiling);
    BoundKeepsEvents(db, id, role, events, key, eligibleAt);
  }

  lemma BindingAdvances(db: Database, id: Id, role: Name, events: set<EventId>, key: DeliveryKey, eligibleAt: Time)
    requires id !in db.deliveries
    ensures Advances(db, Bound(db, id, role, events, key, eligibleAt))
  {
  }

  lemma {:induction false} EnqueueKeepsBoard(db: Database, id: Id, role: Name, events: set<EventId>, key: DeliveryKey,
                                             eligibleAt: Time, after: Database, ceiling: int)
    requires Board(db, ceiling) && 0 <= ceiling
    requires Enqueue(db, id, role, events, key, eligibleAt).Commit?
    requires after == Enqueue(db, id, role, events, key, eligibleAt).db
    ensures Board(after, ceiling) && Advances(db, after)
  {
    EnqueueCases(db, id, role, events, key, eligibleAt);
    if WithKey(db.deliveries, key) == {} {
      BindingKeepsBoard(db, id, role, events, key, eligibleAt, ceiling);
      BindingAdvances(db, id, role, events, key, eligibleAt);
    }
  }

  lemma BoundKeepsEvents(db: Database, id: Id, role: Name, events: set<EventId>, key: DeliveryKey, eligibleAt: Time)
    requires EventRows(db)
    ensures EventRows(Bound(db, id, role, events, key, eligibleAt))
  {
  }

  lemma {:induction false} BoundKeepsRoutes(db: Database, id: Id, role: Name, events: set<EventId>, key: DeliveryKey,
                                            eligibleAt: Time, ceiling: int)
    requires RouteRows(db) && id !in db.deliveries
    requires forall e :: e in events ==> Unassigned(db, role, e)
    ensures var after := Bound(db, id, role, events, key, eligibleAt); RouteRows(after)
  {
  }

  lemma {:induction false} BoundKeepsDeliveries(db: Database, id: Id, role: Name, events: set<EventId>, key: DeliveryKey,
                                                eligibleAt: Time, ceiling: int)
    requires DeliveryRows(db, ceiling) && KeysUnique(db) && 0 <= ceiling && WithKey(db.deliveries, key) == {} && events != {}
    requires id !in db.deliveries
    ensures var after := Bound(db, id, role, events, key, eligibleAt); DeliveryRows(after, ceiling) && KeysUnique(after)
  {
    var after := Bound(db, id, role, events, key, eligibleAt);
    var e :| e in events;
    assert Membership(id, e, role) in after.members;
    assert e in EventsOf(after, id);
    forall d | d in db.deliveries
      ensures EventsOf(after, d) != {} && WithKey(after.deliveries, db.deliveries[d].key) == {d}
    {
      assert EventsOf(db, d) <= EventsOf(after, d);
      assert d !in WithKey(db.deliveries, key);
      assert WithKey(after.deliveries, db.deliveries[d].key) == WithKey(db.deliveries, db.deliveries[d].key);
    }
    assert WithKey(after.deliveries, key) == {id};
  }
}
