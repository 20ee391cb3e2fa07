/** Routing, deliveries and leases: the transactions of `store.py` that move events from
    observation to a finished delivery. */
module Deliveries {
  import opened Outcomes
  import opened Tables

  function FinishRouting(db: Database, event: EventId, role: Option<Name>): (tx: Tx<()>)
    ensures tx.Commit? ==> OnlyRouting(db, tx.db)
  {
    if event !in db.observed || !db.observed[event].enrichment.Pending? then Rollback(StateError(EventNotPending))
    else if role.Some? && RouteKey(event, role.value) in db.routes then Rollback(IntegrityError)
    else
      var seen := db.observed[event].(enrichment := if role.Some? then Routed else Ignored);
      Commit(db.(observed := db.observed[event := seen],
                 routes := if role.None? then db.routes
                           else db.routes[RouteKey(event, role.value) := Route(RouteState.Pending, None)]), ())
  }

  /** `SELECT ... WHERE rt.state='pending' AND rt.delivery_id IS NULL AND rt.role=?`, without
      its row limit. */
  function PendingRoutes(db: Database, role: Name): set<EventId> {
    set k | k in db.routes && k.role == role && db.routes[k] == Route(RouteState.Pending, None) :: k.event
  }

  function EventsOf(db: Database, did: Id): set<EventId> {
    set m | m in db.members && m.delivery == did :: m.event
  }

  function WithKey(deliveries: map<Id, Delivery>, key: DeliveryKey): set<Id> {
    set d | d in deliveries && deliveries[d].key == key
  }

  predicate Unassigned(db: Database, role: Name, event: EventId) {
    RouteKey(event, role) in db.routes && db.routes[RouteKey(event, role)] == Route(RouteState.Pending, None)
  }

  /** The events' pending routes are bound to the delivery and listed under it. */
  function Assigned(db: Database, id: Id, role: Name, events: set<EventId>): Database {
    db.(members := db.members + set e | e in events :: Membership(id, e, role),
        routes := map k | k in db.routes ::
          if k.role == role && k.event in events then Route(RouteState.Queued, Some(id)) else db.routes[k])
  }

  function Bound(db: Database, id: Id, role: Name, events: set<EventId>, key: DeliveryKey, eligibleAt: Time): Database {
    Assigned(SetDelivery(db, id, Delivery(key, role, DeliveryState.Queued, 0, eligibleAt, None, None)), id, role, events)
  }

  ghost function Enqueue(db: Database, id: Id, role: Name, events: set<EventId>, key: DeliveryKey, eligibleAt: Time): (tx: Tx<Id>)
    ensures tx.Commit? ==> OnlyRouting(db, tx.db)
  {
    if role == "" || events == {} || key == Other("") then Rollback(StateError(InvalidArgument))
    else if WithKey(db.deliveries, key) != {} then
      var prior :| prior in WithKey(db.deliveries, key);
      if db.deliveries[prior].role != role || EventsOf(db, prior) != events then Rollback(StateError(KeyReused))
      else Commit(db, prior)
    else if exists e :: e in events && !Unassigned(db, role, e) then Rollback(StateError(RouteUnavailable))
    else if id in db.deliveries then Rollback(IntegrityError)
    else Commit(Bound(db, id, role, events, key, eligibleAt), id)
  }

  function SetRoutes(db: Database, did: Id, state: RouteState): Database {
    db.(routes := map k | k in db.routes ::
      if db.routes[k].delivery == Some(did) then db.routes[k].(state := state) else db.routes[k])
  }

  function SetDelivery(db: Database, did: Id, row: Delivery): Database {
    db.(deliveries := db.deliveries[did := row])
  }

  // ---------- leases ----------

  predicate Overdue(d: Delivery, now: Time) {
    d.leaseUntil.Some? && d.leaseUntil.value <= now
  }

  function Overrun(db: Database, now: Time): set<Id> {
    set d | d in db.deliveries && db.deliveries[d].state.Running? && Overdue(db.deliveries[d], now)
  }

  predicate RoutedTo(db: Database, k: RouteKey, ids: set<Id>)
    requires k in db.routes
  {
    db.routes[k].delivery.Some? && db.routes[k].delivery.value in ids
  }

  /** Running deliveries whose lease ended are quarantined with their routes. */
  function Quarantined(db: Database, ids: set<Id>): Database {
    db.(deliveries := map d | d in db.deliveries ::
          if d in ids then db.deliveries[d].(state := DeliveryState.Uncertain, owner := None, leaseUntil := None)
          else db.deliveries[d],
        routes := map k | k in db.routes ::
          if RoutedTo(db, k, ids) then db.routes[k].(state := ManualReview) else db.routes[k])
  }

  /** Unstarted leases that ended go back to waiting; their routes are left as they are. */
  function Unleased(db: Database, now: Time): Database {
    db.(deliveries := map d | d in db.deliveries ::
      if db.deliveries[d].state.Leased? && Overdue(db.deliveries[d], now)
      then db.deliveries[d].(state := RetryWait, owner := None, leaseUntil := None) else db.deliveries[d])
  }

  function Swept(db: Database, now: Time): Database {
    Unleased(Quarantined(db, Overrun(db, now)), now)
  }

  predicate Waiting(d: Delivery) {
    d.state.Queued? || d.state.RetryWait?
  }

  predicate Exhausted(d: Delivery, ceiling: int) {
    Waiting(d) && d.attempt >= ceiling
  }

  function AtCeiling(db: Database, ceiling: int): set<Id> {
    set d | d in db.deliveries && Exhausted(db.deliveries[d], ceiling)
  }

  function Buried(db: Database, ids: set<Id>): Database {
    db.(deliveries := map d | d in db.deliveries ::
          if d in ids then db.deliveries[d].(state := DeliveryState.DeadLetter) else db.deliveries[d],
        routes := map k | k in db.routes ::
          if RoutedTo(db, k, ids) then db.routes[k].(state := RouteState.DeadLetter) else db.routes[k])
  }

  /** The table after the three sweeps that open every lease call: expired work, expired
      leases, and waiting deliveries at the retry ceiling. */
  function Cleared(db: Database, now: Time, ceiling: int): Database {
    var swept := Swept(db, now);
    Buried(swept, AtCeiling(swept, ceiling))
  }

  function Candidates(db: Database, now: Time): set<Id> {
    set d | d in db.deliveries && Waiting(db.deliveries[d]) && db.deliveries[d].eligibleAt <= now
  }

  /** `ORDER BY eligible_at, delivery_id`. */
  predicate Before(db: Database, a: Id, b: Id)
    requires a in db.deliveries && b in db.deliveries
  {
    || db.deliveries[a].eligibleAt < db.deliveries[b].eligibleAt
    || (db.deliveries[a].eligibleAt == db.deliveries[b].eligibleAt && a <= b)
  }

  predicate IsOldest(db: Database, ids: set<Id>, d: Id)
    requires forall i :: i in ids ==> i in db.deliveries
  {
    d in ids && forall i :: i in ids ==> Before(db, d, i)
  }

  lemma {:induction false} OldestExists(db: Database, ids: set<Id>)
    requires ids != {} && forall i :: i in ids ==> i in db.deliveries
    ensures exists d :: IsOldest(db, ids, d)
    decreases ids
  {
    var a :| a in ids;
    if ids == {a} {
      assert IsOldest(db, ids, a);
    } else {
      OldestExists(db, ids - {a});
      var b :| IsOldest(db, ids - {a}, b);
      var d := if Before(db, a, b) then a else b;
      forall i | i in ids ensures Before(db, d, i) {
        assert i == a || i in ids - {a};
      }
      assert IsOldest(db, ids, d);
    }
  }

  ghost function Oldest(db: Database, ids: set<Id>): Id
    requires ids != {} && forall i :: i in ids ==> i in db.deliveries
    ensures IsOldest(db, ids, Oldest(db, ids))
  {
    OldestExists(db, ids);
    var d :| IsOldest(db, ids, d);
    d
  }

  function TakenRow(row: Delivery, owner: Name, until: Time): Delivery {
    row.(state := DeliveryState.Leased, attempt := row.attempt + 1, owner := Some(owner), leaseUntil := Some(until))
  }

  function Taken(db: Database, did: Id, owner: Name, until: Time): Database
    requires did in db.deliveries
  {
    SetRoutes(SetDelivery(db, did, TakenRow(db.deliveries[did], owner, until)), did, RouteState.Leased)
  }

  ghost function Lease(db: Database, owner: Name, now: Time, seconds: int, ceiling: int): (tx: Tx<Option<Id>>)
    ensures tx.Commit? ==> OnlyRouting(db, tx.db)
  {
    if owner == "" || seconds <= 0 || ceiling <= 0 then Rollback(StateError(InvalidArgument))
    else
      var swept := Cleared(db, now, ceiling);
      if Candidates(swept, now) == {} then Commit(swept, None)
      else
        var did := Oldest(swept, Candidates(swept, now));
        Commit(Taken(swept, did, owner, now + seconds), Some(did))
  }

  function Start(db: Database, did: Id, owner: Name, now: Time): (tx: Tx<()>)
    ensures tx.Commit? ==> OnlyRouting(db, tx.db)
  {
    if did !in db.deliveries || !db.deliveries[did].state.Leased? || db.deliveries[did].owner != Some(owner)
       || db.deliveries[did].leaseUntil.None? || db.deliveries[did].leaseUntil.value <= now then
      Rollback(StateError(LeaseLost))
    else Commit(SetDelivery(db, did, db.deliveries[did].(state := DeliveryState.Running)), ())
  }

  datatype Result = Succeed | Retry | Hold | Bury | Quarantine

  function Target(outcome: Result): (DeliveryState, RouteState) {
    match outcome
    case Succeed => (DeliveryState.Succeeded, Delivered)
    case Retry => (RetryWait, RouteState.Queued)
    case Hold => (BudgetHeld, RouteState.Queued)
    case Bury => (DeliveryState.DeadLetter, RouteState.DeadLetter)
    case Quarantine => (DeliveryState.Uncertain, ManualReview)
  }

  function Finish(db: Database, did: Id, owner: Name, outcome: Result, eligibleAt: Time): (tx: Tx<()>)
    ensures tx.Commit? ==> OnlyRouting(db, tx.db)
  {
    if did !in db.deliveries || !(db.deliveries[did].state.Leased? || db.deliveries[did].state.Running?)
       || db.deliveries[did].owner != Some(owner) then
      Rollback(StateError(NotHeld))
    else
      var row := db.deliveries[did];
      if (if row.state.Leased? then outcome.Succeed? else outcome.Retry? || outcome.Hold?) then
        Rollback(StateError(UnsafeOutcome))
      else
        var attempt := if row.state.Leased? && outcome.Hold? then row.attempt - 1 else row.attempt;
        Commit(SetRoutes(SetDelivery(db, did, row.(state := Target(outcome).0, eligibleAt := eligibleAt, owner := None,
                                                   leaseUntil := None, attempt := attempt)), did, Target(outcome).1), ())
  }

  function ReleaseHold(db: Database, did: Id, eligibleAt: Time): (tx: Tx<()>)
    ensures tx.Commit? ==> OnlyRouting(db, tx.db)
  {
    if did !in db.deliveries || !db.deliveries[did].state.BudgetHeld? then Rollback(StateError(NotBudgetHeld))
    else Commit(SetRoutes(SetDelivery(db, did, db.deliveries[did].(state := RetryWait, eligibleAt := eligibleAt)),
                          did, RouteState.Queued), ())
  }

  function ForceUncertain(db: Database, did: Id): (tx: Tx<()>)
    ensures tx.Commit? ==> OnlyRouting(db, tx.db)
  {
    if did !in db.deliveries || !(db.deliveries[did].state.Leased? || db.deliveries[did].state.Running?) then
      Rollback(StateError(DeliveryNotActive))
    else Commit(SetRoutes(SetDelivery(db, did, db.deliveries[did].(state := DeliveryState.Uncertain, owner := None,
                                                                   leaseUntil := None)), did, ManualReview), ())
  }

  /** The delivery half of the recovery transactions. */
  function RetryLeased(db: Database, did: Id, eligibleAt: Time): (tx: Tx<()>)
    ensures tx.Commit? ==> OnlyRouting(db, tx.db)
  {
    if did !in db.deliveries || !db.deliveries[did].state.Leased? then Rollback(StateError(DeliveryNotLeased))
    else Commit(SetRoutes(SetDelivery(db, did, db.deliveries[did].(state := RetryWait, eligibleAt := eligibleAt,
                                                                   owner := None, leaseUntil := None)), did, RouteState.Queued), ())
  }
}
