/** The store: one SQLite connection whose methods each run one immediate transaction. A
    local copy of the database is the transaction; assigning it back is the commit, and
    returning without doing so is the rollback. */
module Stores {
  import opened Outcomes
  import opened Tables
  import Sessions
  import Budgets
  import Deliveries
  import Leases
  import Wakes
  import Feeds
  import Journals
  import opened Identity

  /** The unique columns a lookup by another column relies on. */
  ghost predicate Keyed(db: Database) {
    && (forall r :: r in db.reservations ==> Wakes.ReservationsOf(db.reservations, db.reservations[r].session) == {r})
    && (forall d :: d in db.deliveries ==> Deliveries.WithKey(db.deliveries, db.deliveries[d].key) == {d})
    && (forall o :: o in db.operations ==> Journals.WithKey(db.operations, db.operations[o].key) == {o})
  }

  lemma ReservationsKept(before: map<Id, Reservation>, after: map<Id, Reservation>)
    requires after.Keys == before.Keys && forall r :: r in before ==> after[r].session == before[r].session
    ensures forall s :: Wakes.ReservationsOf(after, s) == Wakes.ReservationsOf(before, s)
  {
  }

  lemma DeliveriesKept(before: map<Id, Delivery>, after: map<Id, Delivery>)
    requires after.Keys == before.Keys && forall d :: d in before ==> after[d].key == before[d].key
    ensures forall k :: Deliveries.WithKey(after, k) == Deliveries.WithKey(before, k)
  {
  }

  lemma OperationsKept(before: map<Id, Operation>, after: map<Id, Operation>)
    requires after.Keys == before.Keys && forall o :: o in before ==> after[o].key == before[o].key
    ensures forall k :: Journals.WithKey(after, k) == Journals.WithKey(before, k)
  {
  }

  class Store {
    var db: Database

    ghost predicate Valid()
      reads this
    {
      Keyed(db)
    }

    constructor ()
      ensures Valid() && db == EMPTY
    {
      db := EMPTY;
    }

    // ---------- sessions and workers ----------

    method CreateSession(id: Id, wakeId: Id, org: Name, role: Name, now: Time, ttl: int, globalCap: int)
      returns (r: Outcome<Id>)
      requires Valid()
      modifies this
      ensures Valid()
      ensures Executes(old(db), db, Sessions.Create(old(db), id, wakeId, org, role, now, ttl, globalCap), r)
    {
      if globalCap <= 0 || ttl <= 0 {
        return Raised(StateError(InvalidArgument));
      }
      var parents := Sessions.ActiveSessions(db.sessions, org);
      if exists s :: s in parents && db.sessions[s].role == role {
        return Raised(StateError(RoleBusy));
      }
      if |parents| + |Sessions.BusyWorkers(db.sessions, db.workers, org)| >= globalCap {
        return Raised(StateError(GlobalCapReached));
      }
      if id in db.sessions || exists s :: s in db.sessions && db.sessions[s].wakeId == wakeId {
        return Raised(IntegrityError);
      }
      db := db.(sessions := db.sessions[id := Session(wakeId, org, role, now + ttl, SessionState.Active)]);
      return Ok(id);
    }

    method RevokeSession(sid: Id) returns (r: Outcome<()>)
      requires Valid()
      modifies this
      ensures Valid()
      ensures Executes(old(db), db, Sessions.Revoke(old(db), sid), r)
    {
      if Sessions.BusyOf(db.workers, sid) != {} {
        return Raised(StateError(WorkersActive));
      }
      if !Sessions.IsActive(db, sid) {
        return Raised(StateError(SessionInactive));
      }
      db := Sessions.SetSession(db, sid, Revoked);
      return Ok(());
    }

    method FinishSession(sid: Id) returns (r: Outcome<()>)
      requires Valid()
      modifies this
      ensures Valid()
      ensures Executes(old(db), db, Sessions.Finish(old(db), sid), r)
    {
      var workers := Sessions.BusyOf(db.workers, sid);
      var budget := Sessions.ActiveReservationsOf(db, sid);
      if workers != {} || budget != {} {
        return Raised(StateError(WorkersOrBudgetActive));
      }
      if !Sessions.IsActive(db, sid) {
        return Raised(StateError(SessionInactive));
      }
      db := Sessions.SetSession(db, sid, Finished);
      return Ok(());
    }

    method ForceTerminateSession(sid: Id, expired: bool) returns (r: Outcome<()>)
      requires Valid()
      modifies this
      ensures Valid()
      ensures Executes(old(db), db, Sessions.ForceTerminate(old(db), sid, expired), r)
    {
      var tx := db;
      if !Sessions.IsActive(tx, sid) {
        return Raised(StateError(SessionInactive));
      }
      tx := Sessions.FailBusy(tx, sid);
      tx := Sessions.HoldReservations(tx, sid);
      tx := Sessions.SetSession(tx, sid, if expired then Expired else Revoked);
      tx := Sessions.EndWakes(tx, sid, WakeState.Terminated);
      ReservationsKept(db.reservations, tx.reservations);
      db := tx;
      return Ok(());
    }

    method ReapExpiredSession(sid: Id, now: Time) returns (r: Outcome<()>)
      requires Valid()
      modifies this
      ensures Valid()
      ensures Executes(old(db), db, Sessions.Reap(old(db), sid, now), r)
    {
      var tx := db;
      if !Sessions.IsActive(tx, sid) || tx.sessions[sid].expiresAt > now {
        return Raised(StateError(SessionNotExpired));
      }
      tx := Sessions.FailBusy(tx, sid);
      tx := Sessions.HoldReservations(tx, sid);
      tx := Sessions.SetSession(tx, sid, Expired);
      ReservationsKept(db.reservations, tx.reservations);
      db := tx;
      return Ok(());
    }

    method ReserveWorker(id: Id, sid: Id, now: Time, cumulativeCap: int, concurrentCap: int, globalCap: int)
      returns (r: Outcome<Id>)
      requires Valid()
      modifies this
      ensures Valid()
      ensures Executes(old(db), db, Sessions.ReserveWorker(old(db), id, sid, now, cumulativeCap, concurrentCap, globalCap), r)
    {
      if !Sessions.Live(db, sid, now) {
        return Raised(StateError(SessionInactive));
      }
      var total := |Sessions.AttemptsOf(db.workers, sid)|;
      var active := |Sessions.BusyOf(db.workers, sid)|;
      if total >= cumulativeCap {
        return Raised(StateError(CumulativeCapReached));
      }
      if active >= concurrentCap {
        return Raised(StateError(ConcurrentCapReached));
      }
      var org := db.sessions[sid].org;
      if |Sessions.ActiveSessions(db.sessions, org)| + |Sessions.BusyWorkers(db.sessions, db.workers, org)| >= globalCap {
        return Raised(StateError(GlobalCapReached));
      }
      if id in db.workers || exists w :: w in db.workers && db.workers[w].session == sid && db.workers[w].sequence == total + 1 {
        return Raised(IntegrityError);
      }
      db := db.(workers := db.workers[id := Worker(sid, total + 1, Accepted)]);
      return Ok(id);
    }

    /** The `UPDATE worker_attempt` statements a worker run issues, with no state guard. */
    method SetWorker(id: Id, state: WorkerState) returns (r: Outcome<()>)
      requires Valid()
      modifies this
      ensures Valid()
      ensures Executes(old(db), db, Sessions.SetWorker(old(db), id, state), r)
    {
      if id in db.workers {
        db := db.(workers := db.workers[id := db.workers[id].(state := state)]);
      }
      return Ok(());
    }

    // ---------- budgets ----------

    method ReserveBudget(id: Id, sid: Id, now: Time, epoch: Name, requested: int, asks: seq<Budgets.Ask>)
      returns (r: Outcome<Id>)
      requires Valid()
      modifies this
      ensures Valid()
      ensures Executes(old(db), db, Budgets.Reserve(old(db), id, sid, now, epoch, requested, asks), r)
    {
      if requested <= 0 {
        return Raised(StateError(InvalidArgument));
      }
      var tx := db;
      if !Sessions.Live(tx, sid, now) {
        return Raised(StateError(SessionInactive));
      }
      if !Budgets.AsksMatch(tx.sessions[sid], asks) {
        return Raised(StateError(BucketMismatch));
      }
      var buckets := tx.buckets;
      for i := 0 to |asks|
        invariant Budgets.Opened(buckets, epoch, requested, asks[i..]) == Budgets.Opened(db.buckets, epoch, requested, asks)
        invariant db == old(db)
      {
        var ask := asks[i];
        assert asks[i..][0] == ask && asks[i..][1..] == asks[i + 1..];
        if ask.limit <= 0 {
          return Raised(StateError(InvalidArgument));
        }
        var key := BucketKey(ask.scope, ask.subject, epoch);
        if key !in buckets {
          buckets := buckets[key := Bucket(ask.limit, 0, 0)];
        }
        var row := buckets[key];
        if row.limit != ask.limit {
          return Raised(StateError(LimitChanged));
        }
        if row.consumed + row.reserved + requested > row.limit {
          return Raised(StateError(BudgetHold));
        }
      }
      ghost var widened := buckets;
      for i := 0 to |asks|
        invariant Budgets.Charged(buckets, epoch, requested, asks[i..]) == Budgets.Charged(widened, epoch, requested, asks)
        invariant db == old(db)
      {
        assert asks[i..][0] == asks[i] && asks[i..][1..] == asks[i + 1..];
        buckets := Budgets.Post(buckets, BucketKey(asks[i].scope, asks[i].subject, epoch), requested, 0);
      }
      if id in tx.reservations || exists q :: q in tx.reservations && tx.reservations[q].session == sid {
        return Raised(IntegrityError);
      }
      var row := Reservation(sid, epoch, requested, ReservationState.Active);
      tx := tx.(buckets := buckets, reservations := tx.reservations[id := row]);
      forall q | q in tx.reservations
        ensures Wakes.ReservationsOf(tx.reservations, tx.reservations[q].session) == {q}
      {
        if q != id {
          assert Wakes.ReservationsOf(tx.reservations, tx.reservations[q].session)
              == Wakes.ReservationsOf(db.reservations, db.reservations[q].session);
        }
      }
      db := tx;
      return Ok(id);
    }

    /** Charges known usage even when it crossed a boundary: the commit stands and the call
        raises after it. */
    method SettleBudget(id: Id, actual: int) returns (r: Outcome<()>)
      requires Valid()
      modifies this
      ensures Valid()
      ensures var tx := Budgets.Settle(old(db), id, actual);
        && db == After(old(db), tx)
        && r == if tx.Rollback? then Raised(tx.error) else if tx.value then Raised(StateError(BudgetBoundary)) else Ok(())
    {
      if actual < 0 {
        return Raised(StateError(InvalidArgument));
      }
      var tx := db;
      if id !in tx.reservations || !tx.reservations[id].state.Active? {
        return Raised(StateError(ReservationInactive));
      }
      var row := tx.reservations[id];
      var uncertain := actual > row.tokens;
      if row.session !in tx.sessions {
        return Raised(StateError(SessionInactive));
      }
      var org := Budgets.KeyOf(tx.sessions[row.session], OrgScope, row.epoch);
      var role := Budgets.KeyOf(tx.sessions[row.session], RoleScope, row.epoch);
      if !Budgets.Covers(tx.buckets, org, row.tokens) || !Budgets.Covers(tx.buckets, role, row.tokens) {
        return Raised(StateError(BucketInconsistent));
      }
      if Budgets.Overruns(tx.buckets, org, actual) || Budgets.Overruns(tx.buckets, role, actual) {
        uncertain := true;
      }
      tx := tx.(buckets := Budgets.Post(tx.buckets, org, -row.tokens, actual));
      tx := tx.(buckets := Budgets.Post(tx.buckets, role, -row.tokens, actual));
      row := row.(state := if uncertain then ReservationState.Uncertain else Settled);
      tx := tx.(reservations := tx.reservations[id := row]);
      ReservationsKept(db.reservations, tx.reservations);
      db := tx;
      if uncertain {
        return Raised(StateError(BudgetBoundary));
      }
      return Ok(());
    }

    method MarkBudgetUncertain(id: Id) returns (r: Outcome<()>)
      requires Valid()
      modifies this
      ensures Valid()
      ensures Executes(old(db), db, Budgets.MarkUncertain(old(db), id), r)
    {
      if id !in db.reservations || !db.reservations[id].state.Active? {
        return Raised(StateError(ReservationInactive));
      }
      var reservations := db.reservations[id := db.reservations[id].(state := ReservationState.Uncertain)];
      ReservationsKept(db.reservations, reservations);
      db := db.(reservations := reservations);
      return Ok(());
    }

    /** `release_budget` on a transaction; the two `UPDATE`s are guarded one by one. */
    method ReleaseIn(tx: Database, id: Id) returns (out: Tx<()>)
      ensures out == Budgets.Release(tx, id)
    {
      if id !in tx.reservations || !tx.reservations[id].state.Active? {
        return Rollback(StateError(ReservationInactive));
      }
      var row := tx.reservations[id];
      if row.session !in tx.sessions {
        return Rollback(StateError(SessionInactive));
      }
      var work := tx;
      var org := Budgets.KeyOf(tx.sessions[row.session], OrgScope, row.epoch);
      var role := Budgets.KeyOf(tx.sessions[row.session], RoleScope, row.epoch);
      if !Budgets.Covers(work.buckets, org, row.tokens) {
        return Rollback(StateError(BucketInconsistent));
      }
      work := work.(buckets := Budgets.Post(work.buckets, org, -row.tokens, 0));
      if !Budgets.Covers(work.buckets, role, row.tokens) {
        return Rollback(StateError(BucketInconsistent));
      }
      work := work.(buckets := Budgets.Post(work.buckets, role, -row.tokens, 0));
      work := work.(reservations := work.reservations[id := row.(state := Released)]);
      return Commit(work, ());
    }

    method ReleaseBudget(id: Id) returns (r: Outcome<()>)
      requires Valid()
      modifies this
      ensures Valid()
      ensures Executes(old(db), db, Budgets.Release(old(db), id), r)
    {
      var tx := ReleaseIn(db, id);
      if tx.Rollback? {
        return Raised(tx.error);
      }
      ReservationsKept(db.reservations, tx.db.reservations);
      db := tx.db;
      return Ok(());
    }

    // ---------- routing and deliveries ----------

    method FinishEventRouting(event: EventId, role: Option<Name>) returns (r: Outcome<()>)
      requires Valid()
      modifies this
      ensures Valid()
      ensures Executes(old(db), db, Deliveries.FinishRouting(old(db), event, role), r)
    {
      var tx := db;
      if event !in tx.observed || !tx.observed[event].enrichment.Pending? {
        return Raised(StateError(EventNotPending));
      }
      if role.Some? {
        var key := RouteKey(event, role.value);
        if key in tx.routes {
          return Raised(IntegrityError);
        }
        tx := tx.(routes := tx.routes[key := Route(RouteState.Pending, None)]);
      }
      var seen := tx.observed[event].(enrichment := if role.Some? then Routed else Ignored);
      db := tx.(observed := tx.observed[event := seen]);
      return Ok(());
    }

    /** Every event must have a pending, unbound route for the role. */
    method RoutesAreFree(tx: Database, role: Name, events: set<EventId>) returns (free: bool)
      ensures free <==> forall e :: e in events ==> Deliveries.Unassigned(tx, role, e)
    {
      var todo := events;
      while todo != {}
        invariant todo <= events
        invariant forall e :: e in events && e !in todo ==> Deliveries.Unassigned(tx, role, e)
        decreases |todo|
      {
        var e :| e in todo;
        if !Deliveries.Unassigned(tx, role, e) {
          return false;
        }
        todo := todo - {e};
      }
      return true;
    }

    static lemma AssignOne(start: Database, id: Id, role: Name, done: set<EventId>, e: EventId)
      requires e !in done && Deliveries.Unassigned(start, role, e)
      ensures var before := Deliveries.Assigned(start, id, role, done);
        && RouteKey(e, role) in before.routes
        && before.(members := before.members + {Membership(id, e, role)},
                   routes := before.routes[RouteKey(e, role) := Route(RouteState.Queued, Some(id))])
           == Deliveries.Assigned(start, id, role, done + {e})
    {
    }

    /** Bind the events' routes to the delivery, one by one. */
    method AssignRoutes(start: Database, id: Id, role: Name, events: set<EventId>) returns (tx: Database)
      requires forall e :: e in events ==> Deliveries.Unassigned(start, role, e)
      ensures tx == Deliveries.Assigned(start, id, role, events)
    {
      tx := start;
      var todo := events;
      assert tx.members == Deliveries.Assigned(start, id, role, {}).members;
      assert tx.routes == Deliveries.Assigned(start, id, role, {}).routes;
      assert events - todo == {};
      while todo != {}
        invariant todo <= events
        invariant tx == Deliveries.Assigned(start, id, role, events - todo)
        decreases |todo|
      {
        var e :| e in todo;
        AssignOne(start, id, role, events - todo, e);
        tx := tx.(members := tx.members + {Membership(id, e, role)},
                  routes := tx.routes[RouteKey(e, role) := Route(RouteState.Queued, Some(id))]);
        assert events - (todo - {e}) == (events - todo) + {e};
        todo := todo - {e};
      }
      assert events - todo == events;
    }

    method EnqueueDelivery(id: Id, role: Name, eventIds: seq<EventId>, key: DeliveryKey, eligibleAt: Time)
      returns (r: Outcome<Id>)
      requires Valid()
      modifies this
      ensures Valid()
      ensures Executes(old(db), db, Deliveries.Enqueue(old(db), id, role, (set e | e in eventIds), key, eligibleAt), r)
    {
      var unique := set e | e in eventIds;
      if role == "" || unique == {} || key == Other("") {
        return Raised(StateError(InvalidArgument));
      }
      var existing := Deliveries.WithKey(db.deliveries, key);
      if existing != {} {
        var prior :| prior in existing;
        assert existing == {prior};
        if db.deliveries[prior].role != role || Deliveries.EventsOf(db, prior) != unique {
          return Raised(StateError(KeyReused));
        }
        return Ok(prior);
      }
      var free := RoutesAreFree(db, role, unique);
      if !free {
        return Raised(StateError(RouteUnavailable));
      }
      if id in db.deliveries {
        return Raised(IntegrityError);
      }
      var row := Delivery(key, role, DeliveryState.Queued, 0, eligibleAt, None, None);
      var inserted := Deliveries.SetDelivery(db, id, row);
      var tx := AssignRoutes(inserted, id, role, unique);
      NewKey(db.deliveries, id, row);
      db := tx;
      return Ok(id);
    }

    static lemma NewKey(before: map<Id, Delivery>, id: Id, row: Delivery)
      requires id !in before && Deliveries.WithKey(before, row.key) == {}
      requires forall d :: d in before ==> Deliveries.WithKey(before, before[d].key) == {d}
      ensures forall d :: d in before[id := row] ==> Deliveries.WithKey(before[id := row], before[id := row][d].key) == {d}
    {
    }

    /** Quarantine every expired running delivery, one by one. */
    method QuarantineExpired(start: Database, now: Time) returns (tx: Database)
      ensures tx == Deliveries.Quarantined(start, Deliveries.Overrun(start, now))
    {
      tx := start;
      var expired := Deliveries.Overrun(start, now);
      var todo := expired;
      QuarantineNone(start);
      assert expired - todo == {};
      while todo != {}
        invariant todo <= expired
        invariant tx == Deliveries.Quarantined(start, expired - todo)
        decreases |todo|
      {
        var d :| d in todo;
        var done := expired - todo;
        var row := tx.deliveries[d];
        tx := Deliveries.SetDelivery(tx, d, row.(state := DeliveryState.Uncertain, owner := None, leaseUntil := None));
        tx := Deliveries.SetRoutes(tx, d, ManualReview);
        QuarantineOne(start, done, d);
        assert expired - (todo - {d}) == done + {d};
        todo := todo - {d};
      }
      assert expired - todo == expired;
    }

    static lemma QuarantineNone(start: Database)
      ensures Deliveries.Quarantined(start, {}) == start
    {
    }

    static lemma QuarantineOne(start: Database, done: set<Id>, d: Id)
      requires d in start.deliveries && d !in done
      ensures var before := Deliveries.Quarantined(start, done);
        var row := before.deliveries[d].(state := DeliveryState.Uncertain, owner := None, leaseUntil := None);
        Deliveries.SetRoutes(Deliveries.SetDelivery(before, d, row), d, ManualReview) == Deliveries.Quarantined(start, done + {d})
    {
    }

    /** Dead-letter every waiting delivery at the retry ceiling, one by one. */
    method BuryExhausted(start: Database, ceiling: int) returns (tx: Database)
      ensures tx == Deliveries.Buried(start, Deliveries.AtCeiling(start, ceiling))
    {
      tx := start;
      var exhausted := Deliveries.AtCeiling(start, ceiling);
      var todo := exhausted;
      BuryNone(start);
      assert exhausted - todo == {};
      while todo != {}
        invariant todo <= exhausted
        invariant tx == Deliveries.Buried(start, exhausted - todo)
        decreases |todo|
      {
        var d :| d in todo;
        var done := exhausted - todo;
        tx := Deliveries.SetDelivery(tx, d, tx.deliveries[d].(state := DeliveryState.DeadLetter));
        tx := Deliveries.SetRoutes(tx, d, RouteState.DeadLetter);
        BuryOne(start, done, d);
        assert exhausted - (todo - {d}) == done + {d};
        todo := todo - {d};
      }
      assert exhausted - todo == exhausted;
    }

    static lemma BuryNone(start: Database)
      ensures Deliveries.Buried(start, {}) == start
    {
    }

    static lemma BuryOne(start: Database, done: set<Id>, d: Id)
      requires d in start.deliveries && d !in done
      ensures var before := Deliveries.Buried(start, done);
        var row := before.deliveries[d].(state := DeliveryState.DeadLetter);
        Deliveries.SetRoutes(Deliveries.SetDelivery(before, d, row), d, RouteState.DeadLetter) == Deliveries.Buried(start, done + {d})
    {
    }

    /** `ORDER BY eligible_at, delivery_id LIMIT 1`. */
    method PickOldest(tx: Database, ids: set<Id>) returns (d: Id)
      requires ids != {} && forall i :: i in ids ==> i in tx.deliveries
      ensures d == Deliveries.Oldest(tx, ids)
    {
      d :| d in ids;
      var todo := ids - {d};
      while todo != {}
        invariant d in ids && todo <= ids
        invariant forall i :: i in ids && i !in todo ==> Deliveries.Before(tx, d, i)
        decreases |todo|
      {
        var next :| next in todo;
        if !Deliveries.Before(tx, d, next) {
          forall i | i in ids && i !in todo ensures Deliveries.Before(tx, next, i) {
            assert Deliveries.Before(tx, d, i);
          }
          d := next;
        }
        todo := todo - {next};
      }
      assert Deliveries.IsOldest(tx, ids, d);
      assert Deliveries.Before(tx, Deliveries.Oldest(tx, ids), d) && Deliveries.Before(tx, d, Deliveries.Oldest(tx, ids));
    }

    method LeaseDelivery(owner: Name, now: Time, seconds: int, ceiling: int) returns (r: Outcome<Option<Id>>)
      requires Valid()
      modifies this
      ensures Valid()
      ensures Executes(old(db), db, Deliveries.Lease(old(db), owner, now, seconds, ceiling), r)
      ensures r.Ok? <==> owner != "" && seconds > 0 && ceiling > 0
      ensures r.Ok? ==> Leases.Moves(old(db), db, now, now + seconds, owner, ceiling, r.value)
    {
      if owner == "" || seconds <= 0 || ceiling <= 0 {
        return Raised(StateError(InvalidArgument));
      }
      Leases.LeaseMoves(db, owner, now, seconds, ceiling);
      var tx := QuarantineExpired(db, now);
      tx := Deliveries.Unleased(tx, now);
      tx := BuryExhausted(tx, ceiling);
      assert tx == Deliveries.Cleared(db, now, ceiling);
      DeliveriesKept(db.deliveries, tx.deliveries);
      var ids := Deliveries.Candidates(tx, now);
      if ids == {} {
        db := tx;
        return Ok(None);
      }
      var did := PickOldest(tx, ids);
      var taken := Deliveries.Taken(tx, did, owner, now + seconds);
      DeliveriesKept(tx.deliveries, taken.deliveries);
      db := taken;
      return Ok(Some(did));
    }

    method StartDelivery(did: Id, owner: Name, now: Time) returns (r: Outcome<()>)
      requires Valid()
      modifies this
      ensures Valid()
      ensures Executes(old(db), db, Deliveries.Start(old(db), did, owner, now), r)
    {
      if did !in db.deliveries {
        return Raised(StateError(LeaseLost));
      }
      var row := db.deliveries[did];
      if !row.state.Leased? || row.owner != Some(owner) || row.leaseUntil.None? || row.leaseUntil.value <= now {
        return Raised(StateError(LeaseLost));
      }
      var tx := Deliveries.SetDelivery(db, did, row.(state := DeliveryState.Running));
      DeliveriesKept(db.deliveries, tx.deliveries);
      db := tx;
      return Ok(());
    }

    method FinishDelivery(did: Id, owner: Name, outcome: Deliveries.Result, eligibleAt: Time) returns (r: Outcome<()>)
      requires Valid()
      modifies this
      ensures Valid()
      ensures Executes(old(db), db, Deliveries.Finish(old(db), did, owner, outcome, eligibleAt), r)
    {
      var tx := db;
      if did !in tx.deliveries {
        return Raised(StateError(NotHeld));
      }
      var row := tx.deliveries[did];
      if !(row.state.Leased? || row.state.Running?) || row.owner != Some(owner) {
        return Raised(StateError(NotHeld));
      }
      var allowed := if row.state.Leased? then {Deliveries.Retry, Deliveries.Hold, Deliveries.Bury, Deliveries.Quarantine}
                     else {Deliveries.Succeed, Deliveries.Bury, Deliveries.Quarantine};
      if outcome !in allowed {
        return Raised(StateError(UnsafeOutcome));
      }
      var adjustment := if row.state.Leased? && outcome == Deliveries.Hold then -1 else 0;
      var (deliveryState, routeState) := Deliveries.Target(outcome);
      tx := Deliveries.SetDelivery(tx, did, row.(state := deliveryState, eligibleAt := eligibleAt, owner := None,
                                                 leaseUntil := None, attempt := row.attempt + adjustment));
      tx := Deliveries.SetRoutes(tx, did, routeState);
      DeliveriesKept(db.deliveries, tx.deliveries);
      db := tx;
      return Ok(());
    }

    method ReleaseBudgetHold(did: Id, eligibleAt: Time) returns (r: Outcome<()>)
      requires Valid()
      modifies this
      ensures Valid()
      ensures Executes(old(db), db, Deliveries.ReleaseHold(old(db), did, eligibleAt), r)
    {
      var tx := db;
      if did !in tx.deliveries || !tx.deliveries[did].state.BudgetHeld? {
        return Raised(StateError(NotBudgetHeld));
      }
      tx := Deliveries.SetDelivery(tx, did, tx.deliveries[did].(state := RetryWait, eligibleAt := eligibleAt));
      tx := Deliveries.SetRoutes(tx, did, RouteState.Queued);
      DeliveriesKept(db.deliveries, tx.deliveries);
      db := tx;
      return Ok(());
    }

    method ForceDeliveryUncertain(did: Id) returns (r: Outcome<()>)
      requires Valid()
      modifies this
      ensures Valid()
      ensures Executes(old(db), db, Deliveries.ForceUncertain(old(db), did), r)
    {
      var tx := db;
      if did !in tx.deliveries || !(tx.deliveries[did].state.Leased? || tx.deliveries[did].state.Running?) {
        return Raised(StateError(DeliveryNotActive));
      }
      var row := tx.deliveries[did].(state := DeliveryState.Uncertain, owner := None, leaseUntil := None);
      tx := Deliveries.SetDelivery(tx, did, row);
      tx := Deliveries.SetRoutes(tx, did, ManualReview);
      DeliveriesKept(db.deliveries, tx.deliveries);
      db := tx;
      return Ok(());
    }

    // ---------- wakes and processes ----------

    method PrepareWake(wakeId: Id, sid: Id, delivery: Option<Id>, reservation: Id, socket: string, reason: string)
      returns (r: Outcome<()>)
      requires Valid()
      modifies this
      ensures Valid()
      ensures Executes(old(db), db, Wakes.Prepare(old(db), wakeId, sid, delivery, reservation, socket, reason), r)
    {
      if reason == "" || !Wakes.Absolute(socket) {
        return Raised(StateError(InvalidArgument));
      }
      var broken := wakeId in db.wakes || sid !in db.sessions || reservation !in db.reservations
                    || (delivery.Some? && delivery.value !in db.deliveries);
      var taken := exists w :: w in db.wakes && (db.wakes[w].session == sid || db.wakes[w].reservation == reservation
                                                 || db.wakes[w].socket == socket);
      if broken || taken {
        return Raised(IntegrityError);
      }
      db := db.(wakes := db.wakes[wakeId := Wake(sid, delivery, reservation, socket, Prepared)]);
      return Ok(());
    }

    method MarkWakeRunning(wakeId: Id) returns (r: Outcome<()>)
      requires Valid()
      modifies this
      ensures Valid()
      ensures Executes(old(db), db, Wakes.MarkRunning(old(db), wakeId), r)
    {
      if wakeId !in db.wakes || !db.wakes[wakeId].state.Prepared? {
        return Raised(StateError(WakeNotPrepared));
      }
      db := db.(wakes := db.wakes[wakeId := db.wakes[wakeId].(state := WakeState.Running)]);
      return Ok(());
    }

    method FinishWake(wakeId: Id, state: WakeState) returns (r: Outcome<()>)
      requires Valid()
      modifies this
      ensures Valid()
      ensures Executes(old(db), db, Wakes.Finish(old(db), wakeId, state), r)
    {
      if state.Prepared? || state.Running? {
        return Raised(StateError(InvalidArgument));
      }
      if wakeId !in db.wakes || !Sessions.LiveWake(db.wakes[wakeId]) {
        return Raised(StateError(WakeNotActive));
      }
      db := db.(wakes := db.wakes[wakeId := db.wakes[wakeId].(state := state)]);
      return Ok(());
    }

    /** The supervisor's own `UPDATE` when a process group cannot be proved dead. */
    method QuarantineWake(sid: Id)
      requires Valid()
      modifies this
      ensures Valid()
      ensures db == Sessions.EndWakes(old(db), sid, WakeState.Uncertain)
    {
      db := Sessions.EndWakes(db, sid, WakeState.Uncertain);
    }

    method RecordProcess(key: ProcessKey, sid: Id, pid: int, pgid: int, birth: string) returns (r: Outcome<()>)
      requires Valid()
      modifies this
      ensures Valid()
      ensures Executes(old(db), db, Wakes.Record(old(db), key, sid, pid, pgid, birth), r)
    {
      if pid <= 0 || pgid <= 0 || birth == "" {
        return Raised(StateError(InvalidArgument));
      }
      if key in db.processes || sid !in db.sessions || (key.WorkerOf? && key.attempt !in db.workers) {
        return Raised(IntegrityError);
      }
      if exists p :: p in db.processes && db.processes[p].pid == pid && db.processes[p].birth == birth {
        return Raised(IntegrityError);
      }
      db := db.(processes := db.processes[key := Process(sid, pid, birth, ProcessState.Running)]);
      return Ok(());
    }

    method FinishProcess(key: ProcessKey, state: ProcessState) returns (r: Outcome<()>)
      requires Valid()
      modifies this
      ensures Valid()
      ensures Executes(old(db), db, Wakes.EndProcess(old(db), key, state), r)
    {
      if state.Running? {
        return Raised(StateError(InvalidArgument));
      }
      if key !in db.processes || !db.processes[key].state.Running? {
        return Raised(StateError(ProcessInactive));
      }
      db := db.(processes := db.processes[key := db.processes[key].(state := state)]);
      return Ok(());
    }

    method ReleaseReservationFor(tx: Database, sid: Id) returns (out: Tx<()>)
      requires Keyed(tx)
      ensures out == Wakes.ReleaseFor(tx, sid)
    {
      var rows := Wakes.ReservationsOf(tx.reservations, sid);
      if rows == {} {
        return Commit(tx, ());
      }
      var row :| row in rows;
      assert rows == {row};
      out := ReleaseIn(tx, row);
    }

    method RetryLeasedDelivery(tx: Database, did: Id, eligibleAt: Time) returns (out: Tx<()>)
      ensures out == Deliveries.RetryLeased(tx, did, eligibleAt)
    {
      if did !in tx.deliveries || !tx.deliveries[did].state.Leased? {
        return Rollback(StateError(DeliveryNotLeased));
      }
      var row := tx.deliveries[did].(state := RetryWait, eligibleAt := eligibleAt, owner := None, leaseUntil := None);
      var work := Deliveries.SetDelivery(tx, did, row);
      work := Deliveries.SetRoutes(work, did, RouteState.Queued);
      return Commit(work, ());
    }

    static lemma ReleaseForKeeps(tx: Database, sid: Id)
      requires Keyed(tx) && Wakes.ReleaseFor(tx, sid).Commit?
      ensures Keyed(Wakes.ReleaseFor(tx, sid).db)
    {
    }

    static lemma RetryKeeps(tx: Database, delivery: Option<Id>, eligibleAt: Option<Time>)
      requires Keyed(tx) && Wakes.RetryIfBound(tx, delivery, eligibleAt).Commit?
      ensures Keyed(Wakes.RetryIfBound(tx, delivery, eligibleAt).db)
    {
    }

    /** The release and the retry that both recovery transactions share. */
    method ReleaseAndRetry(start: Database, sid: Id, delivery: Option<Id>, eligibleAt: Option<Time>) returns (out: Tx<()>)
      requires Keyed(start)
      ensures out == Wakes.ReleaseAndRetry(start, sid, delivery, eligibleAt)
      ensures out.Commit? ==> Keyed(out.db)
    {
      var released := ReleaseReservationFor(start, sid);
      if released.Rollback? {
        return released;
      }
      ReleaseForKeeps(start, sid);
      if delivery.None? {
        return released;
      }
      if eligibleAt.None? {
        return Rollback(StateError(InvalidArgument));
      }
      out := RetryLeasedDelivery(released.db, delivery.value, eligibleAt.value);
      if out.Commit? {
        RetryKeeps(released.db, delivery, eligibleAt);
      }
    }

    /** No row of any table names the session: it stopped before it prepared its wake. */
    method HasRows(sid: Id) returns (found: bool)
      ensures found <==> Wakes.WakesOf(db.wakes, sid) != {} || !Wakes.Bare(db, sid)
    {
      var wakes := Wakes.WakesOf(db.wakes, sid);
      var processes := Wakes.ProcessesOf(db.processes, sid);
      var workers := Sessions.AttemptsOf(db.workers, sid);
      return wakes != {} || processes != {} || workers != {};
    }

    method RecoverOrphanSession(sid: Id, delivery: Option<Id>, eligibleAt: Option<Time>) returns (r: Outcome<()>)
      requires Valid()
      modifies this
      ensures Valid()
      ensures Executes(old(db), db, Wakes.RecoverOrphan(old(db), sid, delivery, eligibleAt), r)
    {
      var found := HasRows(sid);
      if !Sessions.IsActive(db, sid) || found {
        return Raised(StateError(NotAnOrphan));
      }
      var released := ReleaseAndRetry(db, sid, delivery, eligibleAt);
      if released.Rollback? {
        return Raised(released.error);
      }
      db := Sessions.SetSession(released.db, sid, Revoked);
      return Ok(());
    }

    method RecoverPreparedWake(wakeId: Id, eligibleAt: Time) returns (r: Outcome<()>)
      requires Valid()
      modifies this
      ensures Valid()
      ensures Executes(old(db), db, Wakes.RecoverPrepared(old(db), wakeId, eligibleAt), r)
    {
      if wakeId !in db.wakes || !db.wakes[wakeId].state.Prepared? {
        return Raised(StateError(WakeNotPrepared));
      }
      var wake := db.wakes[wakeId];
      var processes := Wakes.ProcessesOf(db.processes, wake.session);
      var workers := Sessions.AttemptsOf(db.workers, wake.session);
      if !Sessions.IsActive(db, wake.session) || processes != {} || workers != {} {
        return Raised(StateError(WakeNotProcessFree));
      }
      var released := ReleaseAndRetry(db, wake.session, wake.delivery, Some(eligibleAt));
      if released.Rollback? {
        return Raised(released.error);
      }
      var tx := released.db;
      tx := tx.(wakes := tx.wakes[wakeId := wake.(state := WakeState.Failed)]);
      db := Sessions.SetSession(tx, wake.session, Revoked);
      return Ok(());
    }

    // ---------- source snapshots ----------

    method OpenCheckpoint(source: Name, initial: Time) returns (row: Checkpoint)
      requires Valid()
      modifies this
      ensures Valid()
      ensures db == Feeds.Opened(old(db), source, initial)
      ensures source in db.checkpoints && row == db.checkpoints[source]
    {
      if source !in db.checkpoints {
        db := db.(checkpoints := db.checkpoints[source := Checkpoint(initial, Feeds.OVERLAP_SECONDS, None)]);
      }
      row := db.checkpoints[source];
    }

    method BeginSnapshot(id: Id, source: Name) returns (r: Outcome<Id>)
      requires Valid()
      modifies this
      ensures Valid()
      ensures Executes(old(db), db, Feeds.Begin(old(db), id, source), r)
    {
      if id in db.snapshots {
        return Raised(IntegrityError);
      }
      db := db.(snapshots := db.snapshots[id := Snapshot(source, Collecting)]);
      return Ok(id);
    }

    method StageObservation(id: Id, seen: Observation) returns (r: Outcome<bool>)
      requires Valid()
      modifies this
      ensures Valid()
      ensures Executes(old(db), db, Feeds.Stage(old(db), id, seen), r)
    {
      if id !in db.snapshots || !db.snapshots[id].state.Collecting? {
        return Raised(StateError(SnapshotUnknown));
      }
      if db.snapshots[id].source != seen.source {
        return Raised(StateError(SnapshotMismatch));
      }
      var key := StagedKey(id, EventName(seen.source, seen.external, seen.version));
      if key in db.staged {
        return Ok(false);
      }
      db := db.(staged := db.staged[key := seen]);
      return Ok(true);
    }

    method FinishSnapshot(id: Id, complete: bool, watermark: Option<Time>) returns (r: Outcome<nat>)
      requires Valid()
      modifies this
      ensures Valid()
      ensures Executes(old(db), db, Feeds.Finish(old(db), id, complete, watermark), r)
    {
      var tx := db;
      if id !in tx.snapshots {
        return Raised(StateError(SnapshotUnknown));
      }
      if !tx.snapshots[id].state.Collecting? {
        return Raised(StateError(SnapshotFinal));
      }
      var source := tx.snapshots[id].source;
      var published := 0;
      if complete {
        if watermark.None? {
          return Raised(StateError(InvalidArgument));
        }
        published := |Feeds.Unpublished(tx, id)|;
        tx := tx.(observed := Feeds.Published(tx, id));
        if source !in tx.checkpoints {
          return Raised(StateError(CheckpointAbsent));
        }
        var row := tx.checkpoints[source].(watermark := watermark.value, lastComplete := Some(id));
        tx := tx.(checkpoints := tx.checkpoints[source := row]);
      }
      db := Feeds.Closed(tx, id, source, if complete then Complete else Incomplete);
      return Ok(published);
    }

    // ---------- journals ----------

    method PriorRequest(sid: Id, key: Text, operation: Verb, arguments: Text) returns (r: Outcome<Option<Response>>)
      ensures r == Journals.Prior(db, sid, key, operation, arguments)
    {
      if key !in db.requests {
        return Ok(None);
      }
      var row := db.requests[key];
      if row.session != sid || row.operation != operation || row.arguments != arguments {
        return Raised(StateError(KeyReused));
      }
      if row.response.Some? {
        return Ok(Some(row.response.value));
      }
      return Ok(Some(Indeterminate));
    }

    method ReserveRequest(sid: Id, key: Text, operation: Verb, arguments: Text) returns (r: Outcome<Option<Response>>)
      requires Valid()
      modifies this
      ensures Valid()
      ensures Executes(old(db), db, Journals.Reserve(old(db), sid, key, operation, arguments), r)
    {
      if key in db.requests {
        var row := db.requests[key];
        if row.session != sid || row.operation != operation || row.arguments != arguments {
          return Raised(StateError(KeyReused));
        }
        return Ok(Some(Journals.Answer(row)));
      }
      if sid !in db.sessions {
        return Raised(IntegrityError);
      }
      db := db.(requests := db.requests[key := Request(sid, operation, arguments, RequestState.Reserved, None)]);
      return Ok(None);
    }

    method MarkRequestApplying(key: Text) returns (r: Outcome<()>)
      requires Valid()
      modifies this
      ensures Valid()
      ensures Executes(old(db), db, Journals.MarkApplying(old(db), key), r)
    {
      if key !in db.requests || !db.requests[key].state.Reserved? {
        return Raised(StateError(RequestNotReserved));
      }
      db := db.(requests := db.requests[key := db.requests[key].(state := RequestState.Applying)]);
      return Ok(());
    }

    method AbandonReadRequest(key: Text) returns (r: Outcome<()>)
      requires Valid()
      modifies this
      ensures Valid()
      ensures Executes(old(db), db, Journals.AbandonRead(old(db), key), r)
    {
      if key in db.requests && db.requests[key].operation.Read? {
        db := db.(requests := db.requests - {key});
      }
      return Ok(());
    }

    method FinishRequest(key: Text, state: RequestState, response: Response) returns (r: Outcome<()>)
      requires Valid()
      modifies this
      ensures Valid()
      ensures Executes(old(db), db, Journals.Finish(old(db), key, state, response), r)
    {
      if state.Reserved? || state.Applying? {
        return Raised(StateError(InvalidArgument));
      }
      if key in db.requests {
        db := db.(requests := db.requests[key := db.requests[key].(state := state, response := Some(response))]);
      }
      return Ok(());
    }

    method ReserveReconcile(id: Id, key: OperationKey, source: SourceKey, kind: OperationKind, precondition: Precondition)
      returns (r: Outcome<Id>)
      requires Valid()
      modifies this
      ensures Valid()
      ensures Executes(old(db), db, Journals.ReserveOperation(old(db), id, key, source, kind, precondition), r)
    {
      var existing := Journals.WithKey(db.operations, key);
      if existing != {} {
        var prior :| prior in existing;
        assert existing == {prior};
        var row := db.operations[prior];
        if row.source != source || row.kind != kind || row.precondition != precondition {
          return Raised(StateError(KeyReused));
        }
        return Ok(prior);
      }
      if id in db.operations {
        return Raised(IntegrityError);
      }
      var operations := db.operations[id := Operation(key, source, kind, precondition, Planned)];
      forall o | o in operations
        ensures Journals.WithKey(operations, operations[o].key) == {o}
      {
        if o != id {
          assert o !in Journals.WithKey(db.operations, key);
          assert Journals.WithKey(operations, operations[o].key) == Journals.WithKey(db.operations, db.operations[o].key);
        } else {
          assert Journals.WithKey(operations, key) == {id};
        }
      }
      db := db.(operations := operations);
      return Ok(id);
    }

    method MarkReconcileApplying(id: Id) returns (r: Outcome<()>)
      requires Valid()
      modifies this
      ensures Valid()
      ensures Executes(old(db), db, Journals.MarkOperation(old(db), id), r)
    {
      if id !in db.operations || !db.operations[id].state.Planned? {
        return Raised(StateError(NotPlanned));
      }
      var operations := db.operations[id := db.operations[id].(state := OperationState.Applying)];
      OperationsKept(db.operations, operations);
      db := db.(operations := operations);
      return Ok(());
    }

    method FinishReconcile(id: Id, state: OperationState) returns (r: Outcome<()>)
      requires Valid()
      modifies this
      ensures Valid()
      ensures Executes(old(db), db, Journals.FinishOperation(old(db), id, state), r)
    {
      if state.Planned? || state.Applying? {
        return Raised(StateError(InvalidArgument));
      }
      if id !in db.operations || !Journals.MayBecome(db.operations[id].state, state) {
        return Raised(StateError(BadTransition));
      }
      var operations := db.operations[id := db.operations[id].(state := state)];
      OperationsKept(db.operations, operations);
      db := db.(operations := operations);
      return Ok(());
    }
  }
}
