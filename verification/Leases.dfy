/** What a lease call does, row by row: which delivery is due, and what becomes of every other. */
module Leases {
  import opened Outcomes
  import opened Tables
  import Deliveries

  predicate Ended(d: Delivery, now: Time) {
    d.leaseUntil.Some? && d.leaseUntil.value <= now
  }

  /** Waiting, or leased by someone who never started it and whose time is over. */
  predicate Free(d: Delivery, now: Time) {
    d.state.Queued? || d.state.RetryWait? || (d.state.Leased? && Ended(d, now))
  }

  /** Free, tried less often than the ceiling allows, and past its backoff. */
  predicate Due(d: Delivery, now: Time, ceiling: int) {
    Free(d, now) && d.attempt < ceiling && d.eligibleAt <= now
  }

  /** A lease call hands out the due delivery that has been eligible longest, the smaller id
      first among equals, and nothing if and only if none is due. */
  ghost predicate HandsOut(deliveries: map<Id, Delivery>, now: Time, ceiling: int, leased: Option<Id>) {
    match leased
    case None => forall d :: d in deliveries ==> !Due(deliveries[d], now, ceiling)
    case Some(first) =>
      && first in deliveries && Due(deliveries[first], now, ceiling)
      && forall d :: d in deliveries && Due(deliveries[d], now, ceiling) && d != first ==>
           || deliveries[first].eligibleAt < deliveries[d].eligibleAt
           || (deliveries[first].eligibleAt == deliveries[d].eligibleAt && first < d)
  }

  /** What becomes of one delivery: running past its lease it is uncertain; free at the ceiling
      it is dead; handed out it is leased once more; and free otherwise it waits. */
  predicate RowMoves(before: Delivery, after: Delivery, now: Time, until: Time, owner: Name, ceiling: int, chosen: bool) {
    if before.state.Running? && Ended(before, now) then
      after == before.(state := DeliveryState.Uncertain, owner := None, leaseUntil := None)
    else if !Free(before, now) then after == before
    else if before.attempt >= ceiling then
      after == (if before.state.Leased? then before.(owner := None, leaseUntil := None) else before).(state := DeliveryState.DeadLetter)
    else if chosen then
      after == before.(state := DeliveryState.Leased, attempt := before.attempt + 1, owner := Some(owner), leaseUntil := Some(until))
    else if before.state.Leased? then after == before.(state := RetryWait, owner := None, leaseUntil := None)
    else after == before
  }

  /** Its routes go with it, except that an ended lease leaves them as they are. */
  predicate RouteMoves(before: RouteState, after: RouteState, d: Delivery, now: Time, ceiling: int, chosen: bool) {
    if d.state.Running? && Ended(d, now) then after == ManualReview
    else if Free(d, now) && d.attempt >= ceiling then after == RouteState.DeadLetter
    else if chosen then after == RouteState.Leased
    else after == before
  }

  ghost predicate RowsMove(db: Database, after: Database, now: Time, until: Time, owner: Name, ceiling: int, leased: Option<Id>) {
    && after.deliveries.Keys == db.deliveries.Keys
    && forall d :: d in db.deliveries ==>
         RowMoves(db.deliveries[d], after.deliveries[d], now, until, owner, ceiling, leased == Some(d))
  }

  /** The same, of a route with its delivery. */
  predicate RouteGoes(db: Database, before: Route, after: Route, now: Time, ceiling: int, leased: Option<Id>) {
    && after.delivery == before.delivery
    && match before.delivery
       case None => after == before
       case Some(d) => d in db.deliveries ==> RouteMoves(before.state, after.state, db.deliveries[d], now, ceiling, leased == Some(d))
  }

  ghost predicate RoutesMove(db: Database, after: Database, now: Time, ceiling: int, leased: Option<Id>) {
    && after.routes.Keys == db.routes.Keys
    && forall k :: k in db.routes ==> RouteGoes(db, db.routes[k], after.routes[k], now, ceiling, leased)
  }

  // ---------- the sweeps ----------

  lemma SweptRow(db: Database, now: Time, ceiling: int, d: Id)
    requires d in db.deliveries
    ensures var before, after := db.deliveries[d], Deliveries.Cleared(db, now, ceiling).deliveries;
      && d in after && RowMoves(before, after[d], now, 0, "", ceiling, false)
      && (Deliveries.Waiting(after[d]) <==> Free(before, now) && before.attempt < ceiling)
      && after[d].eligibleAt == before.eligibleAt && after[d].attempt == before.attempt
  {
  }

  lemma SweptRoute(db: Database, now: Time, ceiling: int, k: RouteKey)
    requires k in db.routes
    ensures var after := Deliveries.Cleared(db, now, ceiling).routes;
      k in after && RouteGoes(db, db.routes[k], after[k], now, ceiling, None)
  {
  }

  lemma SweptKeys(db: Database, now: Time, ceiling: int)
    ensures var after := Deliveries.Cleared(db, now, ceiling);
      after.deliveries.Keys == db.deliveries.Keys && after.routes.Keys == db.routes.Keys
  {
  }

  // ---------- the call ----------

  function Relabelled(r: Route, first: Id): Route {
    if r.delivery == Some(first) then r.(state := RouteState.Leased) else r
  }

  lemma TakenRows(swept: Database, first: Id, owner: Name, until: Time)
    requires first in swept.deliveries
    ensures var after := Deliveries.Taken(swept, first, owner, until);
      && after.deliveries.Keys == swept.deliveries.Keys && after.routes.Keys == swept.routes.Keys
      && (forall d :: d in swept.deliveries && d != first ==> after.deliveries[d] == swept.deliveries[d])
      && after.deliveries[first] == swept.deliveries[first].(
           state := DeliveryState.Leased, attempt := swept.deliveries[first].attempt + 1, owner := Some(owner), leaseUntil := Some(until))
      && forall k :: k in swept.routes ==>
           after.routes[k] == Relabelled(swept.routes[k], first)
  {
  }

  lemma ChosenMoves(before: Delivery, middle: Delivery, now: Time, until: Time, owner: Name, ceiling: int)
    requires RowMoves(before, middle, now, 0, "", ceiling, false) && Due(before, now, ceiling)
    ensures RowMoves(before, middle.(state := DeliveryState.Leased, attempt := middle.attempt + 1, owner := Some(owner),
                                     leaseUntil := Some(until)), now, until, owner, ceiling, true)
  {
  }

  lemma OthersMove(before: Delivery, after: Delivery, now: Time, until: Time, owner: Name, ceiling: int)
    requires RowMoves(before, after, now, 0, "", ceiling, false)
    ensures RowMoves(before, after, now, until, owner, ceiling, false)
  {
  }

  lemma CandidatesAreDue(db: Database, now: Time, ceiling: int, d: Id)
    ensures d in Deliveries.Candidates(Deliveries.Cleared(db, now, ceiling), now)
      <==> d in db.deliveries && Due(db.deliveries[d], now, ceiling)
  {
    SweptKeys(db, now, ceiling);
    if d in db.deliveries {
      SweptRow(db, now, ceiling, d);
    }
  }

  lemma {:induction false} LeaseHandsOut(db: Database, owner: Name, now: Time, seconds: int, ceiling: int)
    requires owner != "" && seconds > 0 && ceiling > 0
    ensures var tx := Deliveries.Lease(db, owner, now, seconds, ceiling);
      tx.Commit? && HandsOut(db.deliveries, now, ceiling, tx.value)
  {
    var swept := Deliveries.Cleared(db, now, ceiling);
    var ids := Deliveries.Candidates(swept, now);
    forall d ensures d in ids <==> d in db.deliveries && Due(db.deliveries[d], now, ceiling) {
      CandidatesAreDue(db, now, ceiling, d);
    }
    if ids != {} {
      var first := Deliveries.Oldest(swept, ids);
      forall d | d in ids ensures d in db.deliveries && swept.deliveries[d].eligibleAt == db.deliveries[d].eligibleAt {
        SweptRow(db, now, ceiling, d);
      }
    }
  }

  /** The sweeps, and then the handing out. */
  ghost predicate Leaves(db: Database, after: Database, now: Time, until: Time, owner: Name, ceiling: int, leased: Option<Id>) {
    var swept := Deliveries.Cleared(db, now, ceiling);
    match leased
    case None => after == swept
    case Some(d) => d in db.deliveries && d in swept.deliveries && Due(db.deliveries[d], now, ceiling)
                    && after == Deliveries.Taken(swept, d, owner, until)
  }

  lemma LeaseLeaves(db: Database, owner: Name, now: Time, seconds: int, ceiling: int)
    requires owner != "" && seconds > 0 && ceiling > 0
    ensures var tx := Deliveries.Lease(db, owner, now, seconds, ceiling);
      tx.Commit? && Leaves(db, tx.db, now, now + seconds, owner, ceiling, tx.value)
  {
    var tx := Deliveries.Lease(db, owner, now, seconds, ceiling);
    LeaseHandsOut(db, owner, now, seconds, ceiling);
    if tx.value.Some? {
      SweptRow(db, now, ceiling, tx.value.value);
    }
  }

  lemma LeavesRow(db: Database, after: Database, now: Time, until: Time, owner: Name, ceiling: int, leased: Option<Id>, d: Id)
    requires Leaves(db, after, now, until, owner, ceiling, leased) && d in db.deliveries
    ensures d in after.deliveries && RowMoves(db.deliveries[d], after.deliveries[d], now, until, owner, ceiling, leased == Some(d))
  {
    var swept := Deliveries.Cleared(db, now, ceiling);
    SweptRow(db, now, ceiling, d);
    if leased.Some? {
      TakenRows(swept, leased.value, owner, until);
    }
    if leased == Some(d) {
      ChosenMoves(db.deliveries[d], swept.deliveries[d], now, until, owner, ceiling);
    } else {
      OthersMove(db.deliveries[d], swept.deliveries[d], now, until, owner, ceiling);
    }
  }

  lemma LeavesRoute(db: Database, after: Database, now: Time, until: Time, owner: Name, ceiling: int, leased: Option<Id>, k: RouteKey)
    requires Leaves(db, after, now, until, owner, ceiling, leased) && k in db.routes
    ensures k in after.routes && RouteGoes(db, db.routes[k], after.routes[k], now, ceiling, leased)
  {
    var swept := Deliveries.Cleared(db, now, ceiling);
    SweptRoute(db, now, ceiling, k);
    if leased.Some? {
      TakenRows(swept, leased.value, owner, until);
    }
  }

  lemma LeavesKeys(db: Database, after: Database, now: Time, until: Time, owner: Name, ceiling: int, leased: Option<Id>)
    requires Leaves(db, after, now, until, owner, ceiling, leased)
    ensures after.deliveries.Keys == db.deliveries.Keys && after.routes.Keys == db.routes.Keys
  {
    SweptKeys(db, now, ceiling);
    if leased.Some? {
      TakenRows(Deliveries.Cleared(db, now, ceiling), leased.value, owner, until);
    }
  }

  lemma LeavesRows(db: Database, after: Database, now: Time, until: Time, owner: Name, ceiling: int, leased: Option<Id>)
    requires Leaves(db, after, now, until, owner, ceiling, leased)
    ensures RowsMove(db, after, now, until, owner, ceiling, leased)
  {
    LeavesKeys(db, after, now, until, owner, ceiling, leased);
    forall d | d in db.deliveries
      ensures RowMoves(db.deliveries[d], after.deliveries[d], now, until, owner, ceiling, leased == Some(d))
    {
      LeavesRow(db, after, now, until, owner, ceiling, leased, d);
    }
  }

  lemma LeavesRoutes(db: Database, after: Database, now: Time, until: Time, owner: Name, ceiling: int, leased: Option<Id>)
    requires Leaves(db, after, now, until, owner, ceiling, leased)
    ensures RoutesMove(db, after, now, ceiling, leased)
  {
    LeavesKeys(db, after, now, until, owner, ceiling, leased);
    forall k | k in db.routes ensures RouteGoes(db, db.routes[k], after.routes[k], now, ceiling, leased) {
      LeavesRoute(db, after, now, until, owner, ceiling, leased, k);
    }
  }

  lemma LeavesTheRest(db: Database, after: Database, now: Time, until: Time, owner: Name, ceiling: int, leased: Option<Id>)
    requires Leaves(db, after, now, until, owner, ceiling, leased)
    ensures after == db.(deliveries := after.deliveries, routes := after.routes)
  {
  }

  /** What a lease call does: nothing else changes in the database. */
  ghost predicate Moves(db: Database, after: Database, now: Time, until: Time, owner: Name, ceiling: int, leased: Option<Id>) {
    && HandsOut(db.deliveries, now, ceiling, leased)
    && RowsMove(db, after, now, until, owner, ceiling, leased) && RoutesMove(db, after, now, ceiling, leased)
    && after == db.(deliveries := after.deliveries, routes := after.routes)
  }

  lemma LeavesMoves(db: Database, after: Database, now: Time, until: Time, owner: Name, ceiling: int, leased: Option<Id>)
    requires Leaves(db, after, now, until, owner, ceiling, leased) && HandsOut(db.deliveries, now, ceiling, leased)
    ensures Moves(db, after, now, until, owner, ceiling, leased)
  {
    LeavesRows(db, after, now, until, owner, ceiling, leased);
    LeavesRoutes(db, after, now, until, owner, ceiling, leased);
    LeavesTheRest(db, after, now, until, owner, ceiling, leased);
  }

  lemma {:induction false} LeaseMoves(db: Database, owner: Name, now: Time, seconds: int, ceiling: int)
    requires owner != "" && seconds > 0 && ceiling > 0
    ensures var tx := Deliveries.Lease(db, owner, now, seconds, ceiling);
      tx.Commit? && Moves(db, tx.db, now, now + seconds, owner, ceiling, tx.value)
  {
    LeaseHandsOut(db, owner, now, seconds, ceiling);
    LeaseLeaves(db, owner, now, seconds, ceiling);
    var tx := Deliveries.Lease(db, owner, now, seconds, ceiling);
    LeavesMoves(db, tx.db, now, now + seconds, owner, ceiling, tx.value);
  }
}
