/** What restart recovery leaves, row by row and from the tables alone: for every orphan and every
    live wake the rows of its session and its delivery, and every other row as it was. */
module Endings {
  import opened Outcomes
  import opened Tables
  import opened Sessions
  import opened Wakes
  import opened Readiness
  import opened RunLedger
  import opened Recovery
  import WakeThreads
  import Budgets
  import Policies
  import Deliveries

  /** Given back, because no provider ever started; closed, because every process is proved dead;
      or left in doubt, for a person. */
  datatype Ending = Freed | Closed | Doubted

  function SessionThen(row: Session, e: Ending): Session {
    if e.Doubted? then row else row.(state := SessionState.Revoked)
  }

  function WakeThen(row: Wake, e: Ending): Wake {
    if !row.state.Prepared? && !row.state.Running? then row
    else row.(state := match e case Freed => WakeState.Failed case Closed => WakeState.Terminated case Doubted => WakeState.Uncertain)
  }

  function ProcessThen(row: Process, dead: bool): Process {
    if !row.state.Running? then row else row.(state := if dead then ProcessState.Terminated else ProcessState.Uncertain)
  }

  function WorkerThen(row: Worker, e: Ending): Worker {
    if e.Closed? && (row.state.Accepted? || row.state.Running?) then row.(state := WorkerState.Failed) else row
  }

  /** Unknown usage is never freed: only a wake that never started gives its tokens back. */
  function ReservationThen(row: Reservation, e: Ending): Reservation {
    if !row.state.Active? then row
    else match e
      case Freed => row.(state := ReservationState.Released)
      case Closed => row.(state := ReservationState.Uncertain)
      case Doubted => row
  }

  predicate Working(d: Delivery) {
    d.state.Leased? || d.state.Running?
  }

  /** Work that was paid for is never handed out again; work that never began is. */
  function DeliveryThen(row: Delivery, e: Ending, at: Time): Delivery {
    match e
    case Freed => row.(state := RetryWait, eligibleAt := at, owner := None, leaseUntil := None)
    case Closed => if Working(row) then row.(state := DeliveryState.Uncertain, owner := None, leaseUntil := None) else row
    case Doubted => row
  }

  function RouteThen(row: Route, d: Delivery, e: Ending): Route {
    match e
    case Freed => row.(state := RouteState.Queued)
    case Closed => if Working(d) then row.(state := ManualReview) else row
    case Doubted => row
  }

  ghost predicate DeliveryEnds(db: Database, after: Database, d: Id, e: Ending, at: Time) {
    d in db.deliveries ==>
      && d in after.deliveries && after.deliveries[d] == DeliveryThen(db.deliveries[d], e, at)
      && forall k :: k in db.routes && db.routes[k].delivery == Some(d) ==>
           k in after.routes && after.routes[k] == RouteThen(db.routes[k], db.deliveries[d], e)
  }

  ghost predicate StaffEnds(db: Database, after: Database, sid: Id, e: Ending) {
    && (sid in db.sessions ==> sid in after.sessions && after.sessions[sid] == SessionThen(db.sessions[sid], e))
    && (forall a :: a in db.workers && db.workers[a].session == sid ==>
          a in after.workers && after.workers[a] == WorkerThen(db.workers[a], e))
    && (forall r :: r in db.reservations && db.reservations[r].session == sid ==>
          r in after.reservations && after.reservations[r] == ReservationThen(db.reservations[r], e))
  }

  ghost predicate WakesEnd(db: Database, after: Database, sid: Id, e: Ending, proved: set<ProcessKey>) {
    && (forall w :: w in db.wakes && db.wakes[w].session == sid ==> w in after.wakes && after.wakes[w] == WakeThen(db.wakes[w], e))
    && (forall p :: p in db.processes && db.processes[p].session == sid ==>
          p in after.processes && after.processes[p] == ProcessThen(db.processes[p], p in proved))
  }

  ghost predicate WorkEnds(db: Database, after: Database, delivery: Option<Id>, e: Ending, at: Time) {
    delivery.Some? ==> DeliveryEnds(db, after, delivery.value, e, at)
  }

  /** The rows of a session and of its delivery. */
  ghost predicate Ends(db: Database, after: Database, sid: Id, delivery: Option<Id>, e: Ending, proved: set<ProcessKey>, at: Time) {
    StaffEnds(db, after, sid, e) && WakesEnd(db, after, sid, e, proved) && WorkEnds(db, after, delivery, e, at)
  }

  predicate BoundIn(r: Route, dids: set<Id>) {
    r.delivery.Some? && r.delivery.value in dids
  }

  ghost predicate StaffAside(db: Database, after: Database, sids: set<Id>) {
    && after.sessions.Keys == db.sessions.Keys && (forall s :: s in db.sessions && s !in sids ==> after.sessions[s] == db.sessions[s])
    && after.workers.Keys == db.workers.Keys
    && (forall a :: a in db.workers ==>
          after.workers[a].session == db.workers[a].session
          && (db.workers[a].session !in sids ==> after.workers[a] == db.workers[a]))
    && after.reservations.Keys == db.reservations.Keys
    && (forall r :: r in db.reservations ==>
          after.reservations[r].session == db.reservations[r].session
          && (db.reservations[r].session !in sids ==> after.reservations[r] == db.reservations[r]))
  }

  ghost predicate WakesAside(db: Database, after: Database, sids: set<Id>) {
    && after.wakes.Keys == db.wakes.Keys
    && (forall w :: w in db.wakes ==>
          after.wakes[w].session == db.wakes[w].session && after.wakes[w].delivery == db.wakes[w].delivery
          && (db.wakes[w].session !in sids ==> after.wakes[w] == db.wakes[w]))
    && after.processes.Keys == db.processes.Keys
    && (forall p :: p in db.processes ==>
          after.processes[p].session == db.processes[p].session
          && (db.processes[p].session !in sids ==> after.processes[p] == db.processes[p]))
  }

  ghost predicate WorkAside(db: Database, after: Database, dids: set<Id>) {
    && after.deliveries.Keys == db.deliveries.Keys
    && (forall d :: d in db.deliveries && d !in dids ==> after.deliveries[d] == db.deliveries[d])
    && after.routes.Keys == db.routes.Keys
    && (forall k :: k in db.routes ==>
          after.routes[k].delivery == db.routes[k].delivery && (!BoundIn(db.routes[k], dids) ==> after.routes[k] == db.routes[k]))
  }

  /** Nothing else changed but the token buckets, which the ledger accounts for. */
  ghost predicate Aside(db: Database, after: Database, sids: set<Id>, dids: set<Id>) {
    StaffAside(db, after, sids) && WakesAside(db, after, sids) && WorkAside(db, after, dids) && RestAside(db, after)
  }

  predicate RestAside(db: Database, after: Database) {
    && after.checkpoints == db.checkpoints && after.snapshots == db.snapshots && after.staged == db.staged
    && after.observed == db.observed && after.members == db.members
    && after.requests == db.requests && after.operations == db.operations
  }

  // ---------- one after the other ----------

  lemma StaffThrough(a: Database, b: Database, c: Database, s: set<Id>, t: set<Id>)
    requires StaffAside(a, b, s) && StaffAside(b, c, t)
    ensures StaffAside(a, c, s + t)
  {
  }

  lemma WakesThrough(a: Database, b: Database, c: Database, s: set<Id>, t: set<Id>)
    requires WakesAside(a, b, s) && WakesAside(b, c, t)
    ensures WakesAside(a, c, s + t)
  {
  }

  lemma WorkThrough(a: Database, b: Database, c: Database, d: set<Id>, e: set<Id>)
    requires WorkAside(a, b, d) && WorkAside(b, c, e)
    ensures WorkAside(a, c, d + e)
  {
  }

  lemma AsideThrough(a: Database, b: Database, c: Database, s: set<Id>, t: set<Id>, d: set<Id>, e: set<Id>)
    requires Aside(a, b, s, d) && Aside(b, c, t, e)
    ensures Aside(a, c, s + t, d + e)
  {
    StaffThrough(a, b, c, s, t);
    WakesThrough(a, b, c, s, t);
    WorkThrough(a, b, c, d, e);
  }

  lemma StaffLater(db: Database, middle: Database, after: Database, sid: Id, e: Ending, sids: set<Id>)
    requires sid !in sids
    ensures StaffEnds(db, middle, sid, e) && StaffAside(middle, after, sids) ==> StaffEnds(db, after, sid, e)
    ensures StaffAside(db, middle, sids) && StaffEnds(middle, after, sid, e) ==> StaffEnds(db, after, sid, e)
  {
    if StaffEnds(db, middle, sid, e) && StaffAside(middle, after, sids) {
      forall a | a in db.workers && db.workers[a].session == sid
        ensures a in after.workers && after.workers[a] == WorkerThen(db.workers[a], e)
      {
        assert middle.workers[a] == WorkerThen(db.workers[a], e);
      }
      forall r | r in db.reservations && db.reservations[r].session == sid
        ensures r in after.reservations && after.reservations[r] == ReservationThen(db.reservations[r], e)
      {
        assert middle.reservations[r] == ReservationThen(db.reservations[r], e);
      }
    }
  }

  lemma WakesLater(db: Database, middle: Database, after: Database, sid: Id, e: Ending, proved: set<ProcessKey>, sids: set<Id>)
    requires sid !in sids
    ensures WakesEnd(db, middle, sid, e, proved) && WakesAside(middle, after, sids) ==> WakesEnd(db, after, sid, e, proved)
    ensures WakesAside(db, middle, sids) && WakesEnd(middle, after, sid, e, proved) ==> WakesEnd(db, after, sid, e, proved)
  {
    if WakesEnd(db, middle, sid, e, proved) && WakesAside(middle, after, sids) {
      forall w | w in db.wakes && db.wakes[w].session == sid ensures w in after.wakes && after.wakes[w] == WakeThen(db.wakes[w], e) {
        assert middle.wakes[w] == WakeThen(db.wakes[w], e);
      }
      forall p | p in db.processes && db.processes[p].session == sid
        ensures p in after.processes && after.processes[p] == ProcessThen(db.processes[p], p in proved)
      {
        assert middle.processes[p] == ProcessThen(db.processes[p], p in proved);
      }
    }
  }

  lemma WorkLater(db: Database, middle: Database, after: Database, delivery: Option<Id>, e: Ending, at: Time, dids: set<Id>)
    requires delivery.Some? ==> delivery.value !in dids
    ensures WorkEnds(db, middle, delivery, e, at) && WorkAside(middle, after, dids) ==> WorkEnds(db, after, delivery, e, at)
    ensures WorkAside(db, middle, dids) && WorkEnds(middle, after, delivery, e, at) ==> WorkEnds(db, after, delivery, e, at)
  {
    if WorkEnds(db, middle, delivery, e, at) && WorkAside(middle, after, dids) && delivery.Some? && delivery.value in db.deliveries {
      forall k | k in db.routes && db.routes[k].delivery == delivery
        ensures k in after.routes && after.routes[k] == RouteThen(db.routes[k], db.deliveries[delivery.value], e)
      {
        assert middle.routes[k] == RouteThen(db.routes[k], db.deliveries[delivery.value], e);
      }
    }
  }

  lemma EndsLater(db: Database, middle: Database, after: Database, sid: Id, delivery: Option<Id>, e: Ending, proved: set<ProcessKey>,
                  at: Time, sids: set<Id>, dids: set<Id>)
    requires sid !in sids && (delivery.Some? ==> delivery.value !in dids)
    ensures Ends(db, middle, sid, delivery, e, proved, at) && Aside(middle, after, sids, dids) ==>
      Ends(db, after, sid, delivery, e, proved, at)
    ensures Aside(db, middle, sids, dids) && Ends(middle, after, sid, delivery, e, proved, at) ==>
      Ends(db, after, sid, delivery, e, proved, at)
  {
    StaffLater(db, middle, after, sid, e, sids);
    WakesLater(db, middle, after, sid, e, proved, sids);
    WorkLater(db, middle, after, delivery, e, at, dids);
  }

  // ---------- giving back ----------

  lemma ReleaseEnds(db: Database, sid: Id)
    requires OneReservation(db) && ReleaseFor(db, sid).Commit?
    ensures var after := ReleaseFor(db, sid).db;
      && after == db.(buckets := after.buckets, reservations := after.reservations) && StaffAside(db, after, {sid})
      && forall r :: r in db.reservations && db.reservations[r].session == sid ==>
           after.reservations[r] == ReservationThen(db.reservations[r], Freed)
  {
    if ReservationsOf(db.reservations, sid) != {} {
      var r :| r in ReservationsOf(db.reservations, sid) && ReleaseFor(db, sid) == Budgets.Release(db, r);
      ReservationIsRow(db, r, sid);
      forall q | q in db.reservations && db.reservations[q].session == sid ensures q == r {
        assert q in ReservationsOf(db.reservations, sid);
      }
    } else {
      assert forall q :: q in db.reservations && db.reservations[q].session == sid ==> q in ReservationsOf(db.reservations, sid);
    }
  }

  lemma RetryEnds(db: Database, delivery: Option<Id>, at: Option<Time>)
    requires RetryIfBound(db, delivery, at).Commit?
    ensures var after := RetryIfBound(db, delivery, at).db;
      && after == db.(deliveries := after.deliveries, routes := after.routes) && WorkAside(db, after, Bound(delivery))
      && (delivery.Some? ==> at.Some? && DeliveryEnds(db, after, delivery.value, Freed, at.value))
  {
  }

  lemma OrphanEnds(db: Database, s: Id, proved: set<ProcessKey>, at: Time)
    requires OneReservation(db) && RecoverOrphan(db, s, None, None).Commit?
    ensures var after := RecoverOrphan(db, s, None, None).db;
      Ends(db, after, s, None, Freed, proved, at) && Aside(db, after, {s}, {})
  {
    ReleaseEnds(db, s);
    forall w | w in db.wakes ensures db.wakes[w].session != s {
      assert w !in WakesOf(db.wakes, s);
    }
    BareHasNone(db, s);
  }

  lemma BareHasNone(db: Database, sid: Id)
    requires Bare(db, sid)
    ensures forall p :: p in db.processes ==> db.processes[p].session != sid
    ensures forall a :: a in db.workers ==> db.workers[a].session != sid
  {
    forall p | p in db.processes ensures db.processes[p].session != sid {
      assert p !in ProcessesOf(db.processes, sid);
    }
    forall a | a in db.workers ensures db.workers[a].session != sid {
      assert a !in AttemptsOf(db.workers, sid);
    }
  }

  /** The session has no other wake. */
  ghost predicate OnlyWake(db: Database, w: Id) {
    w in db.wakes && forall v :: v in db.wakes && db.wakes[v].session == db.wakes[w].session ==> v == w
  }

  lemma RetriedEnds(db: Database, sid: Id, delivery: Option<Id>, at: Time) returns (retried: Database)
    requires OneReservation(db) && ReleaseAndRetry(db, sid, delivery, Some(at)).Commit?
    ensures retried == ReleaseAndRetry(db, sid, delivery, Some(at)).db
    ensures retried == db.(buckets := retried.buckets, reservations := retried.reservations, deliveries := retried.deliveries,
                           routes := retried.routes)
    ensures StaffAside(db, retried, {sid}) && WorkAside(db, retried, Bound(delivery)) && WorkEnds(db, retried, delivery, Freed, at)
    ensures forall r :: r in db.reservations && db.reservations[r].session == sid ==>
      retried.reservations[r] == ReservationThen(db.reservations[r], Freed)
  {
    ReleaseEnds(db, sid);
    var released := ReleaseFor(db, sid).db;
    RetryEnds(released, delivery, Some(at));
    retried := RetryIfBound(released, delivery, Some(at)).db;
  }

  lemma ClosedOrphan(db: Database, s: Id, delivery: Option<Id>, at: Time) returns (retried: Database, after: Database)
    requires RecoverOrphan(db, s, delivery, Some(at)).Commit?
    ensures after == RecoverOrphan(db, s, delivery, Some(at)).db && retried == ReleaseAndRetry(db, s, delivery, Some(at)).db
    ensures s in db.sessions && Bare(db, s) && WakesOf(db.wakes, s) == {} && ReleaseAndRetry(db, s, delivery, Some(at)).Commit?
    ensures s in retried.sessions ==>
      after == retried.(sessions := retried.sessions[s := retried.sessions[s].(state := SessionState.Revoked)])
  {
    retried, after := ReleaseAndRetry(db, s, delivery, Some(at)).db, RecoverOrphan(db, s, delivery, Some(at)).db;
  }

  lemma ShutEnds(db: Database, retried: Database, after: Database, s: Id, delivery: Option<Id>, proved: set<ProcessKey>, at: Time)
    requires s in db.sessions && Bare(db, s) && WakesOf(db.wakes, s) == {}
    requires retried == db.(buckets := retried.buckets, reservations := retried.reservations, deliveries := retried.deliveries,
                            routes := retried.routes)
    requires StaffAside(db, retried, {s}) && WorkAside(db, retried, Bound(delivery)) && WorkEnds(db, retried, delivery, Freed, at)
    requires forall r :: r in db.reservations && db.reservations[r].session == s ==>
      r in retried.reservations && retried.reservations[r] == ReservationThen(db.reservations[r], Freed)
    requires after == retried.(sessions := retried.sessions[s := retried.sessions[s].(state := SessionState.Revoked)])
    ensures Ends(db, after, s, delivery, Freed, proved, at) && Aside(db, after, {s}, Bound(delivery))
  {
    forall w | w in db.wakes ensures db.wakes[w].session != s {
      assert w !in WakesOf(db.wakes, s);
    }
    BareHasNone(db, s);
  }

  /** A wake thread that stopped before its wake was prepared: its tokens are released, its delivery
      waits until `at`, and its session is closed. */
  lemma {:induction false} OrphanReturns(db: Database, s: Id, delivery: Option<Id>, proved: set<ProcessKey>, at: Time)
    requires OneReservation(db) && RecoverOrphan(db, s, delivery, Some(at)).Commit?
    ensures var after := RecoverOrphan(db, s, delivery, Some(at)).db;
      Ends(db, after, s, delivery, Freed, proved, at) && Aside(db, after, {s}, Bound(delivery))
  {
    var between, after := ClosedOrphan(db, s, delivery, at);
    var retried := RetriedEnds(db, s, delivery, at);
    ShutEnds(db, retried, after, s, delivery, proved, at);
  }

  /** The last two updates of `recover_prepared_wake`. */
  function Shut(db: Database, w: Id): Database
    requires w in db.wakes
  {
    Sessions.SetSession(db.(wakes := db.wakes[w := db.wakes[w].(state := WakeState.Failed)]), db.wakes[w].session, SessionState.Revoked)
  }

  lemma FreedShuts(db: Database, w: Id)
    requires w in db.wakes
    ensures var after, sid := Shut(db, w), db.wakes[w].session;
      && after == db.(sessions := after.sessions, wakes := after.wakes) && WakesAside(db, after, {sid}) && StaffAside(db, after, {sid})
      && (sid in db.sessions ==> after.sessions[sid] == SessionThen(db.sessions[sid], Freed))
      && after.wakes == db.wakes[w := db.wakes[w].(state := WakeState.Failed)]
  {
  }

  lemma PreparedEnds(db: Database, w: Id, proved: set<ProcessKey>, at: Time)
    requires OneReservation(db) && OnlyWake(db, w) && RecoverPrepared(db, w, at).Commit?
    ensures var after, wake := RecoverPrepared(db, w, at).db, db.wakes[w];
      Ends(db, after, wake.session, wake.delivery, Freed, proved, at) && Aside(db, after, {wake.session}, Bound(wake.delivery))
  {
    var wake, after := db.wakes[w], RecoverPrepared(db, w, at).db;
    var retried := RetriedEnds(db, wake.session, wake.delivery, at);
    BareHasNone(db, wake.session);
    FreedShuts(retried, w);
    assert after == Shut(retried, w);
    assert StaffEnds(db, after, wake.session, Freed);
    assert WakesEnd(db, after, wake.session, Freed, proved);
  }

  // ---------- closing, or leaving in doubt ----------

  lemma SignalledEnds(db: Database, sid: Id, proved: set<ProcessKey>)
    ensures var after := Signalled(db, RunningOf(db, sid), proved);
      && after == db.(processes := after.processes) && WakesAside(db, after, {sid})
      && forall p :: p in db.processes && db.processes[p].session == sid ==>
           after.processes[p] == ProcessThen(db.processes[p], p in proved)
  {
  }

  lemma ForcedWorkEnds(db: Database, d: Id, at: Time)
    ensures var after := After(db, Deliveries.ForceUncertain(db, d));
      && after == db.(deliveries := after.deliveries, routes := after.routes) && WorkAside(db, after, {d})
      && DeliveryEnds(db, after, d, Closed, at)
  {
  }

  lemma QuarantineEnds(db: Database, delivery: Option<Id>, at: Time)
    ensures var after := Quarantine(db, delivery);
      && after == db.(deliveries := after.deliveries, routes := after.routes) && WorkAside(db, after, Bound(delivery))
      && WorkEnds(db, after, delivery, Closed, at)
  {
    if delivery.Some? {
      ForcedWorkEnds(db, delivery.value, at);
    }
  }

  lemma ForcedStaffEnds(db: Database, sid: Id)
    requires IsActive(db, sid)
    ensures var after := Sessions.ForceTerminate(db, sid, false).db; StaffEnds(db, after, sid, Closed) && StaffAside(db, after, {sid})
  {
  }

  lemma ForcedWakesEnd(db: Database, sid: Id)
    requires IsActive(db, sid)
    ensures var after := Sessions.ForceTerminate(db, sid, false).db;
      && after == db.(sessions := after.sessions, workers := after.workers, reservations := after.reservations, wakes := after.wakes)
      && WakesAside(db, after, {sid})
      && forall w :: w in db.wakes && db.wakes[w].session == sid ==> after.wakes[w] == WakeThen(db.wakes[w], Closed)
  {
  }

  /** Forced termination and reaping, exactly: of the session's rows, busy attempts have failed, active
      reservations are held, the session is closed, and of its wakes only termination ends the live ones. */
  ghost predicate Cuts(db: Database, after: Database, sid: Id, closed: SessionState, wakesToo: bool)
    requires sid in db.sessions && sid in after.sessions
  {
    && after == db.(sessions := after.sessions, workers := after.workers, reservations := after.reservations, wakes := after.wakes)
    && after.sessions == db.sessions[sid := after.sessions[sid]] && after.sessions[sid] == db.sessions[sid].(state := closed)
    && after.workers.Keys == db.workers.Keys
    && (forall a :: a in db.workers ==>
          after.workers[a] == if db.workers[a].session == sid && (db.workers[a].state.Accepted? || db.workers[a].state.Running?)
                              then db.workers[a].(state := WorkerState.Failed) else db.workers[a])
    && after.reservations.Keys == db.reservations.Keys
    && (forall r :: r in db.reservations ==>
          after.reservations[r] == if db.reservations[r].session == sid && db.reservations[r].state.Active?
                                   then db.reservations[r].(state := ReservationState.Uncertain) else db.reservations[r])
    && after.wakes.Keys == db.wakes.Keys
    && (forall w :: w in db.wakes ==>
          after.wakes[w] == if wakesToo && db.wakes[w].session == sid && (db.wakes[w].state.Prepared? || db.wakes[w].state.Running?)
                            then db.wakes[w].(state := WakeState.Terminated) else db.wakes[w])
  }

  lemma {:induction false} TerminationCuts(db: Database, sid: Id, expired: bool)
    ensures Sessions.ForceTerminate(db, sid, expired).Commit? <==> sid in db.sessions && db.sessions[sid].state.Active?
    ensures var tx := Sessions.ForceTerminate(db, sid, expired);
      tx.Commit? ==>
        sid in tx.db.sessions && Cuts(db, tx.db, sid, if expired then SessionState.Expired else SessionState.Revoked, true)
  {
  }

  lemma {:induction false} ReapingCuts(db: Database, sid: Id, now: Time)
    ensures Sessions.Reap(db, sid, now).Commit? <==>
      sid in db.sessions && db.sessions[sid].state.Active? && db.sessions[sid].expiresAt <= now
    ensures var tx := Sessions.Reap(db, sid, now);
      tx.Commit? ==> sid in tx.db.sessions && Cuts(db, tx.db, sid, SessionState.Expired, false)
  {
  }

  lemma DoubtedEnds(db: Database, sid: Id)
    ensures var after := Sessions.EndWakes(db, sid, WakeState.Uncertain);
      && after == db.(wakes := after.wakes) && WakesAside(db, after, {sid})
      && forall w :: w in db.wakes && db.wakes[w].session == sid ==> after.wakes[w] == WakeThen(db.wakes[w], Doubted)
  {
  }

  // What was said of one database holds of another with the same rows in those tables.

  lemma StaffFrom(db: Database, before: Database, after: Database, sid: Id, e: Ending)
    requires before.sessions == db.sessions && before.workers == db.workers && before.reservations == db.reservations
    requires StaffEnds(before, after, sid, e) && StaffAside(before, after, {sid})
    ensures StaffEnds(db, after, sid, e) && StaffAside(db, after, {sid})
  {
  }

  lemma WakesFrom(db: Database, signalled: Database, before: Database, after: Database, sid: Id, e: Ending, proved: set<ProcessKey>)
    requires signalled.wakes == db.wakes && WakesAside(db, signalled, {sid})
    requires forall p :: p in db.processes && db.processes[p].session == sid ==>
      signalled.processes[p] == ProcessThen(db.processes[p], p in proved)
    requires before.wakes == signalled.wakes && before.processes == signalled.processes == after.processes
    requires WakesAside(before, after, {sid})
    requires forall w :: w in before.wakes && before.wakes[w].session == sid ==> after.wakes[w] == WakeThen(before.wakes[w], e)
    ensures WakesEnd(db, after, sid, e, proved) && WakesAside(db, after, {sid})
  {
  }

  lemma WorkFrom(db: Database, before: Database, freed: Database, after: Database, delivery: Option<Id>, e: Ending, at: Time)
    requires before.deliveries == db.deliveries && before.routes == db.routes
    requires after.deliveries == freed.deliveries && after.routes == freed.routes
    requires WorkEnds(before, freed, delivery, e, at) && WorkAside(before, freed, Bound(delivery))
    ensures WorkEnds(db, after, delivery, e, at) && WorkAside(db, after, Bound(delivery))
  {
  }

  lemma ClosedEnds(db: Database, signalled: Database, freed: Database, after: Database, sid: Id, delivery: Option<Id>,
                   proved: set<ProcessKey>, at: Time)
    requires IsActive(db, sid) && signalled == Signalled(db, RunningOf(db, sid), proved)
    requires freed == Quarantine(signalled, delivery) && after == Sessions.ForceTerminate(freed, sid, false).db
    ensures Ends(db, after, sid, delivery, Closed, proved, at) && Aside(db, after, {sid}, Bound(delivery))
  {
    SignalledEnds(db, sid, proved);
    QuarantineEnds(signalled, delivery, at);
    ForcedStaffEnds(freed, sid);
    ForcedWakesEnd(freed, sid);
    StaffFrom(db, freed, after, sid, Closed);
    WakesFrom(db, signalled, freed, after, sid, Closed, proved);
    WorkFrom(db, signalled, freed, after, delivery, Closed, at);
  }

  lemma LeftInDoubtEnds(db: Database, signalled: Database, after: Database, sid: Id, delivery: Option<Id>, proved: set<ProcessKey>,
                        at: Time)
    requires signalled == Signalled(db, RunningOf(db, sid), proved) && after == Sessions.EndWakes(signalled, sid, WakeState.Uncertain)
    ensures Ends(db, after, sid, delivery, Doubted, proved, at) && Aside(db, after, {sid}, Bound(delivery))
  {
    SignalledEnds(db, sid, proved);
    DoubtedEnds(signalled, sid);
    WakesFrom(db, signalled, signalled, after, sid, Doubted, proved);
  }

  lemma TerminatedEnds(db: Database, sid: Id, delivery: Option<Id>, proved: set<ProcessKey>, at: Time)
    requires IsActive(db, sid)
    ensures var after, e := Recovery.Terminated(db, sid, delivery, proved), if AllProved(db, sid, proved) then Closed else Doubted;
      Ends(db, after, sid, delivery, e, proved, at) && Aside(db, after, {sid}, Bound(delivery))
  {
    var signalled := Signalled(db, RunningOf(db, sid), proved);
    if AllProved(db, sid, proved) {
      var freed := Quarantine(signalled, delivery);
      ClosedEnds(db, signalled, freed, Sessions.ForceTerminate(freed, sid, false).db, sid, delivery, proved, at);
    } else {
      LeftInDoubtEnds(db, signalled, Sessions.EndWakes(signalled, sid, WakeState.Uncertain), sid, delivery, proved, at);
    }
  }

  // ---------- one wake ----------

  /** How a live wake ends, decided by its own row and by the process rows of its session. */
  ghost function EndingOf(db: Database, w: Id, proved: set<ProcessKey>): Ending
    requires w in db.wakes
  {
    var sid := db.wakes[w].session;
    if db.wakes[w].state.Prepared? && forall p :: p in db.processes ==> db.processes[p].session != sid then Freed
    else if forall p :: p in db.processes && db.processes[p].session == sid && db.processes[p].state.Running? ==> p in proved then Closed
    else Doubted
  }

  ghost predicate WakeEnds(db: Database, after: Database, w: Id, proved: set<ProcessKey>, at: Time)
    requires w in db.wakes
  {
    Ends(db, after, db.wakes[w].session, db.wakes[w].delivery, EndingOf(db, w, proved), proved, at)
  }

  lemma EndingCases(db: Database, w: Id, proved: set<ProcessKey>)
    requires w in db.wakes
    ensures EndingOf(db, w, proved).Freed? <==> Unstarted(db, w)
    ensures !Unstarted(db, w) ==> (EndingOf(db, w, proved).Closed? <==> AllProved(db, db.wakes[w].session, proved))
    ensures Stopped(db, w, proved) <==> !EndingOf(db, w, proved).Doubted?
  {
    var sid := db.wakes[w].session;
    assert (forall p :: p in db.processes ==> db.processes[p].session != sid) <==> ProcessesOf(db.processes, sid) == {} by {
      if p :| p in db.processes && db.processes[p].session == sid {
        assert p in ProcessesOf(db.processes, sid);
      }
    }
    assert AllProved(db, sid, proved)
      <==> forall p :: p in db.processes && db.processes[p].session == sid && db.processes[p].state.Running? ==> p in proved by {
      if p :| p in db.processes && db.processes[p].session == sid && db.processes[p].state.Running? && p !in proved {
        assert p in RunningOf(db, sid);
      }
    }
  }

  lemma LiveIsOnly(db: Database, w: Id)
    requires Ready(db) && w in db.wakes && LiveWake(db.wakes[w])
    ensures OnlyWake(db, w) && IsActive(db, db.wakes[w].session)
  {
    forall v | v in db.wakes && db.wakes[v].session == db.wakes[w].session ensures v == w {
      assert v in WakesOf(db.wakes, db.wakes[w].session) && w in WakesOf(db.wakes, db.wakes[w].session);
    }
  }

  lemma OneEnds(db: Database, actuals: Budgets.Actuals, w: Id, proved: set<ProcessKey>, at: Time)
    requires OneReservation(db) && Ready(db) && Sound(db, actuals) && w in db.wakes && LiveWake(db.wakes[w]) && !Blocked(db, w)
    ensures var after := Recovered(db, w, db.wakes[w], proved, at);
      WakeEnds(db, after, w, proved, at) && Aside(db, after, {db.wakes[w].session}, Bound(db.wakes[w].delivery))
    ensures Result(db, w, db.wakes[w], proved, at) == Ok(!EndingOf(db, w, proved).Doubted?)
  {
    EndingCases(db, w, proved);
    LiveIsOnly(db, w);
    ResultExactly(db, actuals, w, proved, at);
    if Unstarted(db, w) {
      PreparedRecoversExactly(db, actuals, w, at);
      PreparedEnds(db, w, proved, at);
    } else {
      TerminatedEnds(db, db.wakes[w].session, db.wakes[w].delivery, proved, at);
    }
  }

  lemma EndingStays(db: Database, after: Database, w: Id, proved: set<ProcessKey>, sids: set<Id>, dids: set<Id>)
    requires w in db.wakes && db.wakes[w].session !in sids && Aside(db, after, sids, dids)
    ensures w in after.wakes && after.wakes[w] == db.wakes[w] && EndingOf(after, w, proved) == EndingOf(db, w, proved)
  {
  }

  // ---------- the two loops ----------

  function Elements(ids: seq<Id>): set<Id> {
    set i | i in ids
  }

  ghost predicate AllOrphansEnd(db: Database, after: Database, orphans: seq<Id>, proved: set<ProcessKey>, at: Time) {
    && Aside(db, after, Elements(orphans), {})
    && forall s :: s in orphans ==> Ends(db, after, s, None, Freed, proved, at)
  }

  lemma OrphanLater(db: Database, middle: Database, after: Database, s: Id, others: set<Id>, proved: set<ProcessKey>, at: Time)
    requires Ends(db, middle, s, None, Freed, proved, at) && Aside(middle, after, others, {}) && s !in others
    ensures Ends(db, after, s, None, Freed, proved, at)
  {
    EndsLater(db, middle, after, s, None, Freed, proved, at, others, {});
  }

  lemma OrphanEarlier(db: Database, middle: Database, after: Database, s: Id, t: Id, proved: set<ProcessKey>, at: Time)
    requires Aside(db, middle, {s}, {}) && Ends(middle, after, t, None, Freed, proved, at) && t != s
    ensures Ends(db, after, t, None, Freed, proved, at)
  {
    EndsLater(db, middle, after, t, None, Freed, proved, at, {s}, {});
  }

  lemma OrphansJoin(db: Database, middle: Database, after: Database, orphans: seq<Id>, proved: set<ProcessKey>, at: Time)
    requires orphans != [] && NoRepeats(orphans) && Aside(db, middle, {orphans[0]}, {})
    requires Ends(db, middle, orphans[0], None, Freed, proved, at) && AllOrphansEnd(middle, after, orphans[1..], proved, at)
    ensures AllOrphansEnd(db, after, orphans, proved, at)
  {
    var s, rest := orphans[0], orphans[1..];
    HeadAndTail(orphans);
    AsideThrough(db, middle, after, {s}, Elements(rest), {}, {});
    OrphanLater(db, middle, after, s, Elements(rest), proved, at);
    forall t | t in rest ensures Ends(db, after, t, None, Freed, proved, at) {
      OrphanEarlier(db, middle, after, s, t, proved, at);
    }
  }

  lemma HeadAndTail(ids: seq<Id>)
    requires ids != [] && NoRepeats(ids)
    ensures Elements(ids) == {ids[0]} + Elements(ids[1..]) && ids[0] !in Elements(ids[1..]) && ids[0] !in ids[1..]
  {
  }

  lemma {:induction false} OrphansAllEnd(db: Database, orphans: seq<Id>, n: nat, proved: set<ProcessKey>, at: Time,
                                         actuals: Budgets.Actuals)
    requires OneReservation(db) && Ready(db) && Sound(db, actuals) && NoRepeats(orphans)
    requires forall s :: s in orphans ==> Orphan(db, s)
    ensures AllOrphansEnd(db, OrphansRecovered(db, orphans, n).0, orphans, proved, at)
    decreases orphans
  {
    if orphans == [] {
      AsideSame(db);
    } else {
      OrphanStep(db, actuals, orphans[0]);
      var middle := RecoverOrphan(db, orphans[0], None, None).db;
      OrphanEnds(db, orphans[0], proved, at);
      RestAreOrphans(db, middle, orphans);
      OrphansAllEnd(middle, orphans[1..], n + 1, proved, at, actuals);
      OrphansJoin(db, middle, OrphansRecovered(middle, orphans[1..], n + 1).0, orphans, proved, at);
    }
  }

  lemma AsideSame(db: Database)
    ensures Aside(db, db, {}, {})
  {
  }

  /** How many of the listed wakes are left in doubt. */
  ghost function Doubts(db: Database, ws: seq<Id>, proved: set<ProcessKey>): nat {
    if ws == [] then 0
    else (if ws[0] in db.wakes && EndingOf(db, ws[0], proved).Doubted? then 1 else 0) + Doubts(db, ws[1..], proved)
  }

  lemma {:induction false} DoubtsStay(db: Database, after: Database, ws: seq<Id>, proved: set<ProcessKey>)
    requires forall w :: w in ws ==> w in db.wakes && w in after.wakes && EndingOf(after, w, proved) == EndingOf(db, w, proved)
    ensures Doubts(after, ws, proved) == Doubts(db, ws, proved)
  {
    if ws != [] {
      DoubtsStay(db, after, ws[1..], proved);
    }
  }

  ghost predicate AllWakesEnd(db: Database, after: Database, ws: seq<Id>, proved: set<ProcessKey>, at: Time) {
    forall w :: w in ws ==> w in db.wakes && WakeEnds(db, after, w, proved, at)
  }

  lemma HeadEnds(db: Database, middle: Database, after: Database, w: Id, rest: seq<Id>, proved: set<ProcessKey>, at: Time)
    requires w in db.wakes && WakeEnds(db, middle, w, proved, at)
    requires Aside(middle, after, SessionsOf(middle, rest), DeliveriesOf(middle, rest))
    requires forall v :: v in rest ==> v in middle.wakes && ShareNothing(db.wakes[w], middle.wakes[v])
    ensures WakeEnds(db, after, w, proved, at)
  {
    EndsLater(db, middle, after, db.wakes[w].session, db.wakes[w].delivery, EndingOf(db, w, proved), proved, at,
              SessionsOf(middle, rest), DeliveriesOf(middle, rest));
  }

  lemma TailEnds(db: Database, middle: Database, after: Database, w: Id, rest: seq<Id>, proved: set<ProcessKey>, at: Time)
    requires w in db.wakes && Aside(db, middle, {db.wakes[w].session}, Bound(db.wakes[w].delivery))
    requires AllWakesEnd(middle, after, rest, proved, at)
    requires forall v :: v in rest ==> v in middle.wakes && v in db.wakes && middle.wakes[v] == db.wakes[v]
    requires forall v :: v in rest ==> ShareNothing(db.wakes[w], db.wakes[v])
    ensures AllWakesEnd(db, after, rest, proved, at)
  {
    forall v | v in rest ensures WakeEnds(db, after, v, proved, at) {
      EndingStays(db, middle, v, proved, {db.wakes[w].session}, Bound(db.wakes[w].delivery));
      EndsLater(db, middle, after, db.wakes[v].session, db.wakes[v].delivery, EndingOf(db, v, proved), proved, at,
                {db.wakes[w].session}, Bound(db.wakes[w].delivery));
    }
  }

  /** The rows of the listed wakes, and nothing else. */
  ghost predicate WakesLeave(db: Database, after: Database, ws: seq<Id>, proved: set<ProcessKey>, at: Time) {
    AllWakesEnd(db, after, ws, proved, at) && Aside(db, after, SessionsOf(db, ws), DeliveriesOf(db, ws))
  }

  lemma WakesJoin(db: Database, middle: Database, after: Database, ws: seq<Id>, rows: map<Id, Wake>, proved: set<ProcessKey>, at: Time)
    requires ws != [] && Listed(db, ws, rows) && WakeEnds(db, middle, ws[0], proved, at)
    requires Aside(db, middle, {db.wakes[ws[0]].session}, Bound(db.wakes[ws[0]].delivery))
    requires Listed(middle, ws[1..], rows) && WakesLeave(middle, after, ws[1..], proved, at)
    ensures WakesLeave(db, after, ws, proved, at)
  {
    var w, rest := ws[0], ws[1..];
    TailSets(db, middle, ws);
    AsideThrough(db, middle, after, {db.wakes[w].session}, SessionsOf(middle, rest), Bound(db.wakes[w].delivery),
                 DeliveriesOf(middle, rest));
    HeadEnds(db, middle, after, w, rest, proved, at);
    TailEnds(db, middle, after, w, rest, proved, at);
  }

  function TallyOf(tally: Tally, listed: nat, doubts: nat): Tally
    requires doubts <= listed
  {
    Tally(tally.recovered + listed - doubts, tally.uncertain + doubts)
  }

  /** One round of the second loop. */
  lemma RoundEnds(db: Database, ws: seq<Id>, rows: map<Id, Wake>, proved: set<ProcessKey>, at: Time, actuals: Budgets.Actuals)
    returns (middle: Database)
    requires OneReservation(db) && Ready(db) && Sound(db, actuals) && Listed(db, ws, rows) && ws != []
    requires forall w :: w in ws ==> !Blocked(db, w)
    ensures middle == Recovered(db, ws[0], rows[ws[0]], proved, at)
    ensures Result(db, ws[0], rows[ws[0]], proved, at) == Ok(!EndingOf(db, ws[0], proved).Doubted?)
    ensures OneReservation(middle) && Ready(middle) && Sound(middle, actuals) && Listed(middle, ws[1..], rows)
    ensures forall w :: w in ws[1..] ==> !Blocked(middle, w)
    ensures WakeEnds(db, middle, ws[0], proved, at) && Aside(db, middle, {db.wakes[ws[0]].session}, Bound(db.wakes[ws[0]].delivery))
  {
    middle := Recovered(db, ws[0], rows[ws[0]], proved, at);
    WakeStep(db, actuals, ws[0], proved, at);
    OneEnds(db, actuals, ws[0], proved, at);
    TailListed(db, middle, ws, rows, proved);
  }

  lemma {:induction false} WakesAllEnd(db: Database, ws: seq<Id>, rows: map<Id, Wake>, proved: set<ProcessKey>, at: Time, tally: Tally,
                                       actuals: Budgets.Actuals)
    requires OneReservation(db) && Ready(db) && Sound(db, actuals) && Listed(db, ws, rows)
    requires forall w :: w in ws ==> !Blocked(db, w)
    ensures WakesLeave(db, WakesRecovered(db, ws, rows, proved, at, tally).0, ws, proved, at)
    decreases ws
  {
    if ws == [] {
      AsideSame(db);
      assert SessionsOf(db, ws) == {} && DeliveriesOf(db, ws) == {};
    } else {
      var middle := RoundEnds(db, ws, rows, proved, at, actuals);
      var next := Counted(tally, !EndingOf(db, ws[0], proved).Doubted?);
      WakesAllEnd(middle, ws[1..], rows, proved, at, next, actuals);
      WakesJoin(db, middle, WakesRecovered(middle, ws[1..], rows, proved, at, next).0, ws, rows, proved, at);
    }
  }

  lemma RestDoubts(db: Database, middle: Database, ws: seq<Id>, rows: map<Id, Wake>, proved: set<ProcessKey>)
    requires ws != [] && Listed(db, ws, rows) && Aside(db, middle, {db.wakes[ws[0]].session}, Bound(db.wakes[ws[0]].delivery))
    ensures Doubts(middle, ws[1..], proved) == Doubts(db, ws[1..], proved)
  {
    forall v | v in ws[1..] ensures v in db.wakes && v in middle.wakes && EndingOf(middle, v, proved) == EndingOf(db, v, proved) {
      EndingStays(db, middle, v, proved, {db.wakes[ws[0]].session}, Bound(db.wakes[ws[0]].delivery));
    }
    DoubtsStay(db, middle, ws[1..], proved);
  }

  lemma OneMore(tally: Tally, doubted: bool, listed: nat, doubts: nat)
    requires doubts <= listed
    ensures TallyOf(Counted(tally, !doubted), listed, doubts) == TallyOf(tally, listed + 1, (if doubted then 1 else 0) + doubts)
  {
  }

  lemma RoundTallies(db: Database, ws: seq<Id>, rows: map<Id, Wake>, proved: set<ProcessKey>, at: Time, actuals: Budgets.Actuals)
    returns (middle: Database, doubted: bool)
    requires OneReservation(db) && Ready(db) && Sound(db, actuals) && Listed(db, ws, rows) && ws != []
    requires forall w :: w in ws ==> !Blocked(db, w)
    ensures middle == Recovered(db, ws[0], rows[ws[0]], proved, at)
    ensures Result(db, ws[0], rows[ws[0]], proved, at) == Ok(!doubted)
    ensures OneReservation(middle) && Ready(middle) && Sound(middle, actuals) && Listed(middle, ws[1..], rows)
    ensures forall w :: w in ws[1..] ==> !Blocked(middle, w)
    ensures Doubts(db, ws, proved) == (if doubted then 1 else 0) + Doubts(middle, ws[1..], proved)
  {
    middle := RoundEnds(db, ws, rows, proved, at, actuals);
    doubted := EndingOf(db, ws[0], proved).Doubted?;
    RestDoubts(db, middle, ws, rows, proved);
  }

  lemma RecoveredUnfolds(db: Database, ws: seq<Id>, rows: map<Id, Wake>, proved: set<ProcessKey>, at: Time, tally: Tally, doubted: bool)
    requires (forall w :: w in ws ==> w in rows) && ws != []
    requires Result(db, ws[0], rows[ws[0]], proved, at) == Ok(!doubted)
    ensures WakesRecovered(db, ws, rows, proved, at, tally)
         == WakesRecovered(Recovered(db, ws[0], rows[ws[0]], proved, at), ws[1..], rows, proved, at, Counted(tally, !doubted))
  {
  }

  /** Counted are the wakes in doubt, and the rest. */
  lemma {:induction false} WakesTally(db: Database, ws: seq<Id>, rows: map<Id, Wake>, proved: set<ProcessKey>, at: Time, tally: Tally,
                                      actuals: Budgets.Actuals) returns (doubts: nat)
    requires OneReservation(db) && Ready(db) && Sound(db, actuals) && Listed(db, ws, rows)
    requires forall w :: w in ws ==> !Blocked(db, w)
    ensures doubts == Doubts(db, ws, proved) <= |ws|
    ensures WakesRecovered(db, ws, rows, proved, at, tally).1 == Ok(TallyOf(tally, |ws|, doubts))
    decreases ws
  {
    if ws == [] {
      doubts := 0;
    } else {
      var middle, doubted := RoundTallies(db, ws, rows, proved, at, actuals);
      var more := WakesTally(middle, ws[1..], rows, proved, at, Counted(tally, !doubted), actuals);
      RecoveredUnfolds(db, ws, rows, proved, at, tally, doubted);
      OneMore(tally, doubted, |ws| - 1, more);
      doubts := (if doubted then 1 else 0) + more;
    }
  }

  // ---------- the whole of `recover` ----------

  /** A session without a wake. */
  ghost predicate Wakeless(db: Database, s: Id) {
    s in db.sessions && db.sessions[s].state.Active? && forall w :: w in db.wakes ==> db.wakes[w].session != s
  }

  predicate Live(w: Wake) {
    w.state.Prepared? || w.state.Running?
  }

  ghost function WakelessSessions(db: Database): set<Id> {
    set s | s in db.sessions && Wakeless(db, s)
  }

  function LiveSessions(db: Database): set<Id> {
    set w | w in db.wakes && Live(db.wakes[w]) :: db.wakes[w].session
  }

  function LiveDeliveries(db: Database): set<Id> {
    set w | w in db.wakes && Live(db.wakes[w]) && db.wakes[w].delivery.Some? :: db.wakes[w].delivery.value
  }

  /** Every orphan and every live wake ended as its rows said, and nothing else was touched. */
  ghost predicate RecoveryEnds(db: Database, after: Database, proved: set<ProcessKey>, at: Time) {
    && (forall s :: Wakeless(db, s) ==> Ends(db, after, s, None, Freed, proved, at))
    && (forall w :: w in db.wakes && Live(db.wakes[w]) ==> WakeEnds(db, after, w, proved, at))
    && Aside(db, after, WakelessSessions(db) + LiveSessions(db), LiveDeliveries(db))
  }

  ghost function InDoubt(db: Database, proved: set<ProcessKey>): set<Id> {
    set w | w in db.wakes && Live(db.wakes[w]) && EndingOf(db, w, proved).Doubted?
  }

  lemma ListingsAreSets(db: Database, middle: Database, orphans: seq<Id>, ws: seq<Id>)
    requires OrphanListing(db, orphans) && WakeListing(db, ws)
    requires forall w :: w in ws ==> w in middle.wakes && middle.wakes[w] == db.wakes[w]
    ensures Elements(orphans) == WakelessSessions(db) && SessionsOf(middle, ws) == LiveSessions(db)
    ensures DeliveriesOf(middle, ws) == LiveDeliveries(db)
    ensures forall s :: Wakeless(db, s) <==> s in orphans
  {
    forall s ensures Wakeless(db, s) <==> s in orphans {
      if Orphan(db, s) {
        forall w | w in db.wakes ensures db.wakes[w].session != s {
          assert w !in WakesOf(db.wakes, s);
        }
      }
    }
  }

  ghost function DoubtedIn(db: Database, ws: seq<Id>, proved: set<ProcessKey>): set<Id> {
    set w | w in ws && w in db.wakes && EndingOf(db, w, proved).Doubted?
  }

  lemma DoubtedHead(db: Database, ws: seq<Id>, proved: set<ProcessKey>)
    requires ws != [] && NoRepeats(ws) && ws[0] in db.wakes
    ensures DoubtedIn(db, ws, proved)
         == DoubtedIn(db, ws[1..], proved) + if EndingOf(db, ws[0], proved).Doubted? then {ws[0]} else {}
    ensures ws[0] !in DoubtedIn(db, ws[1..], proved)
  {
  }

  lemma {:induction false} DoubtsAreWakes(db: Database, ws: seq<Id>, proved: set<ProcessKey>)
    requires NoRepeats(ws) && forall w :: w in ws ==> w in db.wakes
    ensures Doubts(db, ws, proved) == |DoubtedIn(db, ws, proved)|
  {
    if ws == [] {
      assert DoubtedIn(db, ws, proved) == {};
    } else {
      DoubtedHead(db, ws, proved);
      DoubtsAreWakes(db, ws[1..], proved);
    }
  }

  lemma OrphansStayEnded(db: Database, middle: Database, after: Database, s: Id, ws: seq<Id>, proved: set<ProcessKey>, at: Time)
    requires Ends(db, middle, s, None, Freed, proved, at) && Wakeless(db, s)
    requires forall w :: w in ws ==> w in middle.wakes && w in db.wakes && middle.wakes[w] == db.wakes[w]
    requires Aside(middle, after, SessionsOf(middle, ws), DeliveriesOf(middle, ws))
    ensures Ends(db, after, s, None, Freed, proved, at)
  {
    EndsLater(db, middle, after, s, None, Freed, proved, at, SessionsOf(middle, ws), DeliveriesOf(middle, ws));
  }

  lemma WakesEndFromStart(db: Database, middle: Database, after: Database, w: Id, orphans: seq<Id>, proved: set<ProcessKey>, at: Time)
    requires w in db.wakes && db.wakes[w].session !in Elements(orphans) && Aside(db, middle, Elements(orphans), {})
    requires w in middle.wakes && WakeEnds(middle, after, w, proved, at)
    ensures WakeEnds(db, after, w, proved, at)
  {
    EndingStays(db, middle, w, proved, Elements(orphans), {});
    EndsLater(db, middle, after, db.wakes[w].session, db.wakes[w].delivery, EndingOf(db, w, proved), proved, at, Elements(orphans), {});
  }

  lemma BothLoopsEnd(db: Database, middle: Database, after: Database, orphans: seq<Id>, ws: seq<Id>, proved: set<ProcessKey>, at: Time)
    requires OrphanListing(db, orphans) && WakeListing(db, ws) && AllOrphansEnd(db, middle, orphans, proved, at)
    requires forall w :: w in ws ==> w in middle.wakes && middle.wakes[w] == db.wakes[w]
    requires WakesLeave(middle, after, ws, proved, at)
    ensures RecoveryEnds(db, after, proved, at)
  {
    ListingsAreSets(db, middle, orphans, ws);
    AsideThrough(db, middle, after, Elements(orphans), SessionsOf(middle, ws), {}, DeliveriesOf(middle, ws));
    assert {} + DeliveriesOf(middle, ws) == DeliveriesOf(middle, ws);
    forall s | Wakeless(db, s) ensures Ends(db, after, s, None, Freed, proved, at) {
      OrphansStayEnded(db, middle, after, s, ws, proved, at);
    }
    forall w | w in db.wakes && Live(db.wakes[w]) ensures WakeEnds(db, after, w, proved, at) {
      assert w in ws && !Wakeless(db, db.wakes[w].session);
      WakesEndFromStart(db, middle, after, w, orphans, proved, at);
    }
  }

  lemma WakesListed(db: Database, middle: Database, orphans: seq<Id>, ws: seq<Id>, proved: set<ProcessKey>)
    requires Ready(db) && OnePerRole(db.sessions) && OrphanListing(db, orphans) && WakeListing(db, ws) && !AnyBlocked(db)
    requires OrphansClosed(db, middle, orphans)
    ensures Listed(middle, ws, db.wakes) && forall w :: w in ws ==> !Blocked(middle, w)
    ensures forall w :: w in ws ==> w in middle.wakes && middle.wakes[w] == db.wakes[w]
  {
    ListedAfterOrphans(db, middle, orphans, ws);
    forall w | w in ws ensures !Blocked(middle, w) {
      SameAfterOrphans(db, middle, orphans, w, proved);
    }
  }

  lemma DoubtsFromStart(db: Database, middle: Database, orphans: seq<Id>, ws: seq<Id>, proved: set<ProcessKey>)
    requires OrphanListing(db, orphans) && WakeListing(db, ws) && Aside(db, middle, Elements(orphans), {})
    requires forall w :: w in ws ==> w in middle.wakes && middle.wakes[w] == db.wakes[w]
    ensures Doubts(middle, ws, proved) == |InDoubt(db, proved)|
  {
    ListingsAreSets(db, middle, orphans, ws);
    forall w | w in ws ensures EndingOf(middle, w, proved) == EndingOf(db, w, proved) {
      assert !Wakeless(db, db.wakes[w].session);
      EndingStays(db, middle, w, proved, Elements(orphans), {});
    }
    DoubtsStay(db, middle, ws, proved);
    DoubtsAreWakes(db, ws, proved);
    assert InDoubt(db, proved) == DoubtedIn(db, ws, proved);
  }

  lemma FirstLoopEnds(db: Database, orphans: seq<Id>, proved: set<ProcessKey>, at: Time, actuals: Budgets.Actuals)
    returns (middle: Database)
    requires OneReservation(db) && Ready(db) && Sound(db, actuals) && OrphanListing(db, orphans)
    ensures OrphansRecovered(db, orphans, 0) == (middle, Ok(|orphans|)) && AllOrphansEnd(db, middle, orphans, proved, at)
    ensures OrphansClosed(db, middle, orphans) && OneReservation(middle) && Ready(middle) && Sound(middle, actuals)
  {
    middle := OrphansPhase(db, orphans, actuals);
    OrphansAllEnd(db, orphans, 0, proved, at, actuals);
  }

  lemma FirstLoopAside(db: Database, orphans: seq<Id>, proved: set<ProcessKey>, at: Time, actuals: Budgets.Actuals)
    returns (middle: Database)
    requires OneReservation(db) && Ready(db) && Sound(db, actuals) && OrphanListing(db, orphans)
    ensures OrphansRecovered(db, orphans, 0) == (middle, Ok(|orphans|)) && Aside(db, middle, Elements(orphans), {})
    ensures OrphansClosed(db, middle, orphans) && OneReservation(middle) && Ready(middle) && Sound(middle, actuals)
  {
    middle := FirstLoopEnds(db, orphans, proved, at, actuals);
  }

  lemma SecondLoopEnds(db: Database, middle: Database, orphans: seq<Id>, ws: seq<Id>, proved: set<ProcessKey>, at: Time,
                       actuals: Budgets.Actuals)
    requires Ready(db) && OnePerRole(db.sessions) && OrphanListing(db, orphans) && WakeListing(db, ws) && !AnyBlocked(db)
    requires OrphansClosed(db, middle, orphans) && OneReservation(middle) && Ready(middle) && Sound(middle, actuals)
    requires AllOrphansEnd(db, middle, orphans, proved, at)
    ensures RecoveryEnds(db, WakesRecovered(middle, ws, db.wakes, proved, at, Tally(|orphans|, 0)).0, proved, at)
  {
    WakesListed(db, middle, orphans, ws, proved);
    WakesAllEnd(middle, ws, db.wakes, proved, at, Tally(|orphans|, 0), actuals);
    BothLoopsEnd(db, middle, WakesRecovered(middle, ws, db.wakes, proved, at, Tally(|orphans|, 0)).0, orphans, ws, proved, at);
  }

  lemma SecondLoopTally(db: Database, middle: Database, orphans: seq<Id>, ws: seq<Id>, proved: set<ProcessKey>, at: Time,
                        actuals: Budgets.Actuals)
    requires Ready(db) && OnePerRole(db.sessions) && OrphanListing(db, orphans) && WakeListing(db, ws) && !AnyBlocked(db)
    requires OrphansClosed(db, middle, orphans) && OneReservation(middle) && Ready(middle) && Sound(middle, actuals)
    requires Aside(db, middle, Elements(orphans), {})
    ensures |InDoubt(db, proved)| <= |ws|
    ensures WakesRecovered(middle, ws, db.wakes, proved, at, Tally(|orphans|, 0)).1
         == Ok(TallyOf(Tally(|orphans|, 0), |ws|, |InDoubt(db, proved)|))
  {
    WakesListed(db, middle, orphans, ws, proved);
    var doubts := WakesTally(middle, ws, db.wakes, proved, at, Tally(|orphans|, 0), actuals);
    DoubtsFromStart(db, middle, orphans, ws, proved);
  }

  /** From any database the protocol can leave in which no unstarted wake is blocked, `recover`
      gives back what never started, closes what is proved dead, leaves the rest in doubt, and
      touches nothing else. */
  lemma {:induction false} RecoveryLeaves(db: Database, orphans: seq<Id>, ws: seq<Id>, proved: set<ProcessKey>, at: Time,
                                          actuals: Budgets.Actuals)
    requires OneReservation(db) && Ready(db) && Sound(db, actuals) && OnePerRole(db.sessions)
    requires OrphanListing(db, orphans) && WakeListing(db, ws) && !AnyBlocked(db)
    ensures RecoveryEnds(db, Restarted(db, orphans, ws, proved, at).0, proved, at)
  {
    var middle := FirstLoopEnds(db, orphans, proved, at, actuals);
    SecondLoopEnds(db, middle, orphans, ws, proved, at, actuals);
    RestartedIs(db, orphans, ws, proved, at, middle);
  }

  /** And it counts the wakes in doubt, and everything else as recovered. */
  lemma {:induction false} RecoveryCounts(db: Database, orphans: seq<Id>, ws: seq<Id>, proved: set<ProcessKey>, at: Time,
                                          actuals: Budgets.Actuals)
    requires OneReservation(db) && Ready(db) && Sound(db, actuals) && OnePerRole(db.sessions)
    requires OrphanListing(db, orphans) && WakeListing(db, ws) && !AnyBlocked(db)
    ensures |InDoubt(db, proved)| <= |ws|
    ensures Restarted(db, orphans, ws, proved, at).1 == Ok(TallyOf(Tally(|orphans|, 0), |ws|, |InDoubt(db, proved)|))
  {
    var middle := FirstLoopAside(db, orphans, proved, at, actuals);
    SecondLoopTally(db, middle, orphans, ws, proved, at, actuals);
    RestartedIs(db, orphans, ws, proved, at, middle);
  }

  /** So wherever a run of the service is cut off. */
  lemma {:induction false} CrashLeaves(events: seq<WakeThreads.Event>, policy: Policies.Policy, ceiling: int, orphans: seq<Id>, ws: seq<Id>,
                                       proved: set<ProcessKey>, at: Time)
    requires Policies.Sound(policy) && 0 <= ceiling && WakeThreads.Possible(events, policy, ceiling)
    requires var db := WakeThreads.Reached(events).db; OrphanListing(db, orphans) && WakeListing(db, ws) && !AnyBlocked(db)
    ensures var db := WakeThreads.Reached(events).db;
      && Restarted(db, orphans, ws, proved, at).1.Ok?
      && RecoveryEnds(db, Restarted(db, orphans, ws, proved, at).0, proved, at)
  {
    var s := WakeThreads.Reached(events);
    WakeThreads.RunsAreSafe(events, policy, ceiling);
    WakeThreads.ParentsAreAlone(s.db, policy);
    RecoveryLeaves(s.db, orphans, ws, proved, at, s.actuals);
    RecoveryCounts(s.db, orphans, ws, proved, at, s.actuals);
  }
}
