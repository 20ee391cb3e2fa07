/** Restart recovery: `recover` and `_terminate_wake` of `supervisor.py` over the store, with
    the operating system's answer "this process group is dead" as a parameter. */
module Recovery {
  import opened Outcomes
  import opened Tables
  import opened Stores
  import opened Sessions
  import opened Wakes
  import opened Readiness
  import opened Capacities
  import opened RunLedger
  import Ledgers
  import Budgets
  import Deliveries

  // ---------- what recovery may meet ----------

  /** Never started, as far as the store knows: prepared, with no process row of any state. */
  ghost predicate Unstarted(db: Database, w: Id)
    requires w in db.wakes
  {
    db.wakes[w].state.Prepared? && ProcessesOf(db.processes, db.wakes[w].session) == {}
  }

  ghost predicate Releasable(db: Database, sid: Id) {
    forall r :: r in db.reservations && db.reservations[r].session == sid ==> db.reservations[r].state.Active?
  }

  ghost predicate Returnable(db: Database, delivery: Option<Id>) {
    delivery.Some? ==> delivery.value in db.deliveries && db.deliveries[delivery.value].state.Leased?
  }

  /** An unstarted wake whose tokens or delivery someone else has already moved. */
  ghost predicate Blocked(db: Database, w: Id) {
    w in db.wakes && Unstarted(db, w) && !(Releasable(db, db.wakes[w].session) && Returnable(db, db.wakes[w].delivery))
  }

  /** `UNIQUE(session_id)` on the reservation table. */
  ghost predicate OneReservation(db: Database) {
    forall r :: r in db.reservations ==> ReservationsOf(db.reservations, db.reservations[r].session) == {r}
  }

  ghost predicate OnePerRole(sessions: map<Id, Session>) {
    forall s :: s in sessions && sessions[s].state.Active? ==> ParentsOf(sessions, sessions[s].role) == {s}
  }

  /** Two live wakes never share a delivery: their sessions would be two active parents of
      the delivery's role. */
  lemma {:induction false} LiveWakesShareNothing(db: Database, v: Id, w: Id)
    requires Ready(db) && OnePerRole(db.sessions) && v in db.wakes && w in db.wakes && LiveWake(db.wakes[v]) && LiveWake(db.wakes[w])
    requires db.wakes[v].session == db.wakes[w].session || (db.wakes[v].delivery.Some? && db.wakes[v].delivery == db.wakes[w].delivery)
    ensures v == w
  {
  }

  // ---------- what one step may touch ----------

  /** Only the rows of the sessions `sids` and the deliveries `dids` changed, and only in state. */
  ghost predicate Touches(before: Database, after: Database, sids: set<Id>, dids: set<Id>) {
    && after.wakes.Keys == before.wakes.Keys
    && (forall w :: w in before.wakes ==>
          && after.wakes[w] == before.wakes[w].(state := after.wakes[w].state)
          && (before.wakes[w].session !in sids ==> after.wakes[w] == before.wakes[w]))
    && after.sessions.Keys == before.sessions.Keys
    && (forall s :: s in before.sessions && s !in sids ==> after.sessions[s] == before.sessions[s])
    && after.processes.Keys == before.processes.Keys
    && (forall p :: p in before.processes ==>
          && after.processes[p].session == before.processes[p].session
          && (before.processes[p].session !in sids ==> after.processes[p] == before.processes[p]))
    && after.reservations.Keys == before.reservations.Keys
    && (forall r :: r in before.reservations ==>
          && after.reservations[r].session == before.reservations[r].session
          && (before.reservations[r].session !in sids ==> after.reservations[r] == before.reservations[r]))
    && after.deliveries.Keys == before.deliveries.Keys
    && (forall d :: d in before.deliveries && d !in dids ==> after.deliveries[d] == before.deliveries[d])
  }

  lemma TouchesThrough(a: Database, b: Database, c: Database, s: set<Id>, t: set<Id>, d: set<Id>, e: set<Id>)
    requires Touches(a, b, s, d) && Touches(b, c, t, e)
    ensures Touches(a, c, s + t, d + e)
  {
  }

  lemma TouchesAgain(a: Database, b: Database, c: Database, sids: set<Id>, dids: set<Id>)
    requires Touches(a, b, sids, dids) && Touches(b, c, sids, dids)
    ensures Touches(a, c, sids, dids)
  {
  }

  lemma TouchingKeepsReservations(before: Database, after: Database, sids: set<Id>, dids: set<Id>)
    requires Touches(before, after, sids, dids) && OneReservation(before)
    ensures OneReservation(after)
  {
  }

  lemma UntouchedBlocks(before: Database, after: Database, sids: set<Id>, dids: set<Id>, w: Id)
    requires Touches(before, after, sids, dids) && w in before.wakes && before.wakes[w].session !in sids
    requires before.wakes[w].delivery.Some? ==> before.wakes[w].delivery.value !in dids
    ensures Blocked(after, w) <==> Blocked(before, w)
    ensures Unstarted(after, w) <==> Unstarted(before, w)
  {
  }

  // ---------- recovering an orphan, or a wake that never started ----------

  lemma ReservationIsRow(db: Database, r: Id, sid: Id)
    requires OneReservation(db) && r in db.reservations && db.reservations[r].session == sid
    ensures ReservationsOf(db.reservations, sid) == {r}
  {
  }

  /** Under a balanced ledger releasing for a session is refused exactly when its reservation
      is no longer active. */
  lemma {:induction false} ReleaseForCommits(db: Database, actuals: Budgets.Actuals, sid: Id)
    requires OneReservation(db) && Sound(db, actuals)
    ensures ReleaseFor(db, sid).Commit? <==> Releasable(db, sid)
  {
    if ReservationsOf(db.reservations, sid) != {} {
      var r :| r in ReservationsOf(db.reservations, sid) && ReleaseFor(db, sid) == Budgets.Release(db, r);
      ReservationIsRow(db, r, sid);
      if db.reservations[r].state.Active? {
        Ledgers.CoverGuardsUnreachable(db, actuals, r, 0);
        forall q | q in db.reservations && db.reservations[q].session == sid ensures q == r {
          assert q in ReservationsOf(db.reservations, sid);
        }
      }
    }
  }

  lemma {:induction false} ReleaseAndRetryCommits(db: Database, actuals: Budgets.Actuals, sid: Id, delivery: Option<Id>,
                                                  eligible: Option<Time>)
    requires OneReservation(db) && Sound(db, actuals) && (delivery.Some? ==> eligible.Some?)
    ensures ReleaseAndRetry(db, sid, delivery, eligible).Commit? <==> Releasable(db, sid) && Returnable(db, delivery)
    ensures ReleaseAndRetry(db, sid, delivery, eligible).Rollback? ==>
      ReleaseAndRetry(db, sid, delivery, eligible).error in {StateError(ReservationInactive), StateError(DeliveryNotLeased)}
  {
    ReleaseForCommits(db, actuals, sid);
    if ReleaseFor(db, sid).Commit? {
      assert ReleaseFor(db, sid).db.deliveries == db.deliveries;
    } else {
      ReleaseForRefuses(db, actuals, sid);
    }
  }

  lemma {:induction false} ReleaseForRefuses(db: Database, actuals: Budgets.Actuals, sid: Id)
    requires OneReservation(db) && Sound(db, actuals) && ReleaseFor(db, sid).Rollback?
    ensures ReleaseFor(db, sid).error == StateError(ReservationInactive)
  {
    var r :| r in ReservationsOf(db.reservations, sid) && ReleaseFor(db, sid) == Budgets.Release(db, r);
    if db.reservations[r].state.Active? {
      Ledgers.CoverGuardsUnreachable(db, actuals, r, 0);
    }
  }

  ghost predicate Orphan(db: Database, sid: Id) {
    IsActive(db, sid) && WakesOf(db.wakes, sid) == {}
  }

  lemma OrphanIsBare(db: Database, sid: Id)
    requires Ready(db) && Orphan(db, sid)
    ensures Bare(db, sid) && Releasable(db, sid)
  {
  }

  lemma {:induction false} OrphanRecovers(db: Database, actuals: Budgets.Actuals, sid: Id)
    requires OneReservation(db) && Ready(db) && Sound(db, actuals) && Orphan(db, sid)
    ensures RecoverOrphan(db, sid, None, None).Commit?
  {
    OrphanIsBare(db, sid);
    ReleaseAndRetryCommits(db, actuals, sid, None, None);
  }

  /** `recover_prepared_wake` is refused for an unstarted wake exactly when it is blocked. */
  lemma {:induction false} PreparedRecoversExactly(db: Database, actuals: Budgets.Actuals, w: Id, at: Time)
    requires OneReservation(db) && Ready(db) && Sound(db, actuals) && w in db.wakes && Unstarted(db, w)
    ensures RecoverPrepared(db, w, at).Commit? <==> !Blocked(db, w)
    ensures RecoverPrepared(db, w, at).Rollback? ==>
      RecoverPrepared(db, w, at).error in {StateError(ReservationInactive), StateError(DeliveryNotLeased)}
  {
    var sid := db.wakes[w].session;
    forall a | a in db.workers ensures db.workers[a].session != sid {
    }
    assert AttemptsOf(db.workers, sid) == {};
    ReleaseAndRetryCommits(db, actuals, sid, db.wakes[w].delivery, Some(at));
  }

  lemma RetryTouches(db: Database, delivery: Option<Id>, eligible: Option<Time>)
    requires RetryIfBound(db, delivery, eligible).Commit?
    ensures Touches(db, RetryIfBound(db, delivery, eligible).db, {}, Bound(delivery))
  {
  }

  function Bound(delivery: Option<Id>): set<Id> {
    if delivery.Some? then {delivery.value} else {}
  }

  lemma ReleaseTouches(db: Database, sid: Id)
    requires ReleaseFor(db, sid).Commit?
    ensures Touches(db, ReleaseFor(db, sid).db, {sid}, {})
  {
  }

  lemma ReleaseAndRetryTouches(db: Database, sid: Id, delivery: Option<Id>, eligible: Option<Time>)
    requires ReleaseAndRetry(db, sid, delivery, eligible).Commit?
    ensures Touches(db, ReleaseAndRetry(db, sid, delivery, eligible).db, {sid}, Bound(delivery))
  {
    var released := ReleaseFor(db, sid).db;
    ReleaseTouches(db, sid);
    RetryTouches(released, delivery, eligible);
    TouchesThrough(db, released, ReleaseAndRetry(db, sid, delivery, eligible).db, {sid}, {}, {}, Bound(delivery));
    assert {sid} + {} == {sid} && {} + Bound(delivery) == Bound(delivery);
  }

  lemma OrphanTouches(db: Database, sid: Id)
    requires RecoverOrphan(db, sid, None, None).Commit?
    ensures var after := RecoverOrphan(db, sid, None, None).db; Touches(db, after, {sid}, {}) && !IsActive(after, sid)
  {
    ReleaseAndRetryTouches(db, sid, None, None);
  }

  lemma PreparedTouches(db: Database, w: Id, at: Time)
    requires RecoverPrepared(db, w, at).Commit?
    ensures w in db.wakes
    ensures var after := RecoverPrepared(db, w, at).db;
      && Touches(db, after, {db.wakes[w].session}, Bound(db.wakes[w].delivery))
      && !IsActive(after, db.wakes[w].session) && !LiveWake(after.wakes[w])
  {
    ReleaseAndRetryTouches(db, db.wakes[w].session, db.wakes[w].delivery, Some(at));
  }

  // ---------- terminating a wake that did start ----------

  function Halted(row: Process, proved: bool): Process {
    row.(state := if proved then ProcessState.Terminated else ProcessState.Uncertain)
  }

  function RunningOf(db: Database, sid: Id): set<ProcessKey> {
    set p | p in db.processes && db.processes[p].session == sid && db.processes[p].state.Running?
  }

  /** The processes `done` have been signalled and marked by whether their death was proved. */
  function Signalled(db: Database, done: set<ProcessKey>, proved: set<ProcessKey>): Database {
    db.(processes := map p | p in db.processes :: if p in done then Halted(db.processes[p], p in proved) else db.processes[p])
  }

  ghost predicate AllProved(db: Database, sid: Id, proved: set<ProcessKey>) {
    RunningOf(db, sid) <= proved
  }

  lemma SignalNext(db: Database, done: set<ProcessKey>, proved: set<ProcessKey>, p: ProcessKey)
    requires p in db.processes && p !in done
    ensures var before := Signalled(db, done, proved);
      before.(processes := before.processes[p := Halted(db.processes[p], p in proved)]) == Signalled(db, done + {p}, proved)
  {
  }

  /** `terminate_session`: every running process group of the session is signalled; the
      session counts as terminated only if each was proved dead. */
  method TerminateSession(store: Store, sid: Id, proved: set<ProcessKey>) returns (complete: bool)
    requires store.Valid()
    modifies store
    ensures store.Valid()
    ensures store.db == Signalled(old(store.db), RunningOf(old(store.db), sid), proved)
    ensures complete <==> AllProved(old(store.db), sid, proved)
  {
    var start := store.db;
    var running := RunningOf(start, sid);
    var todo := running;
    complete := true;
    assert Signalled(start, {}, proved).processes == start.processes;
    assert running - todo == {};
    while todo != {}
      invariant store.Valid() && todo <= running
      invariant store.db == Signalled(start, running - todo, proved)
      invariant complete <==> running - todo <= proved
      decreases |todo|
    {
      var p :| p in todo;
      SignalNext(start, running - todo, proved, p);
      var r := store.FinishProcess(p, if p in proved then ProcessState.Terminated else ProcessState.Uncertain);
      complete := complete && p in proved;
      assert running - (todo - {p}) == (running - todo) + {p};
      todo := todo - {p};
    }
    assert running - todo == running;
  }

  lemma SignalledKeeps(db: Database, done: set<ProcessKey>, proved: set<ProcessKey>, actuals: Budgets.Actuals, sid: Id, dids: set<Id>)
    requires Ready(db) && Sound(db, actuals) && forall p :: p in done && p in db.processes ==> db.processes[p].session == sid
    ensures Ready(Signalled(db, done, proved)) && Sound(Signalled(db, done, proved), actuals)
    ensures Touches(db, Signalled(db, done, proved), {sid}, dids)
  {
    SameProcessesOf(db.processes, Signalled(db, done, proved).processes);
    FrameKeepsSound(db, actuals, Signalled(db, done, proved));
  }

  lemma ForcedKeeps(db: Database, did: Id, actuals: Budgets.Actuals, sids: set<Id>)
    requires Ready(db) && Sound(db, actuals)
    ensures var after := After(db, Deliveries.ForceUncertain(db, did));
      Ready(after) && Sound(after, actuals) && Touches(db, after, sids, {did}) && after.sessions == db.sessions
  {
    var after := After(db, Deliveries.ForceUncertain(db, did));
    RolesKeepReady(db, after);
    FrameKeepsSound(db, actuals, after);
  }

  lemma ClosedTouches(db: Database, sid: Id, dids: set<Id>)
    requires IsActive(db, sid)
    ensures var after := Sessions.ForceTerminate(db, sid, false).db;
      Touches(db, after, {sid}, dids) && !IsActive(after, sid) && Unwoken(after, sid)
  {
  }

  lemma ClosedKeeps(db: Database, sid: Id, actuals: Budgets.Actuals)
    requires Ready(db) && Sound(db, actuals) && IsActive(db, sid)
    ensures var after := Sessions.ForceTerminate(db, sid, false).db; Ready(after) && Sound(after, actuals)
  {
    var after := Sessions.ForceTerminate(db, sid, false).db;
    TerminateShuts(db, sid, false);
    ShuttingKeepsReady(db, after, sid);
    FrameKeepsSound(db, actuals, after);
  }

  lemma QuarantinedKeeps(db: Database, sid: Id, actuals: Budgets.Actuals, dids: set<Id>)
    requires Ready(db) && Sound(db, actuals)
    ensures var after := Sessions.EndWakes(db, sid, WakeState.Uncertain);
      && Ready(after) && Sound(after, actuals) && Touches(db, after, {sid}, dids) && Unwoken(after, sid) && after.sessions == db.sessions
  {
    WakesMoveKeepsReady(db, Sessions.EndWakes(db, sid, WakeState.Uncertain));
    FrameKeepsSound(db, actuals, Sessions.EndWakes(db, sid, WakeState.Uncertain));
  }

  /** A delivery still leased or running is quarantined; any other is left alone. */
  function Quarantine(db: Database, delivery: Option<Id>): Database {
    if delivery.Some? then After(db, Deliveries.ForceUncertain(db, delivery.value)) else db
  }

  function CloseProved(db: Database, sid: Id, delivery: Option<Id>): Database {
    After(Quarantine(db, delivery), Sessions.ForceTerminate(Quarantine(db, delivery), sid, false))
  }

  /** What `_terminate_wake` leaves. */
  ghost function Terminated(db: Database, sid: Id, delivery: Option<Id>, proved: set<ProcessKey>): Database {
    var signalled := Signalled(db, RunningOf(db, sid), proved);
    if AllProved(db, sid, proved) then CloseProved(signalled, sid, delivery)
    else Sessions.EndWakes(signalled, sid, WakeState.Uncertain)
  }

  lemma QuarantineKeeps(db: Database, sid: Id, delivery: Option<Id>, actuals: Budgets.Actuals)
    requires Ready(db) && Sound(db, actuals)
    ensures var after := Quarantine(db, delivery);
      Ready(after) && Sound(after, actuals) && Touches(db, after, {sid}, Bound(delivery)) && after.sessions == db.sessions
  {
    if delivery.Some? {
      ForcedKeeps(db, delivery.value, actuals, {sid});
    }
  }

  lemma CloseProvedKeeps(db: Database, sid: Id, delivery: Option<Id>, actuals: Budgets.Actuals)
    requires Ready(db) && Sound(db, actuals) && IsActive(db, sid)
    ensures var after := CloseProved(db, sid, delivery);
      && Ready(after) && Sound(after, actuals)
      && Touches(db, after, {sid}, Bound(delivery)) && Unwoken(after, sid) && !IsActive(after, sid)
  {
    var freed := Quarantine(db, delivery);
    QuarantineKeeps(db, sid, delivery, actuals);
    ClosedTouches(freed, sid, Bound(delivery));
    ClosedKeeps(freed, sid, actuals);
    TouchesAgain(db, freed, CloseProved(db, sid, delivery), {sid}, Bound(delivery));
  }

  /** Proved dead, the wake is closed with its tokens held and its delivery quarantined; not
      proved, only the wake is quarantined and the session keeps its place. Either way
      nothing is released and no other session is touched. */
  lemma {:induction false} TerminatedKeeps(db: Database, sid: Id, delivery: Option<Id>, proved: set<ProcessKey>, actuals: Budgets.Actuals)
    requires Ready(db) && Sound(db, actuals) && IsActive(db, sid)
    ensures var after := Terminated(db, sid, delivery, proved);
      && Ready(after) && Sound(after, actuals)
      && Touches(db, after, {sid}, Bound(delivery)) && Unwoken(after, sid)
      && (IsActive(after, sid) <==> !AllProved(db, sid, proved))
  {
    var signalled := Signalled(db, RunningOf(db, sid), proved);
    SignalledKeeps(db, RunningOf(db, sid), proved, actuals, sid, Bound(delivery));
    if AllProved(db, sid, proved) {
      CloseProvedKeeps(signalled, sid, delivery, actuals);
    } else {
      QuarantinedKeeps(signalled, sid, actuals, Bound(delivery));
    }
    TouchesAgain(db, signalled, Terminated(db, sid, delivery, proved), {sid}, Bound(delivery));
  }

  method CloseDead(store: Store, sid: Id, delivery: Option<Id>) returns (r: Outcome<()>)
    requires store.Valid()
    modifies store
    ensures store.Valid()
    ensures store.db == CloseProved(old(store.db), sid, delivery)
    ensures r == if IsActive(old(store.db), sid) then Ok(()) else Raised(StateError(SessionInactive))
  {
    if delivery.Some? {
      var ignored := store.ForceDeliveryUncertain(delivery.value);
    }
    r := store.ForceTerminateSession(sid, false);
  }

  /** `_terminate_wake`: closing a session that is no longer active is refused. */
  method TerminateWake(store: Store, wake: Wake, proved: set<ProcessKey>) returns (r: Outcome<bool>)
    requires store.Valid()
    modifies store
    ensures store.Valid()
    ensures store.db == Terminated(old(store.db), wake.session, wake.delivery, proved)
    ensures r == if !AllProved(old(store.db), wake.session, proved) then Ok(false)
                 else if IsActive(old(store.db), wake.session) then Ok(true) else Raised(StateError(SessionInactive))
  {
    var terminated := TerminateSession(store, wake.session, proved);
    if terminated {
      var closed := CloseDead(store, wake.session, wake.delivery);
      if closed.Raised? {
        return Raised(closed.error);
      }
    } else {
      store.QuarantineWake(wake.session);
    }
    return Ok(terminated);
  }

  // ---------- one wake ----------

  /** Nothing is left running: the wake never started, or each of its processes is proved dead. */
  ghost predicate Stopped(db: Database, w: Id, proved: set<ProcessKey>)
    requires w in db.wakes
  {
    Unstarted(db, w) || AllProved(db, db.wakes[w].session, proved)
  }

  ghost predicate Unrecorded(db: Database, row: Wake) {
    row.state.Prepared? && ProcessesOf(db.processes, row.session) == {}
  }

  /** One round of the second loop of `recover`, for a listed wake: what it leaves and what it
      returns. */
  ghost function Recovered(db: Database, w: Id, row: Wake, proved: set<ProcessKey>, at: Time): Database {
    if Unrecorded(db, row) then After(db, RecoverPrepared(db, w, at))
    else Terminated(db, row.session, row.delivery, proved)
  }

  ghost function Result(db: Database, w: Id, row: Wake, proved: set<ProcessKey>, at: Time): Outcome<bool> {
    if Unrecorded(db, row) then
      var tx := RecoverPrepared(db, w, at);
      if tx.Commit? then Ok(true) else Raised(tx.error)
    else if !AllProved(db, row.session, proved) then Ok(false)
    else if IsActive(db, row.session) then Ok(true)
    else Raised(StateError(SessionInactive))
  }

  /** The wake's row is the one listed before the loop; its process rows are read now. */
  method RecoverWake(store: Store, w: Id, row: Wake, proved: set<ProcessKey>, at: Time) returns (r: Outcome<bool>)
    requires store.Valid()
    modifies store
    ensures store.Valid() && store.db == Recovered(old(store.db), w, row, proved, at)
    ensures r == Result(old(store.db), w, row, proved, at)
  {
    var records := ProcessesOf(store.db.processes, row.session);
    if row.state.Prepared? && records == {} {
      var cleanup := store.RecoverPreparedWake(w, at);
      return if cleanup.Ok? then Ok(true) else Raised(cleanup.error);
    }
    r := TerminateWake(store, row, proved);
  }

  lemma {:induction false} RecoveredKeeps(db: Database, actuals: Budgets.Actuals, w: Id, proved: set<ProcessKey>, at: Time)
    requires OneReservation(db) && Ready(db) && Sound(db, actuals) && w in db.wakes && LiveWake(db.wakes[w])
    ensures var after, sid := Recovered(db, w, db.wakes[w], proved, at), db.wakes[w].session;
      && Ready(after) && Sound(after, actuals) && Touches(db, after, {sid}, Bound(db.wakes[w].delivery))
      && (!Blocked(db, w) ==> Unwoken(after, sid) && (IsActive(after, sid) <==> !Stopped(db, w, proved)))
  {
    var after, sid := Recovered(db, w, db.wakes[w], proved, at), db.wakes[w].session;
    if !Unstarted(db, w) {
      TerminatedKeeps(db, sid, db.wakes[w].delivery, proved, actuals);
    } else if Blocked(db, w) {
      PreparedRecoversExactly(db, actuals, w, at);
    } else {
      PreparedRecoversExactly(db, actuals, w, at);
      UnstartedKeeps(db, actuals, w, at);
    }
  }

  lemma UnstartedKeeps(db: Database, actuals: Budgets.Actuals, w: Id, at: Time)
    requires Ready(db) && Sound(db, actuals) && RecoverPrepared(db, w, at).Commit?
    ensures var after := RecoverPrepared(db, w, at).db;
      && w in db.wakes && Ready(after) && Sound(after, actuals)
      && Touches(db, after, {db.wakes[w].session}, Bound(db.wakes[w].delivery))
      && Unwoken(after, db.wakes[w].session) && !IsActive(after, db.wakes[w].session)
  {
    var c := Runs.RecoverPreparedWake(w, at);
    assert Runs.RecoveryStep(db, c) == RecoverPrepared(db, w, at).db;
    RecoveryStepKeepsReady(db, c);
    RecoveryStepKeepsSound(db, actuals, c);
    PreparedTouches(db, w, at);
    PreparedShuts(db, w, at);
  }

  lemma {:induction false} ResultExactly(db: Database, actuals: Budgets.Actuals, w: Id, proved: set<ProcessKey>, at: Time)
    requires OneReservation(db) && Ready(db) && Sound(db, actuals) && w in db.wakes && LiveWake(db.wakes[w])
    ensures var r := Result(db, w, db.wakes[w], proved, at);
      && (r.Raised? <==> Blocked(db, w))
      && (if r.Ok? then r.value == Stopped(db, w, proved) else r.error in {StateError(ReservationInactive), StateError(DeliveryNotLeased)})
  {
    if Unstarted(db, w) {
      PreparedRecoversExactly(db, actuals, w, at);
    }
  }

  // ---------- the two loops ----------

  /** The first loop of `recover` over the listed orphans; a refusal ends it. */
  ghost function OrphansRecovered(db: Database, orphans: seq<Id>, recovered: nat): (Database, Outcome<nat>)
    decreases orphans
  {
    if orphans == [] then (db, Ok(recovered))
    else
      var tx := RecoverOrphan(db, orphans[0], None, None);
      if tx.Rollback? then (db, Raised(tx.error))
      else OrphansRecovered(tx.db, orphans[1..], recovered + 1)
  }

  /** How many wakes were recovered, and how many left uncertain. */
  datatype Tally = Tally(recovered: nat, uncertain: nat)

  /** The second loop, over the listed wakes. */
  ghost function WakesRecovered(db: Database, ws: seq<Id>, rows: map<Id, Wake>, proved: set<ProcessKey>, at: Time, tally: Tally)
    : (Database, Outcome<Tally>)
    requires forall w :: w in ws ==> w in rows
    decreases ws
  {
    if ws == [] then (db, Ok(tally))
    else
      var after := Recovered(db, ws[0], rows[ws[0]], proved, at);
      var first := Result(db, ws[0], rows[ws[0]], proved, at);
      if first.Raised? then (after, Raised(first.error))
      else WakesRecovered(after, ws[1..], rows, proved, at, Counted(tally, first.value))
  }

  function Counted(tally: Tally, recovered: bool): Tally {
    if recovered then tally.(recovered := tally.recovered + 1) else tally.(uncertain := tally.uncertain + 1)
  }

  ghost predicate OrphansClosed(start: Database, db: Database, orphans: seq<Id>) {
    Touches(start, db, set s | s in orphans, {}) && forall s :: s in orphans ==> !IsActive(db, s)
  }

  predicate NoRepeats(ids: seq<Id>) {
    forall i, j :: 0 <= i < j < |ids| ==> ids[i] != ids[j]
  }

  lemma StillOrphan(start: Database, db: Database, done: Id, s: Id)
    requires Touches(start, db, {done}, {}) && Orphan(start, s) && s != done
    ensures Orphan(db, s)
  {
  }

  lemma OrphanStep(db: Database, actuals: Budgets.Actuals, s: Id)
    requires OneReservation(db) && Ready(db) && Sound(db, actuals) && Orphan(db, s)
    ensures RecoverOrphan(db, s, None, None).Commit?
    ensures var after := RecoverOrphan(db, s, None, None).db;
      OneReservation(after) && Ready(after) && Sound(after, actuals) && Touches(db, after, {s}, {}) && !IsActive(after, s)
  {
    OrphanRecovers(db, actuals, s);
    var c := Runs.RecoverOrphanSession(s, None, None);
    assert Runs.RecoveryStep(db, c) == RecoverOrphan(db, s, None, None).db;
    RecoveryStepKeepsReady(db, c);
    RecoveryStepKeepsSound(db, actuals, c);
    OrphanTouches(db, s);
    TouchingKeepsReservations(db, RecoverOrphan(db, s, None, None).db, {s}, {});
  }

  lemma TouchesList(db: Database, middle: Database, after: Database, orphans: seq<Id>)
    requires orphans != [] && Touches(db, middle, {orphans[0]}, {}) && Touches(middle, after, set s | s in orphans[1..], {})
    ensures Touches(db, after, set s | s in orphans, {})
  {
  }

  lemma RestAreOrphans(db: Database, middle: Database, orphans: seq<Id>)
    requires orphans != [] && NoRepeats(orphans) && Touches(db, middle, {orphans[0]}, {})
    requires forall s :: s in orphans ==> Orphan(db, s)
    ensures NoRepeats(orphans[1..]) && forall t :: t in orphans[1..] ==> Orphan(middle, t) && t != orphans[0]
  {
    forall i | 1 <= i < |orphans| ensures Orphan(middle, orphans[i]) {
      StillOrphan(db, middle, orphans[0], orphans[i]);
    }
  }

  /** Every orphan is recovered: the first loop never raises. */
  lemma {:induction false} OrphansAllRecover(db: Database, orphans: seq<Id>, n: nat, actuals: Budgets.Actuals)
    requires OneReservation(db) && Ready(db) && Sound(db, actuals) && NoRepeats(orphans)
    requires forall s :: s in orphans ==> Orphan(db, s)
    ensures OrphansRecovered(db, orphans, n).1 == Ok(n + |orphans|)
    ensures var after := OrphansRecovered(db, orphans, n).0; OneReservation(after) && Ready(after) && Sound(after, actuals)
    decreases orphans
  {
    if orphans != [] {
      OrphanStep(db, actuals, orphans[0]);
      var middle := RecoverOrphan(db, orphans[0], None, None).db;
      RestAreOrphans(db, middle, orphans);
      OrphansAllRecover(middle, orphans[1..], n + 1, actuals);
    }
  }

  /** It closes the orphans and touches nothing else. */
  lemma {:induction false} OrphansAllClose(db: Database, orphans: seq<Id>, n: nat, actuals: Budgets.Actuals)
    requires OneReservation(db) && Ready(db) && Sound(db, actuals) && NoRepeats(orphans)
    requires forall s :: s in orphans ==> Orphan(db, s)
    ensures OrphansClosed(db, OrphansRecovered(db, orphans, n).0, orphans)
    decreases orphans
  {
    if orphans != [] {
      OrphanStep(db, actuals, orphans[0]);
      var middle := RecoverOrphan(db, orphans[0], None, None).db;
      RestAreOrphans(db, middle, orphans);
      OrphansAllClose(middle, orphans[1..], n + 1, actuals);
      TouchesList(db, middle, OrphansRecovered(middle, orphans[1..], n + 1).0, orphans);
    }
  }

  // ---------- the wakes ----------

  ghost function SessionsOf(db: Database, ws: seq<Id>): set<Id> {
    set w | w in ws && w in db.wakes :: db.wakes[w].session
  }

  ghost function DeliveriesOf(db: Database, ws: seq<Id>): set<Id> {
    set w | w in ws && w in db.wakes && db.wakes[w].delivery.Some? :: db.wakes[w].delivery.value
  }

  predicate ShareNothing(v: Wake, w: Wake) {
    v.session != w.session && (v.delivery.Some? ==> v.delivery != w.delivery)
  }

  /** Live wakes, no two of one session or one delivery. */
  ghost predicate Listed(db: Database, ws: seq<Id>, rows: map<Id, Wake>) {
    && (forall w :: w in ws ==> w in rows && w in db.wakes && db.wakes[w] == rows[w] && LiveWake(rows[w]))
    && (forall i, j :: 0 <= i < j < |ws| ==> ShareNothing(rows[ws[i]], rows[ws[j]]))
  }

  /** The wake was put in order: not blocked, over, and its session closed if it was stopped. */
  ghost predicate Settled(start: Database, db: Database, w: Id, proved: set<ProcessKey>)
    requires w in start.wakes
  {
    !Blocked(start, w) && Unwoken(db, start.wakes[w].session) && (IsActive(db, start.wakes[w].session) <==> !Stopped(start, w, proved))
  }

  /** A wake not yet handled is as it was when recovery began. */
  lemma StillListed(db: Database, after: Database, w: Id, v: Id, proved: set<ProcessKey>)
    requires w in db.wakes && v in db.wakes && ShareNothing(db.wakes[w], db.wakes[v])
    requires Touches(db, after, {db.wakes[w].session}, Bound(db.wakes[w].delivery))
    ensures v in after.wakes && after.wakes[v] == db.wakes[v]
    ensures Blocked(after, v) <==> Blocked(db, v)
    ensures Stopped(after, v, proved) <==> Stopped(db, v, proved)
  {
  }

  lemma TailListed(db: Database, after: Database, ws: seq<Id>, rows: map<Id, Wake>, proved: set<ProcessKey>)
    requires Listed(db, ws, rows) && ws != []
    requires Touches(db, after, {db.wakes[ws[0]].session}, Bound(db.wakes[ws[0]].delivery))
    ensures Listed(after, ws[1..], rows)
    ensures forall v :: v in ws[1..] ==> v in after.wakes && after.wakes[v] == db.wakes[v] && ShareNothing(db.wakes[ws[0]], db.wakes[v])
    ensures forall v :: v in ws[1..] ==> (Blocked(after, v) <==> Blocked(db, v))
    ensures forall v :: v in ws[1..] ==> v in after.wakes && (Stopped(after, v, proved) <==> Stopped(db, v, proved))
  {
    forall i | 1 <= i < |ws|
      ensures ws[i] in after.wakes && after.wakes[ws[i]] == db.wakes[ws[i]] && ShareNothing(db.wakes[ws[0]], db.wakes[ws[i]])
      ensures Blocked(after, ws[i]) <==> Blocked(db, ws[i])
      ensures ws[i] in after.wakes && (Stopped(after, ws[i], proved) <==> Stopped(db, ws[i], proved))
    {
      StillListed(db, after, ws[0], ws[i], proved);
    }
  }

  lemma HeadStaysSettled(db: Database, middle: Database, after: Database, w: Id, proved: set<ProcessKey>, sids: set<Id>, dids: set<Id>)
    requires w in db.wakes && Settled(db, middle, w, proved) && db.wakes[w].session !in sids && Touches(middle, after, sids, dids)
    ensures Settled(db, after, w, proved)
  {
  }

  lemma TailSets(db: Database, middle: Database, ws: seq<Id>)
    requires ws != [] && ws[0] in db.wakes
    requires forall v :: v in ws[1..] ==> v in middle.wakes && v in db.wakes && middle.wakes[v] == db.wakes[v]
    ensures SessionsOf(db, ws) == {db.wakes[ws[0]].session} + SessionsOf(middle, ws[1..])
    ensures DeliveriesOf(db, ws) == Bound(db.wakes[ws[0]].delivery) + DeliveriesOf(middle, ws[1..])
  {
  }

  lemma WakeStep(db: Database, actuals: Budgets.Actuals, w: Id, proved: set<ProcessKey>, at: Time)
    requires OneReservation(db) && Ready(db) && Sound(db, actuals) && w in db.wakes && LiveWake(db.wakes[w])
    ensures var after := Recovered(db, w, db.wakes[w], proved, at);
      && OneReservation(after) && Ready(after) && Sound(after, actuals)
      && Touches(db, after, {db.wakes[w].session}, Bound(db.wakes[w].delivery))
      && (!Blocked(db, w) ==> Settled(db, after, w, proved))
  {
    RecoveredKeeps(db, actuals, w, proved, at);
    TouchingKeepsReservations(db, Recovered(db, w, db.wakes[w], proved, at), {db.wakes[w].session}, Bound(db.wakes[w].delivery));
  }

  /** The second loop raises exactly when a listed wake is blocked, and stops there. */
  lemma {:induction false} WakesRecoverExactly(db: Database, ws: seq<Id>, rows: map<Id, Wake>, proved: set<ProcessKey>, at: Time,
                                               tally: Tally, actuals: Budgets.Actuals)
    requires OneReservation(db) && Ready(db) && Sound(db, actuals) && Listed(db, ws, rows)
    ensures var (after, r) := WakesRecovered(db, ws, rows, proved, at, tally);
      && Ready(after) && Sound(after, actuals)
      && (r.Ok? <==> forall w :: w in ws ==> !Blocked(db, w))
      && (if r.Ok? then r.value.recovered + r.value.uncertain == tally.recovered + tally.uncertain + |ws|
          else r.error in {StateError(ReservationInactive), StateError(DeliveryNotLeased)})
    decreases ws
  {
    if ws != [] {
      var middle := Recovered(db, ws[0], rows[ws[0]], proved, at);
      WakeStep(db, actuals, ws[0], proved, at);
      ResultExactly(db, actuals, ws[0], proved, at);
      TailListed(db, middle, ws, rows, proved);
      var first := Result(db, ws[0], rows[ws[0]], proved, at);
      if first.Ok? {
        WakesRecoverExactly(middle, ws[1..], rows, proved, at, Counted(tally, first.value), actuals);
      }
    }
  }

  /** When it does not raise, every listed wake is in order and nothing else was touched. */
  lemma {:induction false} WakesAllSettle(db: Database, ws: seq<Id>, rows: map<Id, Wake>, proved: set<ProcessKey>, at: Time, tally: Tally,
                                          actuals: Budgets.Actuals)
    requires OneReservation(db) && Ready(db) && Sound(db, actuals) && Listed(db, ws, rows)
    requires forall w :: w in ws ==> !Blocked(db, w)
    ensures var after := WakesRecovered(db, ws, rows, proved, at, tally).0;
      && Touches(db, after, SessionsOf(db, ws), DeliveriesOf(db, ws))
      && (forall w :: w in ws ==> w in db.wakes && Settled(db, after, w, proved))
    decreases ws
  {
    if ws != [] {
      var w, rest := ws[0], ws[1..];
      var middle := Recovered(db, w, db.wakes[w], proved, at);
      WakeStep(db, actuals, w, proved, at);
      ResultExactly(db, actuals, w, proved, at);
      TailListed(db, middle, ws, rows, proved);
      WakesAllSettle(middle, rest, rows, proved, at, Counted(tally, Result(db, w, rows[w], proved, at).value), actuals);
      var after := WakesRecovered(middle, rest, rows, proved, at, Counted(tally, Result(db, w, rows[w], proved, at).value)).0;
      TailSets(db, middle, ws);
      TouchesThrough(db, middle, after, {db.wakes[w].session}, SessionsOf(middle, rest), Bound(db.wakes[w].delivery),
                     DeliveriesOf(middle, rest));
      HeadStaysSettled(db, middle, after, w, proved, SessionsOf(middle, rest), DeliveriesOf(middle, rest));
      forall v | v in rest ensures Settled(db, after, v, proved) {
        assert Settled(middle, after, v, proved);
      }
    }
  }

  // ---------- `recover` ----------

  method RunOrphans(store: Store, orphans: seq<Id>) returns (r: Outcome<nat>)
    requires store.Valid()
    modifies store
    ensures store.Valid() && (store.db, r) == OrphansRecovered(old(store.db), orphans, 0)
  {
    ghost var start := store.db;
    var recovered := 0;
    for i := 0 to |orphans|
      invariant store.Valid()
      invariant OrphansRecovered(start, orphans, 0) == OrphansRecovered(store.db, orphans[i..], recovered)
    {
      assert orphans[i..][0] == orphans[i] && orphans[i..][1..] == orphans[i + 1..];
      var one := store.RecoverOrphanSession(orphans[i], None, None);
      if one.Raised? {
        return Raised(one.error);
      }
      recovered := recovered + 1;
    }
    return Ok(recovered);
  }

  method RunWakes(store: Store, ws: seq<Id>, rows: map<Id, Wake>, proved: set<ProcessKey>, at: Time, start: Tally)
    returns (r: Outcome<Tally>)
    requires store.Valid() && forall w :: w in ws ==> w in rows
    modifies store
    ensures store.Valid() && (store.db, r) == WakesRecovered(old(store.db), ws, rows, proved, at, start)
  {
    var tally := start;
    for i := 0 to |ws|
      invariant store.Valid()
      invariant WakesRecovered(old(store.db), ws, rows, proved, at, start) == WakesRecovered(store.db, ws[i..], rows, proved, at, tally)
    {
      assert ws[i..][0] == ws[i] && ws[i..][1..] == ws[i + 1..];
      var one := RecoverWake(store, ws[i], rows[ws[i]], proved, at);
      if one.Raised? {
        return Raised(one.error);
      }
      tally := Counted(tally, one.value);
    }
    return Ok(tally);
  }

  /** The rows a listing query returns, in its order. */
  ghost predicate OrphanListing(db: Database, orphans: seq<Id>) {
    NoRepeats(orphans) && forall s :: s in orphans <==> Orphan(db, s)
  }

  ghost predicate WakeListing(db: Database, ws: seq<Id>) {
    NoRepeats(ws) && forall w :: w in ws <==> w in db.wakes && LiveWake(db.wakes[w])
  }

  ghost predicate AnyBlocked(db: Database) {
    exists w :: w in db.wakes && Blocked(db, w)
  }

  /** What recovery leaves when it does not raise. */
  ghost predicate InOrder(start: Database, db: Database, proved: set<ProcessKey>) {
    && (forall w :: w in db.wakes ==> !LiveWake(db.wakes[w]))
    && (forall s :: IsActive(db, s) <==> Remains(start, s, proved))
  }

  /** A session that stays active: it has a wake, and that wake was over already or is now in
      the hands of a person because a process of it could not be proved dead. */
  ghost predicate Remains(start: Database, s: Id, proved: set<ProcessKey>) {
    && IsActive(start, s) && !Orphan(start, s)
    && forall w :: w in start.wakes && start.wakes[w].session == s && LiveWake(start.wakes[w]) ==> !Stopped(start, w, proved)
  }

  lemma ListedAfterOrphans(db: Database, middle: Database, orphans: seq<Id>, ws: seq<Id>)
    requires Ready(db) && OnePerRole(db.sessions) && OrphanListing(db, orphans) && WakeListing(db, ws)
    requires OrphansClosed(db, middle, orphans)
    ensures Listed(middle, ws, db.wakes)
  {
    forall w | w in ws ensures w in middle.wakes && middle.wakes[w] == db.wakes[w] {
      assert w in WakesOf(db.wakes, db.wakes[w].session);
    }
    forall i, j | 0 <= i < j < |ws| ensures ShareNothing(db.wakes[ws[i]], db.wakes[ws[j]]) {
      var v, w := ws[i], ws[j];
      assert v in ws && w in ws;
      if !ShareNothing(db.wakes[v], db.wakes[w]) {
        LiveWakesShareNothing(db, v, w);
      }
    }
  }

  lemma SameAfterOrphans(db: Database, middle: Database, orphans: seq<Id>, w: Id, proved: set<ProcessKey>)
    requires Ready(db) && OrphanListing(db, orphans) && OrphansClosed(db, middle, orphans) && w in db.wakes
    ensures w in middle.wakes && middle.wakes[w] == db.wakes[w]
    ensures Blocked(middle, w) <==> Blocked(db, w)
    ensures Stopped(middle, w, proved) <==> Stopped(db, w, proved)
  {
    assert w in WakesOf(db.wakes, db.wakes[w].session);
    UntouchedBlocks(db, middle, set s | s in orphans, {}, w);
    assert RunningOf(middle, db.wakes[w].session) == RunningOf(db, db.wakes[w].session);
  }

  lemma SettledInOrder(db: Database, middle: Database, after: Database, orphans: seq<Id>, ws: seq<Id>, proved: set<ProcessKey>)
    requires Ready(db) && OrphanListing(db, orphans) && WakeListing(db, ws) && OrphansClosed(db, middle, orphans)
    requires Touches(middle, after, SessionsOf(middle, ws), DeliveriesOf(middle, ws))
    requires forall w :: w in ws ==> w in middle.wakes && Settled(middle, after, w, proved)
    ensures InOrder(db, after, proved)
  {
    forall w | w in db.wakes
      ensures w in middle.wakes && middle.wakes[w] == db.wakes[w] && (Stopped(middle, w, proved) <==> Stopped(db, w, proved))
    {
      SameAfterOrphans(db, middle, orphans, w, proved);
    }
    forall w | w in after.wakes ensures !LiveWake(after.wakes[w]) {
      if LiveWake(db.wakes[w]) {
        assert w in ws && Settled(middle, after, w, proved);
      } else {
        assert w in WakesOf(db.wakes, db.wakes[w].session);
        assert db.wakes[w].session !in SessionsOf(middle, ws);
      }
    }
    forall s ensures IsActive(after, s) <==> Remains(db, s, proved) {
      SettledSession(db, middle, after, orphans, ws, proved, s);
    }
  }

  /** A session with a live wake ends as that wake does. */
  lemma SettledWoken(db: Database, middle: Database, after: Database, ws: seq<Id>, proved: set<ProcessKey>, w: Id)
    requires Ready(db) && WakeListing(db, ws) && w in ws && w in middle.wakes && Settled(middle, after, w, proved)
    requires middle.wakes[w] == db.wakes[w] && (Stopped(middle, w, proved) <==> Stopped(db, w, proved))
    ensures IsActive(after, db.wakes[w].session) <==> Remains(db, db.wakes[w].session, proved)
  {
    var s := db.wakes[w].session;
    assert w in WakesOf(db.wakes, s) && WakesOf(db.wakes, s) == {w};
    assert forall v :: v in db.wakes && db.wakes[v].session == s ==> v in WakesOf(db.wakes, s);
  }

  /** A session without one is untouched, unless it was an orphan. */
  lemma SettledUnwoken(db: Database, middle: Database, after: Database, orphans: seq<Id>, ws: seq<Id>, proved: set<ProcessKey>, s: Id)
    requires OrphanListing(db, orphans) && WakeListing(db, ws) && OrphansClosed(db, middle, orphans)
    requires Touches(middle, after, SessionsOf(middle, ws), DeliveriesOf(middle, ws))
    requires forall w :: w in ws ==> w in middle.wakes && middle.wakes[w] == db.wakes[w]
    requires forall w :: w in db.wakes && LiveWake(db.wakes[w]) ==> db.wakes[w].session != s
    ensures IsActive(after, s) <==> Remains(db, s, proved)
  {
    assert s !in SessionsOf(middle, ws);
    assert s in orphans <==> Orphan(db, s);
  }

  lemma SettledSession(db: Database, middle: Database, after: Database, orphans: seq<Id>, ws: seq<Id>, proved: set<ProcessKey>, s: Id)
    requires Ready(db) && OrphanListing(db, orphans) && WakeListing(db, ws) && OrphansClosed(db, middle, orphans)
    requires Touches(middle, after, SessionsOf(middle, ws), DeliveriesOf(middle, ws))
    requires forall w :: w in ws ==> w in middle.wakes && Settled(middle, after, w, proved)
    requires forall w :: w in db.wakes ==>
      w in middle.wakes && middle.wakes[w] == db.wakes[w] && (Stopped(middle, w, proved) <==> Stopped(db, w, proved))
    ensures IsActive(after, s) <==> Remains(db, s, proved)
  {
    if w :| w in db.wakes && db.wakes[w].session == s && LiveWake(db.wakes[w]) {
      assert w in ws;
      SettledWoken(db, middle, after, ws, proved, w);
    } else {
      SettledUnwoken(db, middle, after, orphans, ws, proved, s);
    }
  }

  lemma BlockedAreListed(db: Database, ws: seq<Id>)
    requires WakeListing(db, ws)
    ensures AnyBlocked(db) <==> exists w :: w in ws && Blocked(db, w)
  {
  }

  lemma WakesPhase(db: Database, middle: Database, orphans: seq<Id>, ws: seq<Id>, proved: set<ProcessKey>, at: Time, tally: Tally,
                   actuals: Budgets.Actuals)
    requires Ready(db) && OnePerRole(db.sessions) && OrphanListing(db, orphans) && WakeListing(db, ws)
    requires OrphansClosed(db, middle, orphans) && OneReservation(middle) && Ready(middle) && Sound(middle, actuals)
    ensures var (after, r) := WakesRecovered(middle, ws, db.wakes, proved, at, tally);
      && Ready(after) && Sound(after, actuals)
      && (r.Ok? <==> !AnyBlocked(db))
      && (if r.Ok? then r.value.recovered + r.value.uncertain == tally.recovered + tally.uncertain + |ws|
          else r.error in {StateError(ReservationInactive), StateError(DeliveryNotLeased)})
  {
    ListedAfterOrphans(db, middle, orphans, ws);
    forall w | w in ws ensures Blocked(middle, w) <==> Blocked(db, w) {
      SameAfterOrphans(db, middle, orphans, w, proved);
    }
    BlockedAreListed(db, ws);
    WakesRecoverExactly(middle, ws, db.wakes, proved, at, tally, actuals);
  }

  lemma WakesPhaseInOrder(db: Database, middle: Database, orphans: seq<Id>, ws: seq<Id>, proved: set<ProcessKey>, at: Time, tally: Tally,
                          actuals: Budgets.Actuals)
    requires Ready(db) && OnePerRole(db.sessions) && OrphanListing(db, orphans) && WakeListing(db, ws) && !AnyBlocked(db)
    requires OrphansClosed(db, middle, orphans) && OneReservation(middle) && Ready(middle) && Sound(middle, actuals)
    ensures InOrder(db, WakesRecovered(middle, ws, db.wakes, proved, at, tally).0, proved)
  {
    ListedAfterOrphans(db, middle, orphans, ws);
    forall w | w in ws ensures !Blocked(middle, w) {
      SameAfterOrphans(db, middle, orphans, w, proved);
    }
    WakesAllSettle(middle, ws, db.wakes, proved, at, tally, actuals);
    SettledInOrder(db, middle, WakesRecovered(middle, ws, db.wakes, proved, at, tally).0, orphans, ws, proved);
  }

  /** Both loops of `recover`. */
  ghost function Restarted(db: Database, orphans: seq<Id>, ws: seq<Id>, proved: set<ProcessKey>, at: Time): (Database, Outcome<Tally>)
    requires forall w :: w in ws ==> w in db.wakes
  {
    var first := OrphansRecovered(db, orphans, 0);
    if first.1.Raised? then (first.0, Raised(first.1.error))
    else WakesRecovered(first.0, ws, db.wakes, proved, at, Tally(first.1.value, 0))
  }

  /** Both loops succeed if and only if no unstarted wake is blocked; whatever happens the
      ledger stays sound and tokens are only ever given back for sessions that recorded no
      process; and when they succeed no wake is live, and a session stays active only if its
      wake was over before or one of its processes could not be proved dead. */
  ghost predicate Concluded(start: Database, end: (Database, Outcome<Tally>), total: nat, proved: set<ProcessKey>,
                            actuals: Budgets.Actuals) {
    && Ready(end.0) && Sound(end.0, actuals)
    && (end.1.Ok? <==> !AnyBlocked(start))
    && (if end.1.Ok? then InOrder(start, end.0, proved) && end.1.value.recovered + end.1.value.uncertain == total
        else end.1.error in {StateError(ReservationInactive), StateError(DeliveryNotLeased)})
  }

  lemma WakesPhaseConcludes(db: Database, middle: Database, orphans: seq<Id>, ws: seq<Id>, proved: set<ProcessKey>, at: Time,
                            actuals: Budgets.Actuals)
    requires Ready(db) && OnePerRole(db.sessions) && OrphanListing(db, orphans) && WakeListing(db, ws)
    requires OrphansClosed(db, middle, orphans) && OneReservation(middle) && Ready(middle) && Sound(middle, actuals)
    ensures Concluded(db, WakesRecovered(middle, ws, db.wakes, proved, at, Tally(|orphans|, 0)), |orphans| + |ws|, proved, actuals)
  {
    WakesPhase(db, middle, orphans, ws, proved, at, Tally(|orphans|, 0), actuals);
    if !AnyBlocked(db) {
      WakesPhaseInOrder(db, middle, orphans, ws, proved, at, Tally(|orphans|, 0), actuals);
    }
  }

  lemma RestartedIs(db: Database, orphans: seq<Id>, ws: seq<Id>, proved: set<ProcessKey>, at: Time, middle: Database)
    requires forall w :: w in ws ==> w in db.wakes
    requires OrphansRecovered(db, orphans, 0) == (middle, Ok(|orphans|))
    ensures Restarted(db, orphans, ws, proved, at) == WakesRecovered(middle, ws, db.wakes, proved, at, Tally(|orphans|, 0))
  {
  }

  lemma OrphansPhase(db: Database, orphans: seq<Id>, actuals: Budgets.Actuals) returns (middle: Database)
    requires OneReservation(db) && Ready(db) && Sound(db, actuals) && OrphanListing(db, orphans)
    ensures OrphansRecovered(db, orphans, 0) == (middle, Ok(|orphans|))
    ensures OrphansClosed(db, middle, orphans) && OneReservation(middle) && Ready(middle) && Sound(middle, actuals)
  {
    OrphansAllRecover(db, orphans, 0, actuals);
    OrphansAllClose(db, orphans, 0, actuals);
    middle := OrphansRecovered(db, orphans, 0).0;
  }

  /** Restart recovery, exactly, from any database the supervisor's protocol can leave. */
  lemma {:induction false} RecoveryExactly(db: Database, orphans: seq<Id>, ws: seq<Id>, proved: set<ProcessKey>, at: Time,
                                           actuals: Budgets.Actuals)
    requires OneReservation(db) && Ready(db) && Sound(db, actuals) && OnePerRole(db.sessions)
    requires OrphanListing(db, orphans) && WakeListing(db, ws)
    ensures Concluded(db, Restarted(db, orphans, ws, proved, at), |orphans| + |ws|, proved, actuals)
  {
    var middle := OrphansPhase(db, orphans, actuals);
    WakesPhaseConcludes(db, middle, orphans, ws, proved, at, actuals);
    RestartedIs(db, orphans, ws, proved, at, middle);
  }

  /** `recover`, run alone before any tick. */
  method Recover(store: Store, orphans: seq<Id>, ws: seq<Id>, proved: set<ProcessKey>, at: Time) returns (r: Outcome<Tally>)
    requires store.Valid() && forall w :: w in ws ==> w in store.db.wakes
    modifies store
    ensures store.Valid() && (store.db, r) == Restarted(old(store.db), orphans, ws, proved, at)
  {
    var rows := store.db.wakes;
    var first := RunOrphans(store, orphans);
    if first.Raised? {
      return Raised(first.error);
    }
    r := RunWakes(store, ws, rows, proved, at, Tally(first.value, 0));
  }
}
