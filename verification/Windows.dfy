/** Windows in which a crash leaves a wake that restart recovery refuses, and the calls that
    alone can open one. */
module Windows {
  import opened Outcomes
  import opened Tables
  import opened Runs
  import opened Sessions
  import opened Wakes
  import opened Readiness
  import opened WakeThreads
  import opened Recovery
  import Budgets
  import Policies
  import Capacities
  import Boards
  import Deliveries
  import RunLedger

  lemma HeldTokensBlock(db: Database, w: Id, r: Id)
    requires w in db.wakes && Unstarted(db, w)
    requires r in db.reservations && db.reservations[r].session == db.wakes[w].session && db.reservations[r].state.Active?
    ensures var tx := Budgets.MarkUncertain(db, r); tx.Commit? && AnyBlocked(tx.db)
  {
    var after := Budgets.MarkUncertain(db, r).db;
    assert !after.reservations[r].state.Active?;
    assert Blocked(after, w);
  }

  lemma MovedDeliveryBlocks(db: Database, w: Id, d: Id)
    requires w in db.wakes && Unstarted(db, w) && db.wakes[w].delivery == Some(d) && Returnable(db, Some(d))
    ensures var tx := Deliveries.ForceUncertain(db, d); tx.Commit? && AnyBlocked(tx.db)
  {
  }

  /** Spawned but never recorded: the thread that holds the tokens of its unstarted wake blocks
      that wake. */
  lemma {:induction false} HoldingBeforeEndingBlocks(s: System, sid: Id, policy: Policies.Policy, ceiling: int)
    requires sid in s.threads && s.threads[sid].at.Keeping? && Fits(s.db, s.threads[sid])
    requires s.threads[sid].wakeId in s.db.wakes && Unstarted(s.db, s.threads[sid].wakeId)
    requires s.threads[sid].reservation in s.db.reservations && s.db.reservations[s.threads[sid].reservation].state.Active?
    ensures var e := Acts(sid, OfBudget(MarkBudgetUncertain(s.threads[sid].reservation)), Quarantining);
      Enabled(s, e, policy, ceiling) && AnyBlocked(Effect(s, e).db)
  {
    HeldTokensBlock(s.db, s.threads[sid].wakeId, s.threads[sid].reservation);
  }

  lemma HeldBlocks(db: Database, w: Id, r: Id)
    requires w in db.wakes && Unstarted(db, w)
    requires r in db.reservations && db.reservations[r].session == db.wakes[w].session && !db.reservations[r].state.Active?
    ensures Blocked(db, w)
  {
  }

  /** A reservation that left the active state never returns to it. */
  lemma BudgetLeavesInactive(db: Database, c: BudgetCommand, r: Id)
    requires r in db.reservations && !db.reservations[r].state.Active?
    ensures var after := BudgetStep(db, c).reservations; r in after && after[r] == db.reservations[r]
  {
  }

  lemma ReleaseLeavesInactive(db: Database, sid: Id, r: Id)
    requires Wakes.ReleaseFor(db, sid).Commit? && r in db.reservations && !db.reservations[r].state.Active?
    ensures var after := Wakes.ReleaseFor(db, sid).db.reservations; r in after && after[r] == db.reservations[r]
  {
  }

  lemma RecoveryLeavesInactive(db: Database, c: RecoveryCommand, r: Id)
    requires r in db.reservations && !db.reservations[r].state.Active?
    ensures var after := RecoveryStep(db, c).reservations; r in after && after[r] == db.reservations[r]
  {
    if RecoveryStep(db, c) != db {
      match c
      case RecoverOrphanSession(sid, delivery, eligible) => ReleaseLeavesInactive(db, sid, r);
      case RecoverPreparedWake(v, at) => ReleaseLeavesInactive(db, db.wakes[v].session, r);
    }
  }

  lemma StepLeavesInactive(db: Database, c: Command, r: Id)
    requires r in db.reservations && !db.reservations[r].state.Active?
    ensures var after := Step(db, c).reservations;
      r in after && after[r].session == db.reservations[r].session && !after[r].state.Active?
  {
    match c
    case OfSession(x) => RunLedger.SessionStepOnlyHolds(db, x);
    case OfBudget(x) => BudgetLeavesInactive(db, x, r);
    case OfRecovery(x) => RecoveryLeavesInactive(db, x, r);
    case OfDelivery(x) => DeliveryFrame(db, x);
    case OfWake(x) => WakeFrame(db, x);
    case OfFeed(x) => FeedFrame(db, x);
    case OfJournal(x) => JournalFrame(db, x);
  }

  /** A reservation of the session that is no longer active. */
  predicate Inactive(reservations: map<Id, Reservation>, r: Id, sid: Id) {
    r in reservations && reservations[r].session == sid && !reservations[r].state.Active?
  }

  lemma EventLeavesInactive(s: System, e: Event, r: Id, sid: Id)
    requires Inactive(s.db.reservations, r, sid)
    ensures Inactive(Effect(s, e).db.reservations, r, sid)
  {
    if CommandOf(e).Some? {
      StepLeavesInactive(s.db, CommandOf(e).value, r);
    }
  }

  lemma {:induction false} RunsLeaveInactive(events: seq<Event>, more: seq<Event>, r: Id, sid: Id)
    requires Inactive(Reached(events).db.reservations, r, sid)
    ensures Inactive(Reached(events + more).db.reservations, r, sid)
    decreases more
  {
    if more == [] {
      assert events + more == events;
    } else {
      var init, last := more[..|more| - 1], more[|more| - 1];
      assert (events + more)[..|events + more| - 1] == events + init && (events + more)[|events + more| - 1] == last;
      RunsLeaveInactive(events, init, r, sid);
      EventLeavesInactive(Reached(events + init), last, r, sid);
    }
  }

  /** From then on, quarantining the delivery, finishing the wake and whatever else runs meanwhile:
      in every later state in which a wake of that session is unstarted, it is blocked. */
  lemma {:induction false} HeldStaysBlocked(events: seq<Event>, more: seq<Event>, w: Id, r: Id)
    requires w in Reached(events + more).db.wakes && Unstarted(Reached(events + more).db, w)
    requires Inactive(Reached(events).db.reservations, r, Reached(events + more).db.wakes[w].session)
    ensures Blocked(Reached(events + more).db, w)
  {
    RunsLeaveInactive(events, more, r, Reached(events + more).db.wakes[w].session);
    HeldBlocks(Reached(events + more).db, w, r);
  }

  /** A lease call after the lease of an unstarted wake's delivery ended, as a tick of a second
      process may make it: its sweep takes the delivery away, and blocks the wake unless the
      same call leases that very delivery again. */
  lemma {:induction false} SweepingUnstartedBlocks(s: System, w: Id, d: Id, owner: Name, now: Time, seconds: int,
                                                   policy: Policies.Policy, ceiling: int)
    requires w in s.db.wakes && Unstarted(s.db, w) && s.db.wakes[w].delivery == Some(d) && Returnable(s.db, Some(d))
    requires Releasable(s.db, s.db.wakes[w].session) && Deliveries.Overdue(s.db.deliveries[d], now)
    requires Deliveries.Lease(s.db, owner, now, seconds, ceiling).Commit?
    ensures var e := Ticks(OfDelivery(LeaseDelivery(owner, now, seconds, ceiling)));
      var leased := Deliveries.Lease(s.db, owner, now, seconds, ceiling).value;
      Enabled(s, e, policy, ceiling) && (Blocked(Effect(s, e).db, w) <==> leased != Some(d))
    ensures s.db.deliveries[d].attempt >= ceiling ==> Deliveries.Lease(s.db, owner, now, seconds, ceiling).value != Some(d)
  {
    var tx := Deliveries.Lease(s.db, owner, now, seconds, ceiling);
    Boards.LeaseCases(s.db, owner, now, seconds, ceiling);
    SweptAway(s.db, d, owner, now, now + seconds, ceiling, tx.value, tx.db);
    MovedBlocks(s.db, tx.db, w, d);
  }

  lemma MovedBlocks(db: Database, after: Database, w: Id, d: Id)
    requires w in db.wakes && Unstarted(db, w) && db.wakes[w].delivery == Some(d) && Releasable(db, db.wakes[w].session)
    requires OnlyRouting(db, after) && d in after.deliveries
    ensures Blocked(after, w) <==> !after.deliveries[d].state.Leased?
  {
  }

  lemma SweptAway(db: Database, d: Id, owner: Name, now: Time, until: Time, ceiling: int, leased: Option<Id>, after: Database)
    requires Boards.LeaseLeaves(db, now, until, owner, ceiling, leased, after)
    requires d in db.deliveries && db.deliveries[d].state.Leased? && Deliveries.Overdue(db.deliveries[d], now)
    ensures d in after.deliveries && (after.deliveries[d].state.Leased? <==> leased == Some(d))
    ensures db.deliveries[d].attempt >= ceiling ==> leased != Some(d)
  {
  }

  /** A pause that has quarantined the delivery of an unstarted wake, and not yet closed its
      session, blocks that wake. */
  lemma {:induction false} PausingUnstartedBlocks(s: System, w: Id, d: Id, policy: Policies.Policy, ceiling: int)
    requires w in s.db.wakes && Unstarted(s.db, w) && s.db.wakes[w].delivery == Some(d) && Returnable(s.db, Some(d))
    ensures var e := Pauses(s.db.wakes[w].session, OfDelivery(ForceDeliveryUncertain(d)));
      Enabled(s, e, policy, ceiling) && AnyBlocked(Effect(s, e).db)
  {
    assert w in WakesOf(s.db.wakes, s.db.wakes[w].session);
    MovedDeliveryBlocks(s.db, w, d);
  }

  /** After the run one thread exists, and the database is `db`. */
  ghost predicate Alone(events: seq<Event>, t: Thread, db: Database, policy: Policies.Policy, ceiling: int) {
    Possible(events, policy, ceiling) && Reached(events).threads == map[t.sid := t] && Reached(events).db == db
  }

  /** A failure moves the only thread on and leaves the database alone. */
  lemma Break(events: seq<Event>, t: Thread, db: Database, next: Point, policy: Policies.Policy, ceiling: int) returns (longer: seq<Event>)
    requires Alone(events, t, db, policy, ceiling) && (Fails(t.at, next) || (t.at.Launching? && next.Recording?))
    ensures Alone(longer, t.(at := next), db, policy, ceiling)
  {
    Grow(events, Breaks(t.sid, next), policy, ceiling);
    longer := events + [Breaks(t.sid, next)];
  }

  /** A call that commits moves it on too. */
  lemma Act(events: seq<Event>, t: Thread, db: Database, c: Command, next: Point, policy: Policies.Policy, ceiling: int)
    returns (longer: seq<Event>)
    requires Alone(events, t, db, policy, ceiling) && Calls(db, t, c, policy) && Commits(db, c) && Succeeds(t.at, next)
    ensures Alone(longer, t.(at := next), Step(db, c), policy, ceiling)
  {
    Grow(events, Acts(t.sid, c, next), policy, ceiling);
    longer := events + [Acts(t.sid, c, next)];
  }

  function Opener(role: Name): Thread {
    Thread(Opening, role, None, 1, 2, 3)
  }

  lemma BegunRun(policy: Policies.Policy, role: Name, ceiling: int) returns (events: seq<Event>)
    requires role in policy.roles
    ensures Alone(events, Opener(role), EMPTY, policy, ceiling)
  {
    assert Enabled(IDLE, Begins(Opener(role)), policy, ceiling);
    Grow([], Begins(Opener(role)), policy, ceiling);
    events := [] + [Begins(Opener(role))];
  }

  function OpenedBy(policy: Policies.Policy, role: Name): Database {
    EMPTY.(sessions := map[1 := Session(2, policy.org, role, 60, SessionState.Active)])
  }

  lemma FirstSession(policy: Policies.Policy, role: Name)
    requires Policies.Sound(policy) && role in policy.roles
    ensures Sessions.Create(EMPTY, 1, 2, policy.org, role, 0, 60, policy.globalCap) == Commit(OpenedBy(policy, role), 1)
  {
    assert Capacities.Capacity(EMPTY, policy);
    Capacities.AdmitNeverMeetsGlobalCap(EMPTY, policy, 1, 2, role, 0, 60);
    assert Capacities.ParentsOf(EMPTY.sessions, role) == {};
  }

  function AsksFor(policy: Policies.Policy, role: Name): seq<Budgets.Ask>
    requires role in policy.roles
  {
    [Budgets.Ask(OrgScope, policy.org, policy.orgBudget), Budgets.Ask(RoleScope, role, policy.roles[role].budget)]
  }

  lemma FirstReservation(policy: Policies.Policy, role: Name) returns (funded: Database)
    requires Policies.Sound(policy) && role in policy.roles
    ensures Budgets.Reserve(OpenedBy(policy, role), 3, 1, 0, "day", 1, AsksFor(policy, role)) == Commit(funded, 3)
    ensures funded == OpenedBy(policy, role).(
      buckets := funded.buckets, reservations := map[3 := Reservation(1, "day", 1, ReservationState.Active)])
  {
    var asks := AsksFor(policy, role);
    assert Policies.KnownRole(role, policy.roles[role], policy.orgBudget);
    assert (set a | a in asks :: (a.scope, a.subject)) == {(OrgScope, policy.org), (RoleScope, role)} by {
      assert asks[0] in asks && asks[1] in asks;
    }
    var one := asks[1..];
    assert one == [asks[1]] && one[1..] == [];
    var a, b := BucketKey(OrgScope, policy.org, "day"), BucketKey(RoleScope, role, "day");
    var current := map[a := Bucket(policy.orgBudget, 0, 0)];
    var both := current[b := Bucket(policy.roles[role].budget, 0, 0)];
    assert Budgets.Opened(map[], "day", 1, asks) == Budgets.Opened(current, "day", 1, one) == Budgets.Opened(both, "day", 1, []);
    funded := Budgets.Reserve(OpenedBy(policy, role), 3, 1, 0, "day", 1, asks).db;
  }

  lemma FundedRun(policy: Policies.Policy, role: Name, ceiling: int) returns (events: seq<Event>, db: Database)
    requires Policies.Sound(policy) && role in policy.roles
    ensures Alone(events, Opener(role).(at := Preparing), db, policy, ceiling)
    ensures var row := Reservation(1, "day", 1, ReservationState.Active);
      db == OpenedBy(policy, role).(buckets := db.buckets, reservations := map[3 := row])
  {
    FirstSession(policy, role);
    db := FirstReservation(policy, role);
    events := BegunRun(policy, role, ceiling);
    var opening := OfSession(CreateSession(1, 2, policy.org, role, 0, 60, policy.globalCap));
    events := Act(events, Opener(role), EMPTY, opening, Funding, policy, ceiling);
    var fund := OfBudget(ReserveBudget(3, 1, 0, "day", 1, AsksFor(policy, role)));
    events := Act(events, Opener(role).(at := Funding), OpenedBy(policy, role), fund, Preparing, policy, ceiling);
  }

  /** A provider was spawned and killed before it could be recorded, and its thread is about
      to hold the tokens. */
  lemma UnrecordedRun(policy: Policies.Policy, role: Name, ceiling: int) returns (events: seq<Event>, db: Database)
    requires Policies.Sound(policy) && role in policy.roles
    ensures Alone(events, Opener(role).(at := Keeping), db, policy, ceiling)
    ensures db.wakes == map[2 := Wake(1, None, 3, "/s", Prepared)] && db.processes == map[]
    ensures db.reservations == map[3 := Reservation(1, "day", 1, ReservationState.Active)]
  {
    var funded: Database;
    events, funded := FundedRun(policy, role, ceiling);
    var c := OfWake(PrepareWake(2, 1, None, 3, "/s", "manual"));
    events := Act(events, Opener(role).(at := Preparing), funded, c, Launching, policy, ceiling);
    db := Step(funded, c);
    events := LaunchFails(events, role, db, policy, ceiling);
  }

  lemma LaunchFails(events: seq<Event>, role: Name, db: Database, policy: Policies.Policy, ceiling: int) returns (longer: seq<Event>)
    requires Alone(events, Opener(role).(at := Launching), db, policy, ceiling)
    ensures Alone(longer, Opener(role).(at := Keeping), db, policy, ceiling)
  {
    longer := Break(events, Opener(role).(at := Launching), db, Recording, policy, ceiling);
    longer := Break(longer, Opener(role).(at := Recording), db, Reaping, policy, ceiling);
    longer := Break(longer, Opener(role).(at := Reaping), db, Stopping, policy, ceiling);
    longer := Break(longer, Opener(role).(at := Stopping), db, Keeping, policy, ceiling);
  }

  lemma BlockedRun(policy: Policies.Policy, role: Name, ceiling: int) returns (events: seq<Event>)
    requires Policies.Sound(policy) && role in policy.roles && 0 <= ceiling
    ensures Possible(events, policy, ceiling) && AnyBlocked(Reached(events).db)
  {
    var before, db := UnrecordedRun(policy, role, ceiling);
    RunsAreSafe(before, policy, ceiling);
    var s := Reached(before);
    assert Fits(s.db, s.threads[1]);
    HoldingBeforeEndingBlocks(s, 1, policy, ceiling);
    var e := Acts(1, OfBudget(MarkBudgetUncertain(3)), Quarantining);
    Grow(before, e, policy, ceiling);
    events := before + [e];
  }

  /** So `recover` can trip its own guard: under every sound policy some run of the protocol,
      stopped at the right transaction, leaves a blocked wake. */
  lemma {:induction false} RecoverCanRaise(policy: Policies.Policy, ceiling: int)
    requires Policies.Sound(policy) && 0 <= ceiling
    ensures exists events :: Possible(events, policy, ceiling) && AnyBlocked(Reached(events).db)
  {
    assert "governance-reviewer" in policy.roles;
    var role :| role in policy.roles;
    var events := BlockedRun(policy, role, ceiling);
  }

  // ---------- and nothing else blocks ----------

  /** The wake's own delivery was leased and no longer is. */
  predicate Frees(db: Database, after: Database, w: Id) {
    && w in db.wakes && db.wakes[w].delivery.Some?
    && var d := db.wakes[w].delivery.value;
       && d in db.deliveries && db.deliveries[d].state.Leased?
       && !(d in after.deliveries && after.deliveries[d].state.Leased?)
  }

  /** The calls that can block wake `w`: settling or holding its own reservation, taking its
      delivery out of the leased state, or preparing it in the first place. */
  ghost predicate Disturbs(db: Database, c: Command, w: Id) {
    match c
    case OfDelivery(_) => Frees(db, Step(db, c), w)
    case OfRecovery(_) => Frees(db, Step(db, c), w)
    case OfBudget(SettleBudget(id, _)) => w in db.wakes && id in db.reservations && db.reservations[id].session == db.wakes[w].session
    case OfBudget(MarkBudgetUncertain(id)) => w in db.wakes && id in db.reservations && db.reservations[id].session == db.wakes[w].session
    case OfWake(PrepareWake(wakeId, _, _, _, _, _)) => wakeId == w
    case _ => false
  }

  /** Everything that decides whether `w` is blocked was blocked before, if it is after. */
  ghost predicate BlockedBefore(db: Database, after: Database, w: Id) {
    Blocked(after, w) ==> Blocked(db, w)
  }

  lemma ShuttingBlocksNothing(db: Database, after: Database, sid: Id, w: Id)
    requires Shuts(db, after, sid)
    requires !Frees(db, after, w)
    ensures BlockedBefore(db, after, w)
  {
  }

  lemma FrameBlocksNothing(db: Database, after: Database, w: Id)
    requires after.wakes == db.wakes && after.processes == db.processes && after.reservations == db.reservations
    requires !Frees(db, after, w)
    ensures BlockedBefore(db, after, w)
  {
  }

  lemma SessionsBlockNothing(db: Database, c: SessionCommand, w: Id)
    requires Ready(db) && Disciplined(db, OfSession(c))
    ensures BlockedBefore(db, SessionStep(db, c), w)
  {
    SessionFrame(db, c);
    if SessionStep(db, c) != db {
      match c
      case CreateSession(_, _, _, _, _, _, _) => FrameBlocksNothing(db, SessionStep(db, c), w);
      case RevokeSession(sid) => RevokeShuts(db, sid); ShuttingBlocksNothing(db, SessionStep(db, c), sid, w);
      case FinishSession(sid) => FinishShuts(db, sid); ShuttingBlocksNothing(db, SessionStep(db, c), sid, w);
      case ReapExpiredSession(sid, now) => ReapShuts(db, sid, now); ShuttingBlocksNothing(db, SessionStep(db, c), sid, w);
      case ForceTerminateSession(sid, expired) => TerminateShuts(db, sid, expired); ShuttingBlocksNothing(db, SessionStep(db, c), sid, w);
      case ReserveWorker(_, _, _, _, _, _) => FrameBlocksNothing(db, SessionStep(db, c), w);
      case SetWorker(_, _) => FrameBlocksNothing(db, SessionStep(db, c), w);
    }
  }

  lemma BudgetsBlockNothing(db: Database, c: BudgetCommand, w: Id)
    requires Ready(db) && Disciplined(db, OfBudget(c)) && !Disturbs(db, OfBudget(c), w) && w in db.wakes && LiveWake(db.wakes[w])
    ensures BlockedBefore(db, BudgetStep(db, c), w)
  {
  }

  lemma WakesBlockNothing(db: Database, c: WakeCommand, w: Id)
    requires !Disturbs(db, OfWake(c), w)
    ensures BlockedBefore(db, Runs.WakeStep(db, c), w)
  {
  }

  lemma RecoveryBlocksNothing(db: Database, c: RecoveryCommand, w: Id)
    requires Ready(db) && !Disturbs(db, OfRecovery(c), w)
    ensures BlockedBefore(db, RecoveryStep(db, c), w)
  {
    if RecoveryStep(db, c) != db {
      match c
      case RecoverOrphanSession(sid, delivery, eligible) =>
        OrphanShuts(db, sid, delivery, eligible);
        ShuttingBlocksNothing(db, RecoveryStep(db, c), sid, w);
      case RecoverPreparedWake(v, at) =>
        PreparedShuts(db, v, at);
        ShuttingBlocksNothing(db, RecoveryStep(db, c), db.wakes[v].session, w);
    }
  }

  /** The delivery calls that free it: starting, finishing or quarantining that delivery, and the
      sweep of a lease call once its lease has ended. */
  lemma {:induction false} FreeingCalls(db: Database, c: DeliveryCommand, w: Id)
    requires Frees(db, DeliveryStep(db, c), w)
    ensures var d := db.wakes[w].delivery.value;
      || (c.StartDelivery? && c.id == d) || (c.FinishDelivery? && c.id == d) || (c.ForceDeliveryUncertain? && c.id == d)
      || (c.LeaseDelivery? && Deliveries.Overdue(db.deliveries[d], c.now))
  {
    var d := db.wakes[w].delivery.value;
    match c
    case LeaseDelivery(owner, now, seconds, ceiling) =>
      if !Deliveries.Overdue(db.deliveries[d], now) {
        LeasesStayLeased(db, d, owner, now, seconds, ceiling);
      }
    case EnqueueDelivery(id, role, events, key, at) => EnqueuesStayLeased(db, d, id, role, events, key, at);
    case FinishDelivery(id, owner, outcome, at) => FinishesStayLeased(db, d, id, owner, outcome, at);
    case StartDelivery(id, owner, now) => StartsStayLeased(db, d, id, owner, now);
    case FinishEventRouting(_, _) =>
    case ReleaseBudgetHold(id, at) => HoldsStayLeased(db, d, id, at);
    case ForceDeliveryUncertain(id) => QuarantinesStayLeased(db, d, id);
  }

  predicate Leaves(db: Database, after: Database, d: Id)
    requires d in db.deliveries
  {
    d in after.deliveries && after.deliveries[d] == db.deliveries[d]
  }

  lemma StartsStayLeased(db: Database, d: Id, id: Id, owner: Name, now: Time)
    requires d in db.deliveries
    ensures id != d ==> Leaves(db, After(db, Deliveries.Start(db, id, owner, now)), d)
  {
  }

  lemma HoldsStayLeased(db: Database, d: Id, id: Id, at: Time)
    requires d in db.deliveries && db.deliveries[d].state.Leased?
    ensures Leaves(db, After(db, Deliveries.ReleaseHold(db, id, at)), d)
  {
  }

  lemma QuarantinesStayLeased(db: Database, d: Id, id: Id)
    requires d in db.deliveries
    ensures id != d ==> Leaves(db, After(db, Deliveries.ForceUncertain(db, id)), d)
  {
  }

  lemma EnqueuesStayLeased(db: Database, d: Id, id: Id, role: Name, events: set<EventId>, key: DeliveryKey, at: Time)
    requires d in db.deliveries
    ensures Leaves(db, After(db, Deliveries.Enqueue(db, id, role, events, key, at)), d)
  {
    if Deliveries.Enqueue(db, id, role, events, key, at).Commit? {
      Boards.EnqueueCases(db, id, role, events, key, at);
    }
  }

  lemma FinishesStayLeased(db: Database, d: Id, id: Id, owner: Name, outcome: Deliveries.Result, at: Time)
    requires d in db.deliveries
    ensures id != d ==> Leaves(db, After(db, Deliveries.Finish(db, id, owner, outcome, at)), d)
  {
  }

  lemma SweepsStayLeased(db: Database, d: Id, now: Time, ceiling: int)
    requires d in db.deliveries && db.deliveries[d].state.Leased? && !Deliveries.Overdue(db.deliveries[d], now)
    ensures Leaves(db, Deliveries.Cleared(db, now, ceiling), d)
  {
  }

  lemma TakenStayLeased(db: Database, d: Id, did: Id, owner: Name, until: Time)
    requires d in db.deliveries && db.deliveries[d].state.Leased? && did in db.deliveries
    ensures var after := Deliveries.Taken(db, did, owner, until); d in after.deliveries && after.deliveries[d].state.Leased?
  {
  }

  lemma OthersStayLeased(db: Database, d: Id, owner: Name, now: Time, until: Time, ceiling: int, leased: Option<Id>, after: Database)
    requires d in db.deliveries && db.deliveries[d].state.Leased? && !Deliveries.Overdue(db.deliveries[d], now)
    requires Boards.LeaseLeaves(db, now, until, owner, ceiling, leased, after)
    ensures d in after.deliveries && after.deliveries[d].state.Leased?
  {
    SweepsStayLeased(db, d, now, ceiling);
    if leased.Some? {
      TakenStayLeased(Deliveries.Cleared(db, now, ceiling), d, leased.value, owner, until);
    }
  }

  lemma LeasesStayLeased(db: Database, d: Id, owner: Name, now: Time, seconds: int, ceiling: int)
    requires d in db.deliveries && db.deliveries[d].state.Leased? && !Deliveries.Overdue(db.deliveries[d], now)
    ensures var after := After(db, Deliveries.Lease(db, owner, now, seconds, ceiling)).deliveries;
      d in after && after[d].state.Leased?
  {
    var tx := Deliveries.Lease(db, owner, now, seconds, ceiling);
    if tx.Commit? {
      Boards.LeaseCases(db, owner, now, seconds, ceiling);
      OthersStayLeased(db, d, owner, now, now + seconds, ceiling, tx.value, tx.db);
    }
  }

  /** Of all the calls the protocol can make, only a disturbance blocks a wake. */
  lemma {:induction false} OnlyDisturbanceBlocks(db: Database, c: Command, w: Id)
    requires Ready(db) && Disciplined(db, c) && Blocked(Step(db, c), w) && !Disturbs(db, c, w)
    requires w in db.wakes && LiveWake(db.wakes[w])
    ensures Blocked(db, w)
  {
    match c
    case OfSession(x) => SessionsBlockNothing(db, x, w);
    case OfBudget(x) => BudgetsBlockNothing(db, x, w);
    case OfWake(x) => WakesBlockNothing(db, x, w);
    case OfRecovery(x) => RecoveryBlocksNothing(db, x, w);
    case OfDelivery(x) => DeliveryFrame(db, x); FrameBlocksNothing(db, Step(db, c), w);
    case OfFeed(x) => FeedFrame(db, x); FrameBlocksNothing(db, Step(db, c), w);
    case OfJournal(x) => JournalFrame(db, x); FrameBlocksNothing(db, Step(db, c), w);
  }
}
