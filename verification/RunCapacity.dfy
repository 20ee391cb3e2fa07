/** The agent caps over whole runs under one compiled policy. */
module RunCapacity {
  import opened Outcomes
  import opened Tables
  import opened Runs
  import opened Policies
  import opened Capacities
  import opened Sessions
  import Wakes

  /** Callers pass the policy's organization, roles and caps, and move a worker to accepted
      or running only while it is one of those already. */
  ghost predicate Obeys(db: Database, c: Command, policy: Policy) {
    c.OfSession? ==>
      match c.session
      case CreateSession(_, _, org, role, _, _, cap) => org == policy.org && role in policy.roles && cap == policy.globalCap
      case ReserveWorker(_, sid, _, cumulative, concurrent, cap) =>
        && cap == policy.globalCap
        && (sid in db.sessions && db.sessions[sid].role in policy.roles ==>
              && cumulative == policy.roles[db.sessions[sid].role].maxPerWake
              && concurrent == policy.roles[db.sessions[sid].role].maxConcurrent)
      case SetWorker(id, state) => id in db.workers && (state.Accepted? || state.Running?) ==> Busy(db.workers[id])
      case _ => true
  }

  ghost predicate Obedient(h: History, commands: seq<Command>, policy: Policy) {
    commands == [] ||
    (&& Obedient(h, commands[..|commands| - 1], policy)
     && Obeys(Run(h, commands[..|commands| - 1]).db, commands[|commands| - 1], policy))
  }

  /** A session is created for the policy's organization and one of its roles. */
  predicate Employs(c: Command, policy: Policy) {
    c.OfSession? && c.session.CreateSession? ==> c.session.org == policy.org && c.session.role in policy.roles
  }

  lemma RevokeCloses(db: Database, sid: Id)
    requires Revoke(db, sid).Commit?
    ensures Closes(db, Revoke(db, sid).db, sid)
  {
    forall w | w in db.workers && db.workers[w].session == sid ensures !Busy(db.workers[w]) {
      assert w !in BusyOf(db.workers, sid);
    }
  }

  lemma FinishCloses(db: Database, sid: Id)
    requires Finish(db, sid).Commit?
    ensures Closes(db, Finish(db, sid).db, sid)
  {
    forall w | w in db.workers && db.workers[w].session == sid ensures !Busy(db.workers[w]) {
      assert w !in BusyOf(db.workers, sid);
    }
  }

  lemma TerminateCloses(db: Database, sid: Id, expired: bool)
    requires ForceTerminate(db, sid, expired).Commit?
    ensures Closes(db, ForceTerminate(db, sid, expired).db, sid)
  {
  }

  lemma ReapCloses(db: Database, sid: Id, now: Time)
    requires Reap(db, sid, now).Commit?
    ensures Closes(db, Reap(db, sid, now).db, sid)
  {
  }

  lemma BareCloses(db: Database, after: Database, sid: Id)
    requires IsActive(db, sid) && Wakes.Bare(db, sid) && after.workers == db.workers
    requires after.sessions == db.sessions[sid := db.sessions[sid].(state := Revoked)]
    ensures Closes(db, after, sid)
  {
    forall w | w in db.workers ensures db.workers[w].session != sid {
      assert w !in AttemptsOf(db.workers, sid);
    }
  }

  lemma OrphanCloses(db: Database, sid: Id, delivery: Option<Id>, eligible: Option<Time>)
    requires Wakes.RecoverOrphan(db, sid, delivery, eligible).Commit?
    ensures Closes(db, Wakes.RecoverOrphan(db, sid, delivery, eligible).db, sid)
  {
    var after := Wakes.RecoverOrphan(db, sid, delivery, eligible).db;
    var released := Wakes.ReleaseFor(db, sid).db;
    var retried := Wakes.RetryIfBound(released, delivery, eligible).db;
    assert retried.sessions == db.sessions && retried.workers == db.workers;
    BareCloses(db, after, sid);
  }

  lemma PreparedCloses(db: Database, wakeId: Id, eligibleAt: Time)
    requires Wakes.RecoverPrepared(db, wakeId, eligibleAt).Commit?
    ensures wakeId in db.wakes && Closes(db, Wakes.RecoverPrepared(db, wakeId, eligibleAt).db, db.wakes[wakeId].session)
  {
    var after := Wakes.RecoverPrepared(db, wakeId, eligibleAt).db;
    var sid := db.wakes[wakeId].session;
    var released := Wakes.ReleaseFor(db, sid).db;
    var retried := Wakes.RetryIfBound(released, db.wakes[wakeId].delivery, Some(eligibleAt)).db;
    assert retried.sessions == db.sessions && retried.workers == db.workers;
    BareCloses(db, after, sid);
  }

  lemma SetWorkerKeepsCapacity(db: Database, policy: Policy, id: Id, state: WorkerState)
    requires Capacity(db, policy) && Obeys(db, OfSession(SessionCommand.SetWorker(id, state)), policy)
    ensures Capacity(After(db, Sessions.SetWorker(db, id, state)), policy)
  {
    if id in db.workers {
      WorkerUpdateKeepsCapacity(db, policy, id, state);
    }
  }

  lemma HireCommand(db: Database, policy: Policy, c: SessionCommand)
    requires Capacity(db, policy) && c.ReserveWorker? && Obeys(db, OfSession(c), policy)
    ensures After(db, Sessions.ReserveWorker(db, c.id, c.sid, c.now, c.cumulativeCap, c.concurrentCap, c.globalCap))
         == After(db, Hire(db, policy, c.id, c.sid, c.now))
  {
  }

  lemma SessionStepKeepsCapacity(db: Database, policy: Policy, c: SessionCommand)
    requires Capacity(db, policy) && Sound(policy) && Obeys(db, OfSession(c), policy)
    ensures Capacity(SessionStep(db, c), policy)
  {
    if SessionStep(db, c) != db {
      match c
      case CreateSession(id, wakeId, _, role, now, ttl, _) => AdmitKeepsCapacity(db, policy, id, wakeId, role, now, ttl);
      case RevokeSession(sid) => RevokeCloses(db, sid); ClosingKeepsCapacity(db, SessionStep(db, c), policy, sid);
      case FinishSession(sid) => FinishCloses(db, sid); ClosingKeepsCapacity(db, SessionStep(db, c), policy, sid);
      case ForceTerminateSession(sid, expired) =>
        TerminateCloses(db, sid, expired);
        ClosingKeepsCapacity(db, SessionStep(db, c), policy, sid);
      case ReapExpiredSession(sid, now) => ReapCloses(db, sid, now); ClosingKeepsCapacity(db, SessionStep(db, c), policy, sid);
      case ReserveWorker(id, sid, now, _, _, _) =>
        HireCommand(db, policy, c);
        HireKeepsCapacity(db, policy, id, sid, now);
      case SetWorker(id, state) => SetWorkerKeepsCapacity(db, policy, id, state);
    }
  }

  lemma RecoveryStepKeepsCapacity(db: Database, policy: Policy, c: RecoveryCommand)
    requires Capacity(db, policy)
    ensures Capacity(RecoveryStep(db, c), policy)
  {
    if RecoveryStep(db, c) != db {
      match c
      case RecoverOrphanSession(sid, delivery, eligible) =>
        OrphanCloses(db, sid, delivery, eligible);
        ClosingKeepsCapacity(db, RecoveryStep(db, c), policy, sid);
      case RecoverPreparedWake(wakeId, eligibleAt) =>
        PreparedCloses(db, wakeId, eligibleAt);
        ClosingKeepsCapacity(db, RecoveryStep(db, c), policy, db.wakes[wakeId].session);
    }
  }

  lemma CreateKeepsParents(db: Database, policy: Policy, id: Id, wakeId: Id, org: Name, role: Name, now: Time, ttl: int, cap: int)
    requires Parents(db.sessions, policy) && org == policy.org && role in policy.roles
    ensures Parents(After(db, Sessions.Create(db, id, wakeId, org, role, now, ttl, cap)).sessions, policy)
  {
    if Sessions.Create(db, id, wakeId, org, role, now, ttl, cap).Commit? {
      RoleBusyExactly(db, policy, role);
      NewcomerKeepsParents(db.sessions, policy, id, Session(wakeId, org, role, now + ttl, SessionState.Active));
    }
  }

  /** One active parent a role is kept whatever the workers do. */
  lemma SessionStepKeepsParents(db: Database, policy: Policy, c: SessionCommand)
    requires Parents(db.sessions, policy) && Employs(OfSession(c), policy)
    ensures Parents(SessionStep(db, c).sessions, policy)
  {
    if SessionStep(db, c) != db {
      match c
      case CreateSession(id, wakeId, org, role, now, ttl, cap) => CreateKeepsParents(db, policy, id, wakeId, org, role, now, ttl, cap);
      case RevokeSession(sid) => RevokeCloses(db, sid); ClosingKeepsParents(db, SessionStep(db, c), policy, sid);
      case FinishSession(sid) => FinishCloses(db, sid); ClosingKeepsParents(db, SessionStep(db, c), policy, sid);
      case ForceTerminateSession(sid, expired) =>
        TerminateCloses(db, sid, expired);
        ClosingKeepsParents(db, SessionStep(db, c), policy, sid);
      case ReapExpiredSession(sid, now) => ReapCloses(db, sid, now); ClosingKeepsParents(db, SessionStep(db, c), policy, sid);
      case ReserveWorker(_, _, _, _, _, _) =>
      case SetWorker(_, _) =>
    }
  }

  lemma RecoveryStepKeepsParents(db: Database, policy: Policy, c: RecoveryCommand)
    requires Parents(db.sessions, policy)
    ensures Parents(RecoveryStep(db, c).sessions, policy)
  {
    if RecoveryStep(db, c) != db {
      match c
      case RecoverOrphanSession(sid, delivery, eligible) =>
        OrphanCloses(db, sid, delivery, eligible);
        ClosingKeepsParents(db, RecoveryStep(db, c), policy, sid);
      case RecoverPreparedWake(wakeId, eligibleAt) =>
        PreparedCloses(db, wakeId, eligibleAt);
        ClosingKeepsParents(db, RecoveryStep(db, c), policy, db.wakes[wakeId].session);
    }
  }

  lemma StepKeepsParents(db: Database, policy: Policy, c: Command)
    requires Parents(db.sessions, policy) && Employs(c, policy)
    ensures Parents(Step(db, c).sessions, policy)
  {
    match c
    case OfSession(s) => SessionStepKeepsParents(db, policy, s);
    case OfRecovery(r) => RecoveryStepKeepsParents(db, policy, r);
    case OfDelivery(d) => DeliveryFrame(db, d);
    case OfFeed(f) => FeedFrame(db, f);
    case OfBudget(b) => BudgetFrame(db, b);
    case OfWake(w) => WakeFrame(db, w);
    case OfJournal(j) => JournalFrame(db, j);
  }

  lemma StepKeepsCapacity(db: Database, policy: Policy, c: Command)
    requires Capacity(db, policy) && Sound(policy) && Obeys(db, c, policy)
    ensures Capacity(Step(db, c), policy)
  {
    match c
    case OfSession(s) => SessionStepKeepsCapacity(db, policy, s);
    case OfRecovery(r) => RecoveryStepKeepsCapacity(db, policy, r);
    case OfDelivery(d) => DeliveryFrame(db, d);
    case OfFeed(f) => FeedFrame(db, f);
    case OfBudget(b) => BudgetFrame(db, b);
    case OfWake(w) => WakeFrame(db, w);
    case OfJournal(j) => JournalFrame(db, j);
  }

  /** Every state an obedient run reaches has one parent per role, busy workers only under
      active parents, and attempts numbered from one within their caps. */
  lemma {:induction false} RunsKeepCapacity(commands: seq<Command>, policy: Policy)
    requires Sound(policy) && Obedient(START, commands, policy)
    ensures Capacity(Run(START, commands).db, policy)
  {
    if commands != [] {
      var before := Run(START, commands[..|commands| - 1]);
      RunsKeepCapacity(commands[..|commands| - 1], policy);
      StepKeepsCapacity(before.db, policy, commands[|commands| - 1]);
    }
  }

  /** And in none of them is the global cap what refuses a session or a worker. */
  lemma {:induction false} RunsNeverMeetGlobalCap(commands: seq<Command>, policy: Policy, id: Id, wakeId: Id, sid: Id, role: Name,
                                                  now: Time, ttl: int)
    requires Sound(policy) && Obedient(START, commands, policy) && role in policy.roles
    ensures var db := Run(START, commands).db;
      && Admit(db, policy, id, wakeId, role, now, ttl) != Rollback(StateError(GlobalCapReached))
      && Hire(db, policy, id, sid, now) != Rollback(StateError(GlobalCapReached))
  {
    RunsKeepCapacity(commands, policy);
    var db := Run(START, commands).db;
    AdmitNeverMeetsGlobalCap(db, policy, id, wakeId, role, now, ttl);
    HireNeverMeetsGlobalCap(db, policy, id, sid, now);
  }
}
