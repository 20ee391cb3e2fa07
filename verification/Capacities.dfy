/** One parent per role, workers only under an active parent, attempts numbered from one within
    their caps: and because a sound policy's global cap is what its roles add up to, the
    global refusal never fires once the role checks pass. */
module Capacities {
  import opened Outcomes
  import opened Tables
  import opened Sums
  import opened Sessions
  import opened Policies

  /** Active sessions of a role. */
  function ParentsOf(sessions: map<Id, Session>, role: Name): set<Id> {
    set s | s in sessions && sessions[s].state.Active? && sessions[s].role == role
  }

  function SequencesOf(workers: map<Id, Worker>, sid: Id): set<nat> {
    set w | w in AttemptsOf(workers, sid) :: workers[w].sequence
  }

  /** The numbers 1 to `n`. */
  function OneTo(n: nat): set<nat> {
    if n == 0 then {} else OneTo(n - 1) + {n}
  }

  /** At most one parent per role, all of the policy's organization and roles. */
  ghost predicate Parents(sessions: map<Id, Session>, policy: Policy) {
    forall s :: s in sessions ==>
      && sessions[s].org == policy.org && sessions[s].role in policy.roles
      && (sessions[s].state.Active? ==> ParentsOf(sessions, sessions[s].role) == {s})
  }

  /** Every attempt belongs to a session, and a busy one to an active session. */
  ghost predicate Employed(sessions: map<Id, Session>, workers: map<Id, Worker>) {
    forall w :: w in workers ==>
      workers[w].session in sessions && (Busy(workers[w]) ==> sessions[workers[w].session].state.Active?)
  }

  ghost predicate Numbered(workers: map<Id, Worker>, sid: Id) {
    SequencesOf(workers, sid) == OneTo(|AttemptsOf(workers, sid)|)
  }

  /** The session's attempts are numbered 1 to their count and stay within the rule's caps. */
  ghost predicate Counted(workers: map<Id, Worker>, sid: Id, rule: RolePolicy) {
    && |AttemptsOf(workers, sid)| <= rule.maxPerWake
    && |BusyOf(workers, sid)| <= rule.maxConcurrent
    && Numbered(workers, sid)
  }

  ghost predicate Counts(sessions: map<Id, Session>, workers: map<Id, Worker>, policy: Policy) {
    forall s :: s in sessions && sessions[s].role in policy.roles ==> Counted(workers, s, policy.roles[sessions[s].role])
  }

  ghost predicate Staffed(sessions: map<Id, Session>, workers: map<Id, Worker>, policy: Policy) {
    Parents(sessions, policy) && Employed(sessions, workers) && Counts(sessions, workers, policy)
  }

  ghost predicate Capacity(db: Database, policy: Policy) {
    Staffed(db.sessions, db.workers, policy)
  }

  // ---------- the global cap is redundant ----------

  function ActiveIn(sessions: map<Id, Session>, roles: set<Name>): set<Id> {
    set s | s in sessions && sessions[s].state.Active? && sessions[s].role in roles
  }

  function BusyIn(sessions: map<Id, Session>, workers: map<Id, Worker>, roles: set<Name>): set<Id> {
    set w | w in workers && Busy(workers[w]) && workers[w].session in sessions && sessions[workers[w].session].role in roles
  }

  function Load(sessions: map<Id, Session>, workers: map<Id, Worker>, roles: set<Name>): nat {
    |ActiveIn(sessions, roles)| + |BusyIn(sessions, workers, roles)|
  }

  function SeatsIn(policy: Policy, roles: set<Name>): map<Name, int>
    requires roles <= policy.roles.Keys
  {
    map r | r in roles :: Seats(policy.roles[r])
  }

  /** Whoever is busy in a role works for that role's one active parent. */
  lemma RoleLoad(sessions: map<Id, Session>, workers: map<Id, Worker>, policy: Policy, role: Name)
    requires Parents(sessions, policy) && Employed(sessions, workers)
    ensures ParentsOf(sessions, role) == {} ==> Load(sessions, workers, {role}) == 0
    ensures forall s :: s in ParentsOf(sessions, role) ==> Load(sessions, workers, {role}) == 1 + |BusyOf(workers, s)|
  {
    assert ActiveIn(sessions, {role}) == ParentsOf(sessions, role);
    forall w | w in BusyIn(sessions, workers, {role}) ensures workers[w].session in ParentsOf(sessions, role) {
    }
    forall s | s in ParentsOf(sessions, role) ensures Load(sessions, workers, {role}) == 1 + |BusyOf(workers, s)| {
      assert ParentsOf(sessions, role) == {s};
      assert BusyIn(sessions, workers, {role}) == BusyOf(workers, s);
    }
  }

  lemma LoadSplits(sessions: map<Id, Session>, workers: map<Id, Worker>, roles: set<Name>, role: Name)
    requires role in roles
    ensures Load(sessions, workers, roles) == Load(sessions, workers, roles - {role}) + Load(sessions, workers, {role})
  {
    assert ActiveIn(sessions, roles) == ActiveIn(sessions, roles - {role}) + ActiveIn(sessions, {role});
    assert BusyIn(sessions, workers, roles) == BusyIn(sessions, workers, roles - {role}) + BusyIn(sessions, workers, {role});
  }

  /** Some roles take no more than their seats, and one fewer when one of them has a seat free. */
  lemma {:induction false} LoadWithinSeats(sessions: map<Id, Session>, workers: map<Id, Worker>, policy: Policy, roles: set<Name>,
                                           free: Name)
    requires roles <= policy.roles.Keys
    requires forall r :: r in roles ==> Load(sessions, workers, {r}) <= Seats(policy.roles[r])
    requires free in roles ==> Load(sessions, workers, {free}) < Seats(policy.roles[free])
    ensures Load(sessions, workers, roles) <= Sum(SeatsIn(policy, roles)) - (if free in roles then 1 else 0)
    decreases roles
  {
    if roles == {} {
      assert ActiveIn(sessions, roles) == {} && BusyIn(sessions, workers, roles) == {};
    } else {
      var role :| role in roles;
      LoadWithinSeats(sessions, workers, policy, roles - {role}, free);
      LoadSplits(sessions, workers, roles, role);
      SumSplit(SeatsIn(policy, roles), role);
      assert SeatsIn(policy, roles) - {role} == SeatsIn(policy, roles - {role});
    }
  }

  lemma RolesWithinSeats(sessions: map<Id, Session>, workers: map<Id, Worker>, policy: Policy)
    requires Staffed(sessions, workers, policy) && Sound(policy)
    ensures forall r :: r in policy.roles ==> Load(sessions, workers, {r}) <= Seats(policy.roles[r])
  {
    forall r | r in policy.roles ensures Load(sessions, workers, {r}) <= Seats(policy.roles[r]) {
      assert KnownRole(r, policy.roles[r], policy.orgBudget);
      RoleLoad(sessions, workers, policy, r);
      if s :| s in ParentsOf(sessions, r) {
        assert Counted(workers, s, policy.roles[r]);
      }
    }
  }

  lemma PolicyCoversEveryone(sessions: map<Id, Session>, workers: map<Id, Worker>, policy: Policy)
    requires Parents(sessions, policy)
    ensures |ActiveSessions(sessions, policy.org)| + |BusyWorkers(sessions, workers, policy.org)|
         == Load(sessions, workers, policy.roles.Keys)
    ensures Sum(SeatsIn(policy, policy.roles.Keys)) == AllSeats(policy.roles)
  {
    assert ActiveSessions(sessions, policy.org) == ActiveIn(sessions, policy.roles.Keys);
    assert BusyWorkers(sessions, workers, policy.org) == BusyIn(sessions, workers, policy.roles.Keys);
    assert SeatsIn(policy, policy.roles.Keys) == map r | r in policy.roles :: Seats(policy.roles[r]);
  }

  /** A seat free in one role is a seat free under the global cap. */
  lemma {:induction false} FreeSeatBelowCap(sessions: map<Id, Session>, workers: map<Id, Worker>, policy: Policy, role: Name)
    requires Staffed(sessions, workers, policy) && Sound(policy) && role in policy.roles
    requires Load(sessions, workers, {role}) < Seats(policy.roles[role])
    ensures |ActiveSessions(sessions, policy.org)| + |BusyWorkers(sessions, workers, policy.org)| < policy.globalCap
  {
    RolesWithinSeats(sessions, workers, policy);
    LoadWithinSeats(sessions, workers, policy, policy.roles.Keys, role);
    PolicyCoversEveryone(sessions, workers, policy);
  }

  /** Sessions and workers are created with the policy's own organization and caps. */
  function Admit(db: Database, policy: Policy, id: Id, wakeId: Id, role: Name, now: Time, ttl: int): Tx<Id> {
    Sessions.Create(db, id, wakeId, policy.org, role, now, ttl, policy.globalCap)
  }

  function Hire(db: Database, policy: Policy, id: Id, sid: Id, now: Time): Tx<Id> {
    if sid in db.sessions && db.sessions[sid].role in policy.roles then
      var rule := policy.roles[db.sessions[sid].role];
      ReserveWorker(db, id, sid, now, rule.maxPerWake, rule.maxConcurrent, policy.globalCap)
    else Rollback(StateError(SessionInactive))
  }

  lemma RoleBusyExactly(db: Database, policy: Policy, role: Name)
    requires Parents(db.sessions, policy)
    ensures (exists s :: s in ActiveSessions(db.sessions, policy.org) && db.sessions[s].role == role)
       <==> ParentsOf(db.sessions, role) != {}
  {
  }

  lemma FreeParentSeat(db: Database, policy: Policy, role: Name)
    requires Capacity(db, policy) && Sound(policy) && role in policy.roles && ParentsOf(db.sessions, role) == {}
    ensures |ActiveSessions(db.sessions, policy.org)| + |BusyWorkers(db.sessions, db.workers, policy.org)| < policy.globalCap
  {
    assert KnownRole(role, policy.roles[role], policy.orgBudget);
    RoleLoad(db.sessions, db.workers, policy, role);
    FreeSeatBelowCap(db.sessions, db.workers, policy, role);
  }

  /** Under a compiled policy `create_session` is refused for a busy role, never for the
      global cap. */
  lemma {:induction false} AdmitNeverMeetsGlobalCap(db: Database, policy: Policy, id: Id, wakeId: Id, role: Name, now: Time, ttl: int)
    requires Capacity(db, policy) && Sound(policy) && role in policy.roles
    ensures Admit(db, policy, id, wakeId, role, now, ttl) != Rollback(StateError(GlobalCapReached))
    ensures ttl > 0 ==> (Admit(db, policy, id, wakeId, role, now, ttl) == Rollback(StateError(RoleBusy))
                         <==> ParentsOf(db.sessions, role) != {})
  {
    RoleBusyExactly(db, policy, role);
    if ParentsOf(db.sessions, role) == {} {
      FreeParentSeat(db, policy, role);
    }
  }

  lemma FreeWorkerSeat(db: Database, policy: Policy, sid: Id, now: Time)
    requires Capacity(db, policy) && Sound(policy) && Live(db, sid, now)
    requires |BusyOf(db.workers, sid)| < policy.roles[db.sessions[sid].role].maxConcurrent
    ensures db.sessions[sid].org == policy.org
    ensures |ActiveSessions(db.sessions, policy.org)| + |BusyWorkers(db.sessions, db.workers, policy.org)| < policy.globalCap
  {
    var role := db.sessions[sid].role;
    RoleLoad(db.sessions, db.workers, policy, role);
    assert sid in ParentsOf(db.sessions, role);
    FreeSeatBelowCap(db.sessions, db.workers, policy, role);
  }

  /** The parent is live and has a concurrent seat left. */
  predicate Seatable(db: Database, policy: Policy, sid: Id, now: Time) {
    && Live(db, sid, now) && db.sessions[sid].role in policy.roles
    && |BusyOf(db.workers, sid)| < policy.roles[db.sessions[sid].role].maxConcurrent
  }

  lemma SeatsRefuseFirst(db: Database, policy: Policy, id: Id, sid: Id, now: Time)
    requires Seatable(db, policy, sid, now) ==>
      db.sessions[sid].org == policy.org
      && |ActiveSessions(db.sessions, policy.org)| + |BusyWorkers(db.sessions, db.workers, policy.org)| < policy.globalCap
    ensures Hire(db, policy, id, sid, now) != Rollback(StateError(GlobalCapReached))
  {
  }

  /** Nor is `reserve_worker`: the parent's own caps refuse first. */
  lemma {:induction false} HireNeverMeetsGlobalCap(db: Database, policy: Policy, id: Id, sid: Id, now: Time)
    requires Capacity(db, policy) && Sound(policy)
    ensures Hire(db, policy, id, sid, now) != Rollback(StateError(GlobalCapReached))
  {
    if Seatable(db, policy, sid, now) {
      FreeWorkerSeat(db, policy, sid, now);
    }
    SeatsRefuseFirst(db, policy, id, sid, now);
  }

  // ---------- preservation ----------

  lemma NewcomerKeepsParents(sessions: map<Id, Session>, policy: Policy, id: Id, row: Session)
    requires Parents(sessions, policy) && id !in sessions && row.org == policy.org && row.role in policy.roles
    requires ParentsOf(sessions, row.role) == {} && row.state.Active?
    ensures Parents(sessions[id := row], policy)
  {
  }

  lemma NewcomerKeepsCounts(sessions: map<Id, Session>, workers: map<Id, Worker>, policy: Policy, id: Id, row: Session)
    requires Employed(sessions, workers) && Counts(sessions, workers, policy) && id !in sessions
    requires row.role in policy.roles ==> 0 <= policy.roles[row.role].maxConcurrent <= policy.roles[row.role].maxPerWake
    ensures Employed(sessions[id := row], workers) && Counts(sessions[id := row], workers, policy)
  {
  }

  lemma {:induction false} AdmitKeepsCapacity(db: Database, policy: Policy, id: Id, wakeId: Id, role: Name, now: Time, ttl: int)
    requires Capacity(db, policy) && Sound(policy) && role in policy.roles
    requires Admit(db, policy, id, wakeId, role, now, ttl).Commit?
    ensures Capacity(Admit(db, policy, id, wakeId, role, now, ttl).db, policy)
  {
    var row := Session(wakeId, policy.org, role, now + ttl, SessionState.Active);
    RoleBusyExactly(db, policy, role);
    assert KnownRole(role, policy.roles[role], policy.orgBudget);
    NewcomerKeepsParents(db.sessions, policy, id, row);
    NewcomerKeepsCounts(db.sessions, db.workers, policy, id, row);
  }

  /** Session `sid` left the active state with no busy worker; attempts were not renumbered. */
  ghost predicate Closes(db: Database, after: Database, sid: Id) {
    && sid in db.sessions && sid in after.sessions && !after.sessions[sid].state.Active?
    && after.sessions == db.sessions[sid := db.sessions[sid].(state := after.sessions[sid].state)]
    && after.workers.Keys == db.workers.Keys
    && (forall w :: w in db.workers ==>
          && after.workers[w].session == db.workers[w].session && after.workers[w].sequence == db.workers[w].sequence
          && (Busy(after.workers[w]) ==> Busy(db.workers[w]) && db.workers[w].session != sid))
  }

  lemma ClosingCounts(db: Database, after: Database, sid: Id, s: Id, rule: RolePolicy)
    requires Closes(db, after, sid) && Counted(db.workers, s, rule)
    ensures Counted(after.workers, s, rule)
  {
    assert AttemptsOf(after.workers, s) == AttemptsOf(db.workers, s);
    Smaller(BusyOf(after.workers, s), BusyOf(db.workers, s));
  }

  lemma {:induction false} Smaller<T>(a: set<T>, b: set<T>)
    requires a <= b
    ensures |a| <= |b|
  {
    assert b == a + (b - a);
  }

  lemma ClosingKeepsParents(db: Database, after: Database, policy: Policy, sid: Id)
    requires Parents(db.sessions, policy) && Closes(db, after, sid)
    ensures Parents(after.sessions, policy)
  {
  }

  lemma ClosingKeepsCounts(db: Database, after: Database, policy: Policy, sid: Id)
    requires Counts(db.sessions, db.workers, policy) && Closes(db, after, sid)
    ensures Counts(after.sessions, after.workers, policy)
  {
    forall s | s in db.sessions && db.sessions[s].role in policy.roles
      ensures Counted(after.workers, s, policy.roles[db.sessions[s].role])
    {
      ClosingCounts(db, after, sid, s, policy.roles[db.sessions[s].role]);
    }
  }

  lemma {:induction false} ClosingKeepsCapacity(db: Database, after: Database, policy: Policy, sid: Id)
    requires Capacity(db, policy) && Closes(db, after, sid)
    ensures Capacity(after, policy)
  {
    ClosingKeepsParents(db, after, policy, sid);
    ClosingKeepsCounts(db, after, policy, sid);
  }

  lemma HiredSequences(workers: map<Id, Worker>, id: Id, row: Worker)
    requires id !in workers
    ensures SequencesOf(workers[id := row], row.session) == SequencesOf(workers, row.session) + {row.sequence}
  {
    var after, sid := workers[id := row], row.session;
    assert AttemptsOf(after, sid) == AttemptsOf(workers, sid) + {id};
    assert after[id] == row;
    forall w | w in AttemptsOf(workers, sid) ensures workers[w].sequence in SequencesOf(after, sid) {
      assert w in AttemptsOf(after, sid) && after[w].sequence == workers[w].sequence;
    }
  }

  lemma HiredAttempts(workers: map<Id, Worker>, id: Id, row: Worker)
    requires id !in workers
    ensures |AttemptsOf(workers[id := row], row.session)| == |AttemptsOf(workers, row.session)| + 1
    ensures |BusyOf(workers[id := row], row.session)| <= |BusyOf(workers, row.session)| + 1
  {
    var after, sid := workers[id := row], row.session;
    assert AttemptsOf(after, sid) == AttemptsOf(workers, sid) + {id};
    Smaller(BusyOf(after, sid), BusyOf(workers, sid) + {id});
  }

  lemma HiredNumbered(workers: map<Id, Worker>, id: Id, row: Worker)
    requires id !in workers && Numbered(workers, row.session) && row.sequence == |AttemptsOf(workers, row.session)| + 1
    ensures Numbered(workers[id := row], row.session)
  {
    HiredSequences(workers, id, row);
    HiredAttempts(workers, id, row);
  }

  lemma HiredCounts(workers: map<Id, Worker>, id: Id, row: Worker, rule: RolePolicy)
    requires id !in workers && Counted(workers, row.session, rule) && row.sequence == |AttemptsOf(workers, row.session)| + 1
    requires |AttemptsOf(workers, row.session)| < rule.maxPerWake && |BusyOf(workers, row.session)| < rule.maxConcurrent
    ensures Counted(workers[id := row], row.session, rule)
  {
    HiredNumbered(workers, id, row);
    HiredAttempts(workers, id, row);
  }

  lemma OthersKeepCounts(workers: map<Id, Worker>, id: Id, row: Worker, s: Id)
    requires s != row.session && (id in workers ==> workers[id].session == row.session)
    ensures AttemptsOf(workers[id := row], s) == AttemptsOf(workers, s) && BusyOf(workers[id := row], s) == BusyOf(workers, s)
    ensures SequencesOf(workers[id := row], s) == SequencesOf(workers, s)
  {
  }

  lemma HireKeepsCounts(sessions: map<Id, Session>, workers: map<Id, Worker>, policy: Policy, id: Id, row: Worker)
    requires Counts(sessions, workers, policy) && id !in workers
    requires row.session in sessions && sessions[row.session].role in policy.roles
    requires Counted(workers[id := row], row.session, policy.roles[sessions[row.session].role])
    ensures Counts(sessions, workers[id := row], policy)
  {
    forall s | s in sessions && sessions[s].role in policy.roles && s != row.session
      ensures Counted(workers[id := row], s, policy.roles[sessions[s].role])
    {
      assert Counted(workers, s, policy.roles[sessions[s].role]);
      OthersKeepCounts(workers, id, row, s);
    }
  }

  lemma HireCases(db: Database, policy: Policy, id: Id, sid: Id, now: Time)
    requires Hire(db, policy, id, sid, now).Commit?
    ensures IsActive(db, sid) && db.sessions[sid].role in policy.roles && id !in db.workers
    ensures var rule := policy.roles[db.sessions[sid].role];
      |AttemptsOf(db.workers, sid)| < rule.maxPerWake && |BusyOf(db.workers, sid)| < rule.maxConcurrent
    ensures var row := Worker(sid, |AttemptsOf(db.workers, sid)| + 1, Accepted);
      Hire(db, policy, id, sid, now).db == db.(workers := db.workers[id := row])
  {
  }

  lemma {:induction false} HireKeepsCapacity(db: Database, policy: Policy, id: Id, sid: Id, now: Time)
    requires Capacity(db, policy) && Hire(db, policy, id, sid, now).Commit?
    ensures Capacity(Hire(db, policy, id, sid, now).db, policy)
  {
    HireCases(db, policy, id, sid, now);
    var row := Worker(sid, |AttemptsOf(db.workers, sid)| + 1, Accepted);
    HiredCounts(db.workers, id, row, policy.roles[db.sessions[sid].role]);
    HireKeepsCounts(db.sessions, db.workers, policy, id, row);
  }

  lemma UpdatedCounts(workers: map<Id, Worker>, id: Id, state: WorkerState)
    requires id in workers
    ensures var after, sid := workers[id := workers[id].(state := state)], workers[id].session;
      && AttemptsOf(after, sid) == AttemptsOf(workers, sid) && SequencesOf(after, sid) == SequencesOf(workers, sid)
      && |BusyOf(after, sid)| == |BusyOf(workers, sid)| - (if Busy(workers[id]) then 1 else 0) + (if Busy(after[id]) then 1 else 0)
  {
    var after, sid := workers[id := workers[id].(state := state)], workers[id].session;
    assert AttemptsOf(after, sid) == AttemptsOf(workers, sid);
    var others := BusyOf(workers, sid) - {id};
    assert BusyOf(after, sid) == if Busy(after[id]) then others + {id} else others;
    assert BusyOf(workers, sid) == if Busy(workers[id]) then others + {id} else others;
  }

  /** The unguarded worker update keeps the caps exactly when it is a final state, or the
      attempt was busy already, or its session is active and has a concurrent seat left. */
  lemma {:induction false} WorkerUpdateKeepsCapacity(db: Database, policy: Policy, id: Id, state: WorkerState)
    requires Capacity(db, policy) && id in db.workers
    ensures var sid := db.workers[id].session;
      Capacity(SetWorker(db, id, state).db, policy) <==>
        || !(state.Accepted? || state.Running?) || Busy(db.workers[id])
        || (db.sessions[sid].state.Active? && |BusyOf(db.workers, sid)| < policy.roles[db.sessions[sid].role].maxConcurrent)
  {
    var row, sid := db.workers[id].(state := state), db.workers[id].session;
    var after := db.workers[id := row];
    var rule := policy.roles[db.sessions[sid].role];
    UpdatedCounts(db.workers, id, state);
    assert Counted(db.workers, sid, rule);
    forall s | s in db.sessions && db.sessions[s].role in policy.roles && s != sid
      ensures Counted(after, s, policy.roles[db.sessions[s].role])
    {
      assert Counted(db.workers, s, policy.roles[db.sessions[s].role]);
      OthersKeepCounts(db.workers, id, row, s);
    }
    assert Counts(db.sessions, after, policy) <==> Counted(after, sid, rule);
    assert Employed(db.sessions, after) <==> Busy(row) ==> db.sessions[sid].state.Active?;
  }

  /** A run that breaks it: a worker still starting while its session is force-terminated
      leaves a running attempt under a revoked session. */
  lemma LateStartBreaksCapacity(db: Database, policy: Policy, id: Id)
    requires Capacity(db, policy) && id in db.workers && Busy(db.workers[id])
    ensures ForceTerminate(db, db.workers[id].session, false).Commit?
    ensures !Capacity(SetWorker(ForceTerminate(db, db.workers[id].session, false).db, id, WorkerState.Running).db, policy)
  {
    var sid := db.workers[id].session;
    var closed := ForceTerminate(db, sid, false).db;
    var late := SetWorker(closed, id, WorkerState.Running).db;
    assert Busy(late.workers[id]) && !late.sessions[sid].state.Active?;
  }
}
