/** The tick: route the pending events, bind them to deliveries, and lease a round of them. */
module Ticks {
  import opened Outcomes
  import opened Tables
  import opened Stores
  import opened Deliveries
  import opened Boards
  import Leases

  // ---------- the lease loop ----------

  /** How far a round got: the list, its roles, and everything leased on the way. */
  datatype Selection = Selection(db: Database, list: seq<Id>, roles: set<Name>, taken: set<Id>)

  function Back(d: Delivery, at: Time): Delivery {
    d.(state := RetryWait, eligibleAt := at, owner := None, leaseUntil := None)
  }

  /** A turn, row by row: a lease call, and then perhaps the giving back. */
  ghost predicate Turns(s: Selection, middle: Database, leased: Option<Id>, next: Selection, owner: Name, now: Time, until: Time,
                        ceiling: int, retryAt: Time) {
    && Leases.Moves(s.db, middle, now, until, owner, ceiling, leased)
    && match leased
       case None => next == s.(db := middle)
       case Some(d) =>
         && d in middle.deliveries && d in s.db.deliveries && next.taken == s.taken + {d}
         && if middle.deliveries[d].role in s.roles then
              && next.db.deliveries == middle.deliveries[d := Back(middle.deliveries[d], retryAt)]
              && next.list == s.list && next.roles == s.roles
            else next.db == middle && next.list == s.list + [d] && next.roles == s.roles + {middle.deliveries[d].role}
  }

  lemma GivingBack(db: Database, did: Id, owner: Name, at: Time)
    requires did in db.deliveries && db.deliveries[did].state.Leased? && db.deliveries[did].owner == Some(owner)
    ensures var tx := Finish(db, did, owner, Retry, at);
      tx.Commit? && tx.db.deliveries == db.deliveries[did := Back(db.deliveries[did], at)]
  {
  }

  lemma HandedOut(db: Database, after: Database, now: Time, until: Time, owner: Name, ceiling: int, d: Id)
    requires Leases.Moves(db, after, now, until, owner, ceiling, Some(d))
    ensures d in db.deliveries && d in after.deliveries && after.deliveries[d].state.Leased? && after.deliveries[d].owner == Some(owner)
    ensures after.deliveries[d].leaseUntil == Some(until) && after.deliveries[d].attempt == db.deliveries[d].attempt + 1
  {
  }

  /** What a lease call handed out is listed, or given back when its role is. */
  method Place(store: Store, d: Id, owner: Name, retryAt: Time, list: seq<Id>, roles: set<Name>)
    returns (longer: seq<Id>, wider: set<Name>)
    requires store.Valid() && d in store.db.deliveries
    requires store.db.deliveries[d].state.Leased? && store.db.deliveries[d].owner == Some(owner)
    modifies store
    ensures store.Valid()
    ensures if old(store.db).deliveries[d].role in roles then
              && store.db.deliveries == old(store.db).deliveries[d := Back(old(store.db).deliveries[d], retryAt)]
              && longer == list && wider == roles
            else store.db == old(store.db) && longer == list + [d] && wider == roles + {old(store.db).deliveries[d].role}
  {
    var role := store.db.deliveries[d].role;
    if role in roles {
      GivingBack(store.db, d, owner, retryAt);
      var back := store.FinishDelivery(d, owner, Retry, retryAt);
      return list, roles;
    }
    return list + [d], roles + {role};
  }

  method HandOut(store: Store, owner: Name, now: Time, seconds: int, ceiling: int) returns (leased: Option<Id>)
    requires store.Valid() && owner != "" && seconds > 0 && ceiling > 0
    modifies store
    ensures store.Valid() && Leases.Moves(old(store.db), store.db, now, now + seconds, owner, ceiling, leased)
  {
    var r := store.LeaseDelivery(owner, now, seconds, ceiling);
    return r.value;
  }

  /** One turn: a lease call, and the placing of what it handed out. */
  method LeaseOne(store: Store, owner: Name, now: Time, seconds: int, ceiling: int, retryAt: Time, list: seq<Id>, roles: set<Name>,
                  ghost taken: set<Id>)
    returns (leased: Option<Id>, longer: seq<Id>, wider: set<Name>, ghost more: set<Id>, ghost middle: Database)
    requires store.Valid() && owner != "" && seconds > 0 && ceiling > 0
    modifies store
    ensures store.Valid()
    ensures Turns(Selection(old(store.db), list, roles, taken), middle, leased, Selection(store.db, longer, wider, more),
                  owner, now, now + seconds, ceiling, retryAt)
  {
    ghost var before := store.db;
    leased := HandOut(store, owner, now, seconds, ceiling);
    middle, longer, wider, more := store.db, list, roles, taken;
    if leased.Some? {
      HandedOut(before, middle, now, now + seconds, owner, ceiling, leased.value);
      longer, wider := Place(store, leased.value, owner, retryAt, list, roles);
      more := taken + {leased.value};
    }
  }

  // ---------- what every turn keeps ----------

  /** The listed deliveries are leased to this owner, and none of the leases ends before `floor`. */
  ghost predicate HeldTo(db: Database, list: seq<Id>, owner: Name, floor: Time) {
    forall d :: d in list ==>
      && d in db.deliveries && db.deliveries[d].state.Leased? && db.deliveries[d].owner == Some(owner)
      && db.deliveries[d].leaseUntil.Some? && floor <= db.deliveries[d].leaseUntil.value
  }

  predicate OneEach(db: Database, list: seq<Id>) {
    forall i, j :: 0 <= i < j < |list| && list[i] in db.deliveries && list[j] in db.deliveries ==>
      db.deliveries[list[i]].role != db.deliveries[list[j]].role
  }

  /** The lease is given up: the delivery waits again, or was at the ceiling and is dead. */
  predicate Returned(d: Delivery, ceiling: int) {
    && d.owner.None? && d.leaseUntil.None?
    && (d.state.RetryWait? || (d.state.DeadLetter? && d.attempt >= ceiling))
  }

  /** Everything leased on the way is listed or was given back. */
  ghost predicate ListedOrBack(s: Selection, ceiling: int) {
    forall d :: d in s.taken ==> d in s.list || (d in s.db.deliveries && Returned(s.db.deliveries[d], ceiling))
  }

  /** The roles are those of the list, and whatever was leased has one of them. */
  ghost predicate Paired(s: Selection) {
    && (forall d :: d in s.list ==> d in s.db.deliveries && s.db.deliveries[d].role in s.roles)
    && (forall role :: role in s.roles ==> exists d :: d in s.list && d in s.db.deliveries && s.db.deliveries[d].role == role)
    && (forall d :: d in s.taken ==> d in s.db.deliveries && s.db.deliveries[d].role in s.roles)
  }

  /** Attempts grew only where something was leased. */
  ghost predicate Tallied(start: Database, s: Selection) {
    forall d :: d in start.deliveries ==>
      && d in s.db.deliveries && start.deliveries[d].attempt <= s.db.deliveries[d].attempt
      && (s.db.deliveries[d].attempt > start.deliveries[d].attempt ==> d in s.taken)
  }

  /** Leased in this round, and not due again in it: the lease stands, or it was given back with
      a backoff that outlasts the round, or the delivery is dead. */
  predicate Spent(d: Delivery, nows: seq<Time>) {
    || (d.state.Leased? && forall t :: t in nows ==> !Leases.Ended(d, t))
    || (d.state.RetryWait? && forall t :: t in nows ==> t < d.eligibleAt)
    || d.state.DeadLetter?
  }

  ghost predicate OnceEach(start: Database, s: Selection, nows: seq<Time>) {
    && (forall d :: d in s.taken ==> d in s.db.deliveries && Spent(s.db.deliveries[d], nows))
    && forall d :: d in start.deliveries ==>
         d in s.db.deliveries && s.db.deliveries[d].attempt == start.deliveries[d].attempt + (if d in s.taken then 1 else 0)
  }

  lemma TurnHolds(s: Selection, middle: Database, leased: Option<Id>, next: Selection, owner: Name, now: Time, until: Time, ceiling: int,
                  retryAt: Time, floor: Time)
    requires Turns(s, middle, leased, next, owner, now, until, ceiling, retryAt) && now < floor <= until
    requires HeldTo(s.db, s.list, owner, floor)
    ensures HeldTo(next.db, next.list, owner, floor)
    ensures leased.Some? ==> leased.value !in s.list
  {
    forall d | d in s.list ensures d in middle.deliveries && middle.deliveries[d] == s.db.deliveries[d] && leased != Some(d) {
    }
    if leased.Some? {
      HandedOut(s.db, middle, now, until, owner, ceiling, leased.value);
    }
  }

  lemma TurnKeepsRoles(s: Selection, middle: Database, leased: Option<Id>, next: Selection, owner: Name, now: Time, until: Time,
                       ceiling: int, retryAt: Time)
    requires Turns(s, middle, leased, next, owner, now, until, ceiling, retryAt)
    ensures forall d :: d in s.db.deliveries ==>
      && d in middle.deliveries && middle.deliveries[d].role == s.db.deliveries[d].role
      && d in next.db.deliveries && next.db.deliveries[d].role == s.db.deliveries[d].role
  {
  }

  lemma TurnPairs(s: Selection, middle: Database, leased: Option<Id>, next: Selection, owner: Name, now: Time, until: Time, ceiling: int,
                  retryAt: Time)
    requires Turns(s, middle, leased, next, owner, now, until, ceiling, retryAt) && Paired(s)
    ensures Paired(next)
  {
    TurnKeepsRoles(s, middle, leased, next, owner, now, until, ceiling, retryAt);
    forall role | role in next.roles
      ensures exists d :: d in next.list && d in next.db.deliveries && next.db.deliveries[d].role == role
    {
      if role in s.roles {
        var d :| d in s.list && d in s.db.deliveries && s.db.deliveries[d].role == role;
        assert d in next.list;
      } else {
        assert leased.value in next.list;
      }
    }
  }

  lemma ApartWith(s: Selection, d: Id)
    requires Paired(s) && OneEach(s.db, s.list) && d in s.db.deliveries && s.db.deliveries[d].role !in s.roles
    ensures OneEach(s.db, s.list + [d])
  {
  }

  lemma TurnStaysApart(s: Selection, middle: Database, leased: Option<Id>, next: Selection, owner: Name, now: Time, until: Time,
                       ceiling: int, retryAt: Time)
    requires Turns(s, middle, leased, next, owner, now, until, ceiling, retryAt) && Paired(s) && OneEach(s.db, s.list)
    ensures OneEach(next.db, next.list)
  {
    TurnKeepsRoles(s, middle, leased, next, owner, now, until, ceiling, retryAt);
    if leased.Some? && middle.deliveries[leased.value].role !in s.roles {
      ApartWith(s, leased.value);
    }
  }

  lemma TurnListsOrReturns(s: Selection, middle: Database, leased: Option<Id>, next: Selection, owner: Name, now: Time, until: Time,
                           ceiling: int, retryAt: Time)
    requires Turns(s, middle, leased, next, owner, now, until, ceiling, retryAt) && ListedOrBack(s, ceiling)
    ensures ListedOrBack(next, ceiling)
  {
    forall d | d in next.taken ensures d in next.list || (d in next.db.deliveries && Returned(next.db.deliveries[d], ceiling)) {
      if leased != Some(d) && d !in s.list {
        assert d in s.taken && d in s.db.deliveries;
        assert Leases.RowMoves(s.db.deliveries[d], middle.deliveries[d], now, until, owner, ceiling, false);
      }
    }
  }

  lemma TurnTallies(start: Database, s: Selection, middle: Database, leased: Option<Id>, next: Selection, owner: Name, now: Time,
                    until: Time, ceiling: int, retryAt: Time)
    requires Turns(s, middle, leased, next, owner, now, until, ceiling, retryAt) && Tallied(start, s)
    ensures Tallied(start, next)
  {
  }

  lemma SpentStays(before: Delivery, after: Delivery, now: Time, until: Time, owner: Name, ceiling: int, nows: seq<Time>)
    requires Spent(before, nows) && now in nows && Leases.RowMoves(before, after, now, until, owner, ceiling, false)
    ensures Spent(after, nows) && after.attempt == before.attempt
  {
  }

  lemma SpentIsNotHandedOut(s: Selection, middle: Database, d: Id, now: Time, until: Time, owner: Name, ceiling: int, nows: seq<Time>)
    requires Leases.Moves(s.db, middle, now, until, owner, ceiling, Some(d)) && now in nows
    requires forall e :: e in s.taken ==> e in s.db.deliveries && Spent(s.db.deliveries[e], nows)
    ensures d !in s.taken
  {
  }

  lemma TurnSpends(start: Database, s: Selection, middle: Database, leased: Option<Id>, next: Selection, owner: Name, now: Time,
                   until: Time, ceiling: int, retryAt: Time, nows: seq<Time>)
    requires Turns(s, middle, leased, next, owner, now, until, ceiling, retryAt) && OnceEach(start, s, nows)
    requires now in nows && forall t :: t in nows ==> t < until && t < retryAt
    ensures OnceEach(start, next, nows)
  {
    if leased.Some? {
      SpentIsNotHandedOut(s, middle, leased.value, now, until, owner, ceiling, nows);
    }
    forall d | d in next.taken ensures d in next.db.deliveries && Spent(next.db.deliveries[d], nows) {
      if leased != Some(d) {
        SpentStays(s.db.deliveries[d], middle.deliveries[d], now, until, owner, ceiling, nows);
      }
    }
  }

  /** Everything every turn keeps. */
  ghost predicate Going(start: Database, s: Selection, owner: Name, floor: Time, ceiling: int) {
    && HeldTo(s.db, s.list, owner, floor) && OneEach(s.db, s.list) && ListedOrBack(s, ceiling) && Paired(s) && Tallied(start, s)
  }

  lemma TurnGoes(start: Database, s: Selection, middle: Database, leased: Option<Id>, next: Selection, owner: Name, now: Time, until: Time,
                 ceiling: int, retryAt: Time, floor: Time)
    requires Turns(s, middle, leased, next, owner, now, until, ceiling, retryAt) && now < floor <= until
    requires Going(start, s, owner, floor, ceiling)
    ensures Going(start, next, owner, floor, ceiling)
  {
    TurnHolds(s, middle, leased, next, owner, now, until, ceiling, retryAt, floor);
    TurnPairs(s, middle, leased, next, owner, now, until, ceiling, retryAt);
    TurnStaysApart(s, middle, leased, next, owner, now, until, ceiling, retryAt);
    TurnListsOrReturns(s, middle, leased, next, owner, now, until, ceiling, retryAt);
    TurnTallies(start, s, middle, leased, next, owner, now, until, ceiling, retryAt);
  }

  ghost predicate NoneDue(db: Database, now: Time, ceiling: int) {
    forall d :: d in db.deliveries ==> !Leases.Due(db.deliveries[d], now, ceiling)
  }

  /** If any delivery is due, the list starts with the one that a lease call hands out. */
  ghost predicate Leads(db: Database, now: Time, ceiling: int, list: seq<Id>) {
    !NoneDue(db, now, ceiling) ==> list != [] && Leases.HandsOut(db.deliveries, now, ceiling, Some(list[0]))
  }

  /** The list grew by at most one; a first turn takes the delivery that leads; and after an
      idle one nothing is due. */
  ghost predicate Extends(s: Selection, next: Selection, idle: bool, now: Time, ceiling: int) {
    && (idle ==> NoneDue(next.db, now, ceiling))
    && (s.list == [] && s.roles == {} ==> Leads(s.db, now, ceiling, next.list))
    && s.list <= next.list && |next.list| <= |s.list| + 1
  }

  lemma TurnIdles(s: Selection, middle: Database, leased: Option<Id>, next: Selection, owner: Name, now: Time, until: Time, ceiling: int,
                  retryAt: Time)
    requires Turns(s, middle, leased, next, owner, now, until, ceiling, retryAt)
    ensures Extends(s, next, leased.None?, now, ceiling)
  {
  }

  // ---------- the round ----------

  /** All calls fall before the first lease could end. */
  predicate OnePeriod(nows: seq<Time>, seconds: int) {
    nows != [] && forall i :: 0 <= i < |nows| ==> nows[0] <= nows[i] < nows[0] + seconds
  }

  /** Every backoff given in the round outlasts it. */
  predicate BacksOff(nows: seq<Time>, retries: seq<Time>) {
    forall t, r :: t in nows && r in retries ==> t < r
  }

  lemma TurnSpendsOnce(start: Database, s: Selection, middle: Database, leased: Option<Id>, next: Selection, owner: Name, seconds: int,
                       ceiling: int, nows: seq<Time>, retries: seq<Time>, i: nat)
    requires i < |nows| == |retries| && OnePeriod(nows, seconds) && BacksOff(nows, retries) && OnceEach(start, s, nows)
    requires Turns(s, middle, leased, next, owner, nows[i], nows[i] + seconds, ceiling, retries[i])
    ensures OnceEach(start, next, nows)
  {
    assert nows[i] in nows && retries[i] in retries;
    TurnSpends(start, s, middle, leased, next, owner, nows[i], nows[i] + seconds, ceiling, retries[i], nows);
  }

  ghost predicate SpendsOn(start: Database, s: Selection, next: Selection, nows: seq<Time>, retries: seq<Time>) {
    BacksOff(nows, retries) && OnceEach(start, s, nows) ==> OnceEach(start, next, nows)
  }

  lemma TurnMaySpend(start: Database, s: Selection, middle: Database, leased: Option<Id>, next: Selection, owner: Name, seconds: int,
                     ceiling: int, nows: seq<Time>, retries: seq<Time>, i: nat)
    requires i < |nows| == |retries| && OnePeriod(nows, seconds)
    requires Turns(s, middle, leased, next, owner, nows[i], nows[i] + seconds, ceiling, retries[i])
    ensures SpendsOn(start, s, next, nows, retries)
  {
    if BacksOff(nows, retries) && OnceEach(start, s, nows) {
      TurnSpendsOnce(start, s, middle, leased, next, owner, seconds, ceiling, nows, retries, i);
    }
  }

  /** What the `i`-th turn of a round keeps and gives. */
  ghost predicate TurnLeaves(start: Database, s: Selection, next: Selection, idle: bool, owner: Name, nows: seq<Time>, seconds: int,
                             ceiling: int, retries: seq<Time>, i: nat)
    requires i < |nows|
  {
    && Going(start, next, owner, nows[0] + seconds, ceiling) && SpendsOn(start, s, next, nows, retries)
    && Extends(s, next, idle, nows[i], ceiling)
  }

  lemma TurnsLeave(start: Database, s: Selection, middle: Database, leased: Option<Id>, next: Selection, owner: Name, nows: seq<Time>,
                   seconds: int, ceiling: int, retries: seq<Time>, i: nat)
    requires i < |nows| == |retries| && OnePeriod(nows, seconds) && Going(start, s, owner, nows[0] + seconds, ceiling)
    requires Turns(s, middle, leased, next, owner, nows[i], nows[i] + seconds, ceiling, retries[i])
    ensures TurnLeaves(start, s, next, leased.None?, owner, nows, seconds, ceiling, retries, i)
  {
    TurnGoes(start, s, middle, leased, next, owner, nows[i], nows[i] + seconds, ceiling, retries[i], nows[0] + seconds);
    TurnIdles(s, middle, leased, next, owner, nows[i], nows[i] + seconds, ceiling, retries[i]);
    TurnMaySpend(start, s, middle, leased, next, owner, seconds, ceiling, nows, retries, i);
  }

  method Turn(store: Store, owner: Name, nows: seq<Time>, seconds: int, ceiling: int, retries: seq<Time>, i: nat, list: seq<Id>,
              roles: set<Name>, ghost taken: set<Id>, ghost start: Database)
    returns (idle: bool, longer: seq<Id>, wider: set<Name>, ghost more: set<Id>)
    requires store.Valid() && owner != "" && seconds > 0 && ceiling > 0 && i < |nows| == |retries| && OnePeriod(nows, seconds)
    requires Going(start, Selection(store.db, list, roles, taken), owner, nows[0] + seconds, ceiling)
    modifies store
    ensures store.Valid()
    ensures TurnLeaves(start, Selection(old(store.db), list, roles, taken), Selection(store.db, longer, wider, more), idle, owner, nows,
                       seconds, ceiling, retries, i)
  {
    ghost var s := Selection(store.db, list, roles, taken);
    var leased;
    ghost var middle;
    leased, longer, wider, more, middle := LeaseOne(store, owner, nows[i], seconds, ceiling, retries[i], list, roles, taken);
    TurnsLeave(start, s, middle, leased, Selection(store.db, longer, wider, more), owner, nows, seconds, ceiling, retries, i);
    idle := leased.None?;
  }

  /** What was leased on the way is in the list, or was given back because its role was. */
  ghost predicate ListedOrReturned(db: Database, after: Database, list: seq<Id>, ceiling: int) {
    forall d :: d in db.deliveries ==>
      && d in after.deliveries && db.deliveries[d].attempt <= after.deliveries[d].attempt
      && (after.deliveries[d].attempt > db.deliveries[d].attempt && d !in list ==>
            && Returned(after.deliveries[d], ceiling)
            && exists e :: e in list && e in after.deliveries && after.deliveries[e].role == after.deliveries[d].role)
  }

  /** No delivery was leased twice. */
  ghost predicate GrewOnce(db: Database, after: Database) {
    forall d :: d in db.deliveries ==> d in after.deliveries && after.deliveries[d].attempt <= db.deliveries[d].attempt + 1
  }

  lemma RoundEnds(start: Database, s: Selection, owner: Name, floor: Time, ceiling: int)
    requires Going(start, s, owner, floor, ceiling)
    ensures OneEach(s.db, s.list) && HeldTo(s.db, s.list, owner, floor) && ListedOrReturned(start, s.db, s.list, ceiling)
  {
  }

  lemma SpentGrewOnce(start: Database, s: Selection, nows: seq<Time>)
    requires OnceEach(start, s, nows)
    ensures GrewOnce(start, s.db)
  {
  }

  /** The lease loop of `tick`, within one lease period: at most one delivery a role, at most
      `limit` of them, each still leased to this owner; whatever else was leased on the way was given
      back because its role was listed; the round stops early only at the limit, or when nothing is
      due; and if its backoffs outlast it, it leases no delivery twice. */
  method LeaseRound(store: Store, owner: Name, nows: seq<Time>, seconds: int, ceiling: int, retries: seq<Time>, limit: int)
    returns (list: seq<Id>, ghost calls: nat)
    requires store.Valid() && owner != "" && seconds > 0 && ceiling > 0 && limit > 0 && |retries| == |nows| && OnePeriod(nows, seconds)
    modifies store
    ensures store.Valid() && |list| <= limit && |list| <= calls <= |nows|
    ensures OneEach(store.db, list) && HeldTo(store.db, list, owner, nows[0] + seconds)
    ensures ListedOrReturned(old(store.db), store.db, list, ceiling) && Leads(old(store.db), nows[0], ceiling, list)
    ensures |list| == limit || calls == |nows| || (calls > 0 && NoneDue(store.db, nows[calls - 1], ceiling))
    ensures BacksOff(nows, retries) ==> GrewOnce(old(store.db), store.db)
  {
    ghost var start, taken: set<Id> := store.db, {};
    var roles: set<Name> := {};
    list, calls := [], 0;
    for i := 0 to |nows|
      invariant store.Valid() && calls == i && |list| < limit && |list| <= calls
      invariant Going(start, Selection(store.db, list, roles, taken), owner, nows[0] + seconds, ceiling)
      invariant BacksOff(nows, retries) ==> OnceEach(start, Selection(store.db, list, roles, taken), nows)
      invariant if i == 0 then store.db == start && list == [] && roles == {} else Leads(start, nows[0], ceiling, list)
    {
      var idle;
      idle, list, roles, taken := Turn(store, owner, nows, seconds, ceiling, retries, i, list, roles, taken, start);
      calls := calls + 1;
      if idle || |list| >= limit {
        break;
      }
    }
    RoundEnds(start, Selection(store.db, list, roles, taken), owner, nows[0] + seconds, ceiling);
    if BacksOff(nows, retries) {
      SpentGrewOnce(start, Selection(store.db, list, roles, taken), nows);
    }
  }

  /** A second delivery of a role is given back leased and unstarted; the next lease call of the
      same tick dead-letters it if and only if this was its last attempt. */
  lemma LastAttemptIsBuried(db: Database, did: Id, owner: Name, retryAt: Time, now: Time, ceiling: int)
    requires did in db.deliveries && db.deliveries[did].state.Leased? && db.deliveries[did].owner == Some(owner)
    ensures var back := Finish(db, did, owner, Retry, retryAt);
      && back.Commit? && back.db.deliveries[did].state.RetryWait? && back.db.deliveries[did].attempt == db.deliveries[did].attempt
      && (Cleared(back.db, now, ceiling).deliveries[did].state.DeadLetter? <==> db.deliveries[did].attempt >= ceiling)
  {
  }

  // ---------- routing and enqueueing ----------

  /** A digest key names its own delivery's role and events: the tick makes no other keys. */
  ghost predicate HonestKeys(db: Database) {
    forall d :: d in db.deliveries ==> db.deliveries[d].key == RouteDigest(db.deliveries[d].role, EventsOf(db, d))
  }

  /** Routing a pending event never fails: no route can exist for it yet. */
  lemma RoutingSucceeds(db: Database, event: EventId, role: Option<Name>)
    requires EventRows(db) && event in db.observed && db.observed[event].enrichment.Pending?
    ensures FinishRouting(db, event, role).Commit?
  {
  }

  lemma PendingAreUnassigned(db: Database, role: Name, events: set<EventId>)
    requires events <= PendingRoutes(db, role)
    ensures forall e :: e in events ==> Unassigned(db, role, e)
  {
  }

  /** The events of a delivery are bound to it, so none of them is pending. */
  lemma BoundAreNotPending(db: Database, d: Id, e: EventId)
    requires RouteRows(db) && d in db.deliveries && e in EventsOf(db, d)
    ensures !Unassigned(db, db.deliveries[d].role, e)
  {
  }

  /** Nor does an older delivery ever hold the digest of pending events: its own events are
      bound to it already. */
  lemma {:induction false} DigestIsFresh(db: Database, role: Name, events: set<EventId>)
    requires RouteRows(db) && HonestKeys(db) && events != {} && events <= PendingRoutes(db, role)
    ensures WithKey(db.deliveries, RouteDigest(role, events)) == {}
  {
  }

  /** Over honest keys enqueueing pending events under their route key binds a new delivery: it
      never raises and never returns an old one. */
  lemma {:induction false} HonestEnqueueBinds(db: Database, ceiling: int, id: Id, role: Name, events: set<EventId>, at: Time)
    requires Board(db, ceiling) && HonestKeys(db) && role != "" && events != {} && events <= PendingRoutes(db, role) && id !in db.deliveries
    ensures var key := RouteDigest(role, events);
      Enqueue(db, id, role, events, key, at) == Commit(Bound(db, id, role, events, key, at), id)
  {
  }

  lemma BoundEvents(db: Database, ceiling: int, id: Id, role: Name, events: set<EventId>, key: DeliveryKey, at: Time, d: Id)
    requires RouteRows(db) && id !in db.deliveries
    ensures EventsOf(Bound(db, id, role, events, key, at), d) == if d == id then events else EventsOf(db, d)
  {
    var after := Bound(db, id, role, events, key, at);
    forall m | m in db.members ensures m.delivery != id {
      assert MemberRow(db, m) && RouteRow(db, RouteKey(m.event, m.role));
    }
    forall e | e in events ensures e in EventsOf(after, id) {
      assert Membership(id, e, role) in after.members;
    }
    forall e | e in EventsOf(db, d) ensures e in EventsOf(after, d) {
      var m :| m in db.members && m.delivery == d && m.event == e;
      assert m in after.members;
    }
  }

  lemma BoundHonest(db: Database, ceiling: int, id: Id, role: Name, events: set<EventId>, at: Time)
    requires RouteRows(db) && HonestKeys(db) && id !in db.deliveries
    ensures HonestKeys(Bound(db, id, role, events, RouteDigest(role, events), at))
  {
    var after := Bound(db, id, role, events, RouteDigest(role, events), at);
    forall d | d in after.deliveries ensures after.deliveries[d].key == RouteDigest(after.deliveries[d].role, EventsOf(after, d)) {
      BoundEvents(db, ceiling, id, role, events, RouteDigest(role, events), at, d);
    }
  }

  /** One role's pending events, at most a wake's worth, as the tick listed them. */
  datatype Batch = Batch(role: Name, events: seq<EventId>)

  function EventSet(b: Batch): set<EventId> {
    set e | e in b.events
  }

  /** The batches left to enqueue: one a role, each of pending events, with a fresh number. */
  ghost predicate Ready(db: Database, batches: seq<Batch>, ids: seq<Id>) {
    && |ids| == |batches|
    && (forall i :: 0 <= i < |batches| ==>
          && batches[i].role != "" && batches[i].events != [] && ids[i] !in db.deliveries
          && EventSet(batches[i]) <= PendingRoutes(db, batches[i].role))
    && (forall i, j :: 0 <= i < j < |batches| ==> batches[i].role != batches[j].role && ids[i] != ids[j])
  }

  lemma OtherRolesStayPending(db: Database, id: Id, role: Name, events: set<EventId>, key: DeliveryKey, at: Time, other: Name)
    requires other != role
    ensures PendingRoutes(Bound(db, id, role, events, key, at), other) == PendingRoutes(db, other)
  {
    var after := Bound(db, id, role, events, key, at);
    forall e | e in PendingRoutes(db, other) ensures e in PendingRoutes(after, other) {
      assert RouteKey(e, other) in after.routes;
    }
  }

  lemma RestReady(db: Database, batches: seq<Batch>, ids: seq<Id>, at: Time)
    requires batches != [] && Ready(db, batches, ids)
    ensures Ready(Bound(db, ids[0], batches[0].role, EventSet(batches[0]), RouteDigest(batches[0].role, EventSet(batches[0])), at),
                  batches[1..], ids[1..])
  {
    var b := batches[0];
    var after := Bound(db, ids[0], b.role, EventSet(b), RouteDigest(b.role, EventSet(b)), at);
    forall i | 0 <= i < |batches[1..]|
      ensures EventSet(batches[1..][i]) <= PendingRoutes(after, batches[1..][i].role) && ids[1..][i] !in after.deliveries
    {
      assert batches[1..][i] == batches[i + 1] && ids[1..][i] == ids[i + 1];
      OtherRolesStayPending(db, ids[0], b.role, EventSet(b), RouteDigest(b.role, EventSet(b)), at, batches[i + 1].role);
    }
  }

  /** Every batch gets its own new delivery, holding exactly its events. */
  ghost predicate AllBound(db: Database, batches: seq<Batch>, ids: seq<Id>) {
    forall i :: 0 <= i < |batches| && i < |ids| ==>
      && ids[i] in db.deliveries && db.deliveries[ids[i]].role == batches[i].role && EventsOf(db, ids[i]) == EventSet(batches[i])
  }

  lemma BoundStays(db: Database, ceiling: int, id: Id, role: Name, events: set<EventId>, at: Time, batches: seq<Batch>, ids: seq<Id>)
    requires RouteRows(db) && AllBound(db, batches, ids) && |ids| == |batches| && id !in db.deliveries
    ensures AllBound(Bound(db, id, role, events, RouteDigest(role, events), at), batches, ids)
  {
    forall i | 0 <= i < |batches|
      ensures EventsOf(Bound(db, id, role, events, RouteDigest(role, events), at), ids[i]) == EventSet(batches[i])
    {
      BoundEvents(db, ceiling, id, role, events, RouteDigest(role, events), at, ids[i]);
    }
  }

  lemma NewIsBound(db: Database, ceiling: int, id: Id, role: Name, events: set<EventId>, at: Time)
    requires RouteRows(db) && id !in db.deliveries
    ensures var after := Bound(db, id, role, events, RouteDigest(role, events), at);
      id in after.deliveries && after.deliveries[id].role == role && EventsOf(after, id) == events
  {
    BoundEvents(db, ceiling, id, role, events, RouteDigest(role, events), at, id);
  }

  /** The enqueue loop between two batches. */
  ghost predicate Enqueueing(db: Database, batches: seq<Batch>, ids: seq<Id>, i: nat, ceiling: int)
    requires i <= |batches| && i <= |ids|
  {
    Board(db, ceiling) && HonestKeys(db) && Ready(db, batches[i..], ids[i..]) && AllBound(db, batches[..i], ids[..i])
  }

  lemma BatchBinds(db: Database, batches: seq<Batch>, ids: seq<Id>, i: nat, ceiling: int, at: Time)
    requires i < |batches| == |ids| && 0 <= ceiling && Enqueueing(db, batches, ids, i, ceiling)
    ensures var b := batches[i];
      && b.role != "" && EventSet(b) != {} && EventSet(b) <= PendingRoutes(db, b.role) && ids[i] !in db.deliveries
      && Enqueueing(Bound(db, ids[i], b.role, EventSet(b), RouteDigest(b.role, EventSet(b)), at), batches, ids, i + 1, ceiling)
  {
    var b, rest, left := batches[i], batches[i..], ids[i..];
    assert rest[0] == b && left[0] == ids[i] && rest[1..] == batches[i + 1..] && left[1..] == ids[i + 1..];
    assert b.events[0] in EventSet(b);
    var after := Bound(db, ids[i], b.role, EventSet(b), RouteDigest(b.role, EventSet(b)), at);
    DigestIsFresh(db, b.role, EventSet(b));
    PendingAreUnassigned(db, b.role, EventSet(b));
    BindingKeepsBoard(db, ids[i], b.role, EventSet(b), RouteDigest(b.role, EventSet(b)), at, ceiling);
    BoundHonest(db, ceiling, ids[i], b.role, EventSet(b), at);
    RestReady(db, rest, left, at);
    BatchesBound(db, batches, ids, i, ceiling, at);
  }

  lemma BatchesBound(db: Database, batches: seq<Batch>, ids: seq<Id>, i: nat, ceiling: int, at: Time)
    requires i < |batches| == |ids| && RouteRows(db) && ids[i] !in db.deliveries && AllBound(db, batches[..i], ids[..i])
    ensures var b := batches[i];
      AllBound(Bound(db, ids[i], b.role, EventSet(b), RouteDigest(b.role, EventSet(b)), at), batches[..i + 1], ids[..i + 1])
  {
    var b := batches[i];
    BoundStays(db, ceiling, ids[i], b.role, EventSet(b), at, batches[..i], ids[..i]);
    NewIsBound(db, ceiling, ids[i], b.role, EventSet(b), at);
    assert batches[..i + 1] == batches[..i] + [b] && ids[..i + 1] == ids[..i] + [ids[i]];
  }

  method EnqueueOne(store: Store, batches: seq<Batch>, ids: seq<Id>, i: nat, at: Time, ghost ceiling: int) returns (r: Outcome<Id>)
    requires store.Valid() && i < |batches| == |ids| && 0 <= ceiling && Enqueueing(store.db, batches, ids, i, ceiling)
    modifies store
    ensures store.Valid() && Enqueueing(store.db, batches, ids, i + 1, ceiling) && r == Ok(ids[i])
  {
    var b := batches[i];
    BatchBinds(store.db, batches, ids, i, ceiling, at);
    HonestEnqueueBinds(store.db, ceiling, ids[i], b.role, EventSet(b), at);
    r := store.EnqueueDelivery(ids[i], b.role, b.events, RouteDigest(b.role, set e | e in b.events), at);
  }

  /** The enqueue loop of `tick`: every batch gets a delivery of its own, new, holding exactly
      its events; none is refused. */
  method EnqueueBatches(store: Store, batches: seq<Batch>, ids: seq<Id>, at: Time, ghost ceiling: int) returns (failed: bool, made: seq<Id>)
    requires store.Valid() && |ids| == |batches| && 0 <= ceiling
    requires Board(store.db, ceiling) && HonestKeys(store.db) && Ready(store.db, batches, ids)
    modifies store
    ensures store.Valid() && Board(store.db, ceiling) && HonestKeys(store.db)
    ensures !failed && made == ids && AllBound(store.db, batches, ids)
  {
    made := [];
    assert batches[0..] == batches && ids[0..] == ids;
    for i := 0 to |batches|
      invariant store.Valid() && Enqueueing(store.db, batches, ids, i, ceiling) && made == ids[..i]
    {
      var r := EnqueueOne(store, batches, ids, i, at, ceiling);
      if r.Raised? {
        return true, made;
      }
      made := made + [r.value];
    }
    assert batches[..|batches|] == batches && ids[..|batches|] == ids;
    return false, made;
  }
}
