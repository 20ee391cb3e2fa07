/** When a transaction commits and what it then does, in terms of the rows alone: the other half
    of every transaction's definition, said without its own helpers. */
module Effects {
  import opened Outcomes
  import opened Tables
  import Sessions
  import Budgets
  import Deliveries
  import Feeds
  import Wakes
  import Journals

  // ---------- sessions and workers ----------

  /** Active sessions and busy attempts of an organization, together. */
  ghost function Agents(db: Database, org: Name): nat {
    |set s | s in db.sessions && db.sessions[s].org == org && db.sessions[s].state == SessionState.Active|
    + |set w | w in db.workers && (db.workers[w].state == Accepted || db.workers[w].state == WorkerState.Running)
              && db.workers[w].session in db.sessions && db.sessions[db.workers[w].session].org == org|
  }

  lemma AgentsAre(db: Database, org: Name)
    ensures Agents(db, org) == |Sessions.ActiveSessions(db.sessions, org)| + |Sessions.BusyWorkers(db.sessions, db.workers, org)|
  {
    assert Sessions.ActiveSessions(db.sessions, org)
        == set s | s in db.sessions && db.sessions[s].org == org && db.sessions[s].state == SessionState.Active;
    assert Sessions.BusyWorkers(db.sessions, db.workers, org)
        == set w | w in db.workers && (db.workers[w].state == Accepted || db.workers[w].state == WorkerState.Running)
                   && db.workers[w].session in db.sessions && db.sessions[db.workers[w].session].org == org;
  }

  /** A session is opened, for `ttl` from now, if and only if its role has no active one, the
      organization has fewer agents than the cap, and neither number was used before. */
  lemma {:induction false} CreatesIff(db: Database, id: Id, wakeId: Id, org: Name, role: Name, now: Time, ttl: int, cap: int)
    ensures var tx := Sessions.Create(db, id, wakeId, org, role, now, ttl, cap);
      && (tx.Commit? <==>
            && cap > 0 && ttl > 0
            && (forall s :: s in db.sessions && db.sessions[s].org == org && db.sessions[s].role == role ==>
                  db.sessions[s].state != SessionState.Active)
            && Agents(db, org) < cap
            && id !in db.sessions && (forall s :: s in db.sessions ==> db.sessions[s].wakeId != wakeId))
      && (tx.Commit? ==>
            tx.value == id && tx.db == db.(sessions := db.sessions[id := Session(wakeId, org, role, now + ttl, SessionState.Active)]))
  {
    AgentsAre(db, org);
    forall s | s in db.sessions && db.sessions[s].org == org && db.sessions[s].role == role && db.sessions[s].state.Active?
      ensures s in Sessions.ActiveSessions(db.sessions, org)
    {
    }
  }

  ghost predicate Idle(db: Database, sid: Id) {
    forall w :: w in db.workers && db.workers[w].session == sid ==>
      db.workers[w].state != Accepted && db.workers[w].state != WorkerState.Running
  }

  lemma IdleIs(db: Database, sid: Id)
    ensures Idle(db, sid) <==> Sessions.BusyOf(db.workers, sid) == {}
  {
    if w :| w in db.workers && db.workers[w].session == sid
            && (db.workers[w].state == Accepted || db.workers[w].state == WorkerState.Running) {
      assert w in Sessions.BusyOf(db.workers, sid);
    }
  }

  predicate Open(db: Database, sid: Id) {
    sid in db.sessions && db.sessions[sid].state == SessionState.Active
  }

  function WithState(db: Database, sid: Id, state: SessionState): Database
    requires sid in db.sessions
  {
    var row := db.sessions[sid];
    db.(sessions := db.sessions[sid := Session(row.wakeId, row.org, row.role, row.expiresAt, state)])
  }

  /** An open session without busy workers is revoked. */
  lemma {:induction false} RevokesIff(db: Database, sid: Id)
    ensures Sessions.Revoke(db, sid).Commit? <==> Open(db, sid) && Idle(db, sid)
    ensures Sessions.Revoke(db, sid).Commit? ==> Sessions.Revoke(db, sid).db == WithState(db, sid, Revoked)
  {
    IdleIs(db, sid);
  }

  ghost predicate Owes(db: Database, sid: Id) {
    exists r :: r in db.reservations && db.reservations[r].session == sid && db.reservations[r].state == ReservationState.Active
  }

  lemma OwesIs(db: Database, sid: Id)
    ensures Owes(db, sid) <==> Sessions.ActiveReservationsOf(db, sid) != {}
  {
    if r :| r in db.reservations && db.reservations[r].session == sid && db.reservations[r].state == ReservationState.Active {
      assert r in Sessions.ActiveReservationsOf(db, sid);
    }
  }

  /** It finishes if it also has no reservation left to settle. */
  lemma {:induction false} FinishesIff(db: Database, sid: Id)
    ensures Sessions.Finish(db, sid).Commit? <==> Open(db, sid) && Idle(db, sid) && !Owes(db, sid)
    ensures Sessions.Finish(db, sid).Commit? ==> Sessions.Finish(db, sid).db == WithState(db, sid, Finished)
  {
    IdleIs(db, sid);
    OwesIs(db, sid);
  }

  /** An attempt is accepted if and only if its session is open and not expired, has had fewer than
      `cumulative` attempts and has fewer than `concurrent` busy ones, and the organization has fewer
      agents than the cap; it is numbered next. */
  lemma {:induction false} HiresIff(db: Database, id: Id, sid: Id, now: Time, cumulative: int, concurrent: int, cap: int)
    ensures var had := set w | w in db.workers && db.workers[w].session == sid;
      var busy := set w | w in had && (db.workers[w].state == Accepted || db.workers[w].state == WorkerState.Running);
      var tx := Sessions.ReserveWorker(db, id, sid, now, cumulative, concurrent, cap);
      && (tx.Commit? <==>
            && Open(db, sid) && now < db.sessions[sid].expiresAt
            && |had| < cumulative && |busy| < concurrent && Agents(db, db.sessions[sid].org) < cap
            && id !in db.workers && (forall w :: w in had ==> db.workers[w].sequence != |had| + 1))
      && (tx.Commit? ==> tx.value == id && tx.db == db.(workers := db.workers[id := Worker(sid, |had| + 1, Accepted)]))
  {
    var had := set w | w in db.workers && db.workers[w].session == sid;
    var busy := set w | w in had && (db.workers[w].state == Accepted || db.workers[w].state == WorkerState.Running);
    assert had == Sessions.AttemptsOf(db.workers, sid) && busy == Sessions.BusyOf(db.workers, sid);
    if Open(db, sid) {
      AgentsAre(db, db.sessions[sid].org);
    }
  }

  /** The later updates of an attempt ask nothing of its state, and an unknown one is left unknown. */
  lemma {:induction false} SetsWorker(db: Database, id: Id, state: WorkerState)
    ensures Sessions.SetWorker(db, id, state).Commit?
    ensures id !in db.workers ==> Sessions.SetWorker(db, id, state).db == db
    ensures id in db.workers ==>
      Sessions.SetWorker(db, id, state).db
      == db.(workers := db.workers[id := Worker(db.workers[id].session, db.workers[id].sequence, state)])
  {
  }

  // ---------- budgets ----------

  /** A bucket that is there has this limit and room for the tokens; a new one would. */
  predicate Room(buckets: map<BucketKey, Bucket>, key: BucketKey, limit: int, tokens: int) {
    && limit > 0
    && (key in buckets ==> buckets[key].limit == limit && buckets[key].consumed + buckets[key].reserved + tokens <= limit)
    && (key !in buckets ==> tokens <= limit)
  }

  /** The bucket with these tokens more set aside. */
  function Aside(buckets: map<BucketKey, Bucket>, key: BucketKey, limit: int, tokens: int): map<BucketKey, Bucket> {
    if key in buckets then buckets[key := Bucket(limit, buckets[key].consumed, buckets[key].reserved + tokens)]
    else buckets[key := Bucket(limit, 0, tokens)]
  }

  /** The caller's list names the session's organization and its role, once each, in either order. */
  predicate Names(asks: seq<Budgets.Ask>, org: Name, orgLimit: int, role: Name, roleLimit: int) {
    || asks == [Budgets.Ask(OrgScope, org, orgLimit), Budgets.Ask(RoleScope, role, roleLimit)]
    || asks == [Budgets.Ask(RoleScope, role, roleLimit), Budgets.Ask(OrgScope, org, orgLimit)]
  }

  lemma NamesMatch(s: Session, asks: seq<Budgets.Ask>)
    ensures Budgets.AsksMatch(s, asks) <==> exists orgLimit, roleLimit :: Names(asks, s.org, orgLimit, s.role, roleLimit)
  {
    if Budgets.AsksMatch(s, asks) {
      var pairs := set a | a in asks :: (a.scope, a.subject);
      assert asks[0] in asks && asks[1] in asks;
      assert (asks[0].scope, asks[0].subject) in pairs && (asks[1].scope, asks[1].subject) in pairs;
      assert (OrgScope, s.org) in pairs && (RoleScope, s.role) in pairs;
      if asks[0].scope.OrgScope? {
        assert asks == [Budgets.Ask(OrgScope, s.org, asks[0].limit), Budgets.Ask(RoleScope, s.role, asks[1].limit)];
        assert Names(asks, s.org, asks[0].limit, s.role, asks[1].limit);
      } else {
        assert asks == [Budgets.Ask(RoleScope, s.role, asks[0].limit), Budgets.Ask(OrgScope, s.org, asks[1].limit)];
        assert Names(asks, s.org, asks[1].limit, s.role, asks[0].limit);
      }
    }
    if orgLimit, roleLimit :| Names(asks, s.org, orgLimit, s.role, roleLimit) {
      assert asks[0] in asks && asks[1] in asks;
    }
  }

  lemma OneOpens(buckets: map<BucketKey, Bucket>, epoch: Name, tokens: int, asks: seq<Budgets.Ask>)
    requires asks != []
    ensures var a, key := asks[0], BucketKey(asks[0].scope, asks[0].subject, epoch);
      if Room(buckets, key, a.limit, tokens) then
        Budgets.Opened(buckets, epoch, tokens, asks)
          == Budgets.Opened(if key in buckets then buckets else buckets[key := Bucket(a.limit, 0, 0)], epoch, tokens, asks[1..])
      else Budgets.Opened(buckets, epoch, tokens, asks).Raised?
  {
  }

  function Opening(buckets: map<BucketKey, Bucket>, key: BucketKey, limit: int): map<BucketKey, Bucket> {
    if key in buckets then buckets else buckets[key := Bucket(limit, 0, 0)]
  }

  lemma PostIsAside(buckets: map<BucketKey, Bucket>, key: BucketKey, limit: int, tokens: int)
    requires Room(buckets, key, limit, tokens)
    ensures Budgets.Post(Opening(buckets, key, limit), key, tokens, 0) == Aside(buckets, key, limit, tokens)
  {
  }

  lemma PostThenOpening(buckets: map<BucketKey, Bucket>, key: BucketKey, tokens: int, other: BucketKey, limit: int)
    requires key != other && key in buckets
    ensures Budgets.Post(Opening(buckets, other, limit), key, tokens, 0) == Opening(Budgets.Post(buckets, key, tokens, 0), other, limit)
  {
    var row := Bucket(buckets[key].limit, buckets[key].consumed, buckets[key].reserved + tokens);
    assert buckets[other := Bucket(limit, 0, 0)][key := row] == buckets[key := row][other := Bucket(limit, 0, 0)];
  }

  lemma ChargedTwice(buckets: map<BucketKey, Bucket>, epoch: Name, tokens: int, a: Budgets.Ask, b: Budgets.Ask)
    ensures Budgets.Charged(buckets, epoch, tokens, [a, b])
         == Budgets.Post(Budgets.Post(buckets, BucketKey(a.scope, a.subject, epoch), tokens, 0),
                         BucketKey(b.scope, b.subject, epoch), tokens, 0)
  {
    var first := Budgets.Post(buckets, BucketKey(a.scope, a.subject, epoch), tokens, 0);
    assert [a, b][1..] == [b] && [b][1..] == [];
    assert Budgets.Charged(buckets, epoch, tokens, [a, b]) == Budgets.Charged(first, epoch, tokens, [b]);
    assert Budgets.Charged(first, epoch, tokens, [b])
        == Budgets.Charged(Budgets.Post(first, BucketKey(b.scope, b.subject, epoch), tokens, 0), epoch, tokens, []);
  }

  lemma BothOpen(buckets: map<BucketKey, Bucket>, epoch: Name, tokens: int, a: Budgets.Ask, b: Budgets.Ask)
    requires a.scope != b.scope
    ensures var ka, kb := BucketKey(a.scope, a.subject, epoch), BucketKey(b.scope, b.subject, epoch);
      if Room(buckets, ka, a.limit, tokens) && Room(buckets, kb, b.limit, tokens) then
        Budgets.Opened(buckets, epoch, tokens, [a, b]) == Ok(Opening(Opening(buckets, ka, a.limit), kb, b.limit))
      else Budgets.Opened(buckets, epoch, tokens, [a, b]).Raised?
  {
    var ka := BucketKey(a.scope, a.subject, epoch);
    OneOpens(buckets, epoch, tokens, [a, b]);
    assert [a, b][1..] == [b] && [b][1..] == [];
    if Room(buckets, ka, a.limit, tokens) {
      OneOpens(Opening(buckets, ka, a.limit), epoch, tokens, [b]);
    }
  }

  lemma BothCharged(buckets: map<BucketKey, Bucket>, epoch: Name, tokens: int, a: Budgets.Ask, b: Budgets.Ask)
    requires a.scope != b.scope
    requires Room(buckets, BucketKey(a.scope, a.subject, epoch), a.limit, tokens)
    requires Room(buckets, BucketKey(b.scope, b.subject, epoch), b.limit, tokens)
    ensures var ka, kb := BucketKey(a.scope, a.subject, epoch), BucketKey(b.scope, b.subject, epoch);
      Budgets.Charged(Opening(Opening(buckets, ka, a.limit), kb, b.limit), epoch, tokens, [a, b])
      == Aside(Aside(buckets, ka, a.limit, tokens), kb, b.limit, tokens)
  {
    var ka, kb := BucketKey(a.scope, a.subject, epoch), BucketKey(b.scope, b.subject, epoch);
    var first := Opening(buckets, ka, a.limit);
    ChargedTwice(Opening(first, kb, b.limit), epoch, tokens, a, b);
    PostThenOpening(first, ka, tokens, kb, b.limit);
    PostIsAside(buckets, ka, a.limit, tokens);
    PostIsAside(Aside(buckets, ka, a.limit, tokens), kb, b.limit, tokens);
  }

  lemma AsideCommutes(buckets: map<BucketKey, Bucket>, a: BucketKey, aLimit: int, b: BucketKey, bLimit: int, tokens: int)
    requires a != b
    ensures Aside(Aside(buckets, a, aLimit, tokens), b, bLimit, tokens) == Aside(Aside(buckets, b, bLimit, tokens), a, aLimit, tokens)
  {
  }

  lemma NamedOpen(buckets: map<BucketKey, Bucket>, epoch: Name, tokens: int, asks: seq<Budgets.Ask>, org: Name, orgLimit: int, role: Name,
                  roleLimit: int)
    requires Names(asks, org, orgLimit, role, roleLimit)
    ensures var ko, kr := BucketKey(OrgScope, org, epoch), BucketKey(RoleScope, role, epoch);
      var outcome := Budgets.Opened(buckets, epoch, tokens, asks);
      && (outcome.Ok? <==> Room(buckets, ko, orgLimit, tokens) && Room(buckets, kr, roleLimit, tokens))
      && (outcome.Ok? ==>
            Budgets.Charged(outcome.value, epoch, tokens, asks) == Aside(Aside(buckets, ko, orgLimit, tokens), kr, roleLimit, tokens))
  {
    var ko, kr := BucketKey(OrgScope, org, epoch), BucketKey(RoleScope, role, epoch);
    var a, b := asks[0], asks[1];
    assert asks == [a, b];
    BothOpen(buckets, epoch, tokens, a, b);
    if Room(buckets, ko, orgLimit, tokens) && Room(buckets, kr, roleLimit, tokens) {
      BothCharged(buckets, epoch, tokens, a, b);
      AsideCommutes(buckets, ko, orgLimit, kr, roleLimit, tokens);
    }
  }

  lemma ReserveIs(db: Database, id: Id, sid: Id, now: Time, epoch: Name, tokens: int, asks: seq<Budgets.Ask>)
    returns (first: Outcome<map<BucketKey, Bucket>>, buckets: map<BucketKey, Bucket>)
    requires sid in db.sessions && Budgets.AsksMatch(db.sessions[sid], asks)
    ensures first == Budgets.Opened(db.buckets, epoch, tokens, asks)
    ensures first.Ok? ==> buckets == Budgets.Charged(first.value, epoch, tokens, asks)
    ensures var tx := Budgets.Reserve(db, id, sid, now, epoch, tokens, asks);
      && (tx.Commit? <==>
            && tokens > 0 && Open(db, sid) && now < db.sessions[sid].expiresAt && first.Ok?
            && id !in db.reservations && (forall r :: r in db.reservations ==> db.reservations[r].session != sid))
      && (tx.Commit? ==>
            && tx.value == id
            && tx.db == db.(buckets := buckets,
                            reservations := db.reservations[id := Reservation(sid, epoch, tokens, ReservationState.Active)]))
  {
    first := Budgets.Opened(db.buckets, epoch, tokens, asks);
    buckets := if first.Ok? then Budgets.Charged(first.value, epoch, tokens, asks) else map[];
  }

  /** Tokens are set aside, in exactly the organization's and the role's bucket of the epoch, if and
      only if the session is open and not expired, both buckets have room under the limits asked
      for, and the session never reserved before. */
  lemma {:induction false} ReservesIff(db: Database, id: Id, sid: Id, now: Time, epoch: Name, tokens: int, asks: seq<Budgets.Ask>,
                                       orgLimit: int, roleLimit: int) returns (tx: Tx<Id>)
    requires sid in db.sessions && Names(asks, db.sessions[sid].org, orgLimit, db.sessions[sid].role, roleLimit)
    ensures tx == Budgets.Reserve(db, id, sid, now, epoch, tokens, asks)
    ensures var ko, kr := BucketKey(OrgScope, db.sessions[sid].org, epoch), BucketKey(RoleScope, db.sessions[sid].role, epoch);
      && (tx.Commit? <==>
            && tokens > 0 && Open(db, sid) && now < db.sessions[sid].expiresAt
            && Room(db.buckets, ko, orgLimit, tokens) && Room(db.buckets, kr, roleLimit, tokens)
            && id !in db.reservations && (forall r :: r in db.reservations ==> db.reservations[r].session != sid))
      && (tx.Commit? ==>
            && tx.value == id
            && tx.db == db.(buckets := Aside(Aside(db.buckets, ko, orgLimit, tokens), kr, roleLimit, tokens),
                            reservations := db.reservations[id := Reservation(sid, epoch, tokens, ReservationState.Active)]))
  {
    NamesMatch(db.sessions[sid], asks);
    NamedOpen(db.buckets, epoch, tokens, asks, db.sessions[sid].org, orgLimit, db.sessions[sid].role, roleLimit);
    var first, buckets := ReserveIs(db, id, sid, now, epoch, tokens, asks);
    tx := Budgets.Reserve(db, id, sid, now, epoch, tokens, asks);
  }

  /** And never with any other list of buckets. */
  lemma OnlyNamedReserve(db: Database, id: Id, sid: Id, now: Time, epoch: Name, tokens: int, asks: seq<Budgets.Ask>)
    requires Budgets.Reserve(db, id, sid, now, epoch, tokens, asks).Commit?
    ensures sid in db.sessions
    ensures exists orgLimit, roleLimit :: Names(asks, db.sessions[sid].org, orgLimit, db.sessions[sid].role, roleLimit)
  {
    NamesMatch(db.sessions[sid], asks);
  }

  function OrgKey(db: Database, id: Id): BucketKey
    requires id in db.reservations && db.reservations[id].session in db.sessions
  {
    BucketKey(OrgScope, db.sessions[db.reservations[id].session].org, db.reservations[id].epoch)
  }

  function RoleKey(db: Database, id: Id): BucketKey
    requires id in db.reservations && db.reservations[id].session in db.sessions
  {
    BucketKey(RoleScope, db.sessions[db.reservations[id].session].role, db.reservations[id].epoch)
  }

  /** An active reservation whose two buckets still hold its tokens. */
  predicate Backed(db: Database, id: Id) {
    && id in db.reservations && db.reservations[id].state == ReservationState.Active && db.reservations[id].session in db.sessions
    && OrgKey(db, id) in db.buckets && db.buckets[OrgKey(db, id)].reserved >= db.reservations[id].tokens
    && RoleKey(db, id) in db.buckets && db.buckets[RoleKey(db, id)].reserved >= db.reservations[id].tokens
  }

  function Without(row: Bucket, tokens: int, actual: int): Bucket {
    Bucket(row.limit, row.consumed + actual, row.reserved - tokens)
  }

  /** The reservation's tokens leave both of its buckets, and what was used is consumed there. */
  function Moved(db: Database, id: Id, actual: int): map<BucketKey, Bucket>
    requires Backed(db, id)
  {
    var tokens := db.reservations[id].tokens;
    db.buckets[OrgKey(db, id) := Without(db.buckets[OrgKey(db, id)], tokens, actual)]
              [RoleKey(db, id) := Without(db.buckets[RoleKey(db, id)], tokens, actual)]
  }

  function RowWith(db: Database, id: Id, state: ReservationState): map<Id, Reservation>
    requires id in db.reservations
  {
    var row := db.reservations[id];
    db.reservations[id := Reservation(row.session, row.epoch, row.tokens, state)]
  }

  /** More was used than was reserved, or than a bucket had left. */
  predicate Crossed(db: Database, id: Id, actual: int)
    requires Backed(db, id)
  {
    || actual > db.reservations[id].tokens
    || db.buckets[OrgKey(db, id)].consumed + actual > db.buckets[OrgKey(db, id)].limit
    || db.buckets[RoleKey(db, id)].consumed + actual > db.buckets[RoleKey(db, id)].limit
  }

  lemma {:induction false} SettlesIff(db: Database, id: Id, actual: int)
    ensures Budgets.Settle(db, id, actual).Commit? <==> actual >= 0 && Backed(db, id)
    ensures var tx := Budgets.Settle(db, id, actual);
      tx.Commit? ==>
        && tx.value == Crossed(db, id, actual)
        && tx.db == db.(buckets := Moved(db, id, actual),
                        reservations := RowWith(db, id, if Crossed(db, id, actual) then ReservationState.Uncertain else Settled))
  {
  }

  lemma {:induction false} ReleasesIff(db: Database, id: Id)
    ensures Budgets.Release(db, id).Commit? <==> Backed(db, id)
    ensures var tx := Budgets.Release(db, id);
      tx.Commit? ==> tx.db == db.(buckets := Moved(db, id, 0), reservations := RowWith(db, id, Released))
  {
  }

  lemma HoldsIff(db: Database, id: Id)
    ensures var tx := Budgets.MarkUncertain(db, id);
      && (tx.Commit? <==> id in db.reservations && db.reservations[id].state == ReservationState.Active)
      && (tx.Commit? ==> tx.db == db.(reservations := RowWith(db, id, ReservationState.Uncertain)))
  {
  }

  // ---------- deliveries ----------

  /** Only this delivery and the states of its own routes changed. */
  ghost predicate Turns(db: Database, after: Database, id: Id, row: Delivery, route: RouteState)
    requires id in db.deliveries
  {
    && after == db.(deliveries := db.deliveries[id := row], routes := after.routes)
    && after.routes.Keys == db.routes.Keys
    && forall k :: k in db.routes ==>
         after.routes[k] == if db.routes[k].delivery == Some(id) then Route(route, Some(id)) else db.routes[k]
  }

  predicate HeldBy(db: Database, id: Id, owner: Name) {
    && id in db.deliveries && db.deliveries[id].owner == Some(owner)
    && (db.deliveries[id].state == DeliveryState.Leased || db.deliveries[id].state == DeliveryState.Running)
  }

  /** What its owner may make of a delivery: before it started, anything but a success; once it
      ran, it is never handed out again. */
  predicate Allowed(state: DeliveryState, outcome: Deliveries.Result) {
    if state == DeliveryState.Running then outcome in {Deliveries.Succeed, Deliveries.Bury, Deliveries.Quarantine}
    else outcome in {Deliveries.Retry, Deliveries.Hold, Deliveries.Bury, Deliveries.Quarantine}
  }

  function StateFor(outcome: Deliveries.Result): DeliveryState {
    match outcome
    case Succeed => DeliveryState.Succeeded
    case Retry => RetryWait
    case Hold => BudgetHeld
    case Bury => DeliveryState.DeadLetter
    case Quarantine => DeliveryState.Uncertain
  }

  function RouteFor(outcome: Deliveries.Result): RouteState {
    match outcome
    case Succeed => Delivered
    case Bury => RouteState.DeadLetter
    case Quarantine => ManualReview
    case _ => RouteState.Queued
  }

  /** A budget hold before the start gives the attempt back; nothing else does. */
  lemma {:induction false} FinishesDelivery(db: Database, id: Id, owner: Name, outcome: Deliveries.Result, at: Time)
    ensures var tx := Deliveries.Finish(db, id, owner, outcome, at);
      && (tx.Commit? <==> HeldBy(db, id, owner) && Allowed(db.deliveries[id].state, outcome))
      && (tx.Commit? ==>
            var row := db.deliveries[id];
            var attempt := if outcome == Deliveries.Hold then row.attempt - 1 else row.attempt;
            Turns(db, tx.db, id, Delivery(row.key, row.role, StateFor(outcome), attempt, at, None, None), RouteFor(outcome)))
  {
  }

  /** A delivery is started if and only if the caller's own lease has not ended. */
  lemma {:induction false} StartsIff(db: Database, id: Id, owner: Name, now: Time)
    ensures var tx := Deliveries.Start(db, id, owner, now);
      && (tx.Commit? <==>
            && id in db.deliveries && db.deliveries[id].state == DeliveryState.Leased && db.deliveries[id].owner == Some(owner)
            && db.deliveries[id].leaseUntil.Some? && now < db.deliveries[id].leaseUntil.value)
      && (tx.Commit? ==> tx.db == db.(deliveries := db.deliveries[id := db.deliveries[id].(state := DeliveryState.Running)]))
  {
  }

  lemma {:induction false} ReleasesHold(db: Database, id: Id, at: Time)
    ensures var tx := Deliveries.ReleaseHold(db, id, at);
      && (tx.Commit? <==> id in db.deliveries && db.deliveries[id].state == BudgetHeld)
      && (tx.Commit? ==> Turns(db, tx.db, id, db.deliveries[id].(state := RetryWait, eligibleAt := at), RouteState.Queued))
  {
  }

  lemma {:induction false} QuarantinesIff(db: Database, id: Id)
    ensures var tx := Deliveries.ForceUncertain(db, id);
      && (tx.Commit? <==> id in db.deliveries
                          && (db.deliveries[id].state == DeliveryState.Leased || db.deliveries[id].state == DeliveryState.Running))
      && (tx.Commit? ==> Turns(db, tx.db, id, db.deliveries[id].(state := DeliveryState.Uncertain, owner := None, leaseUntil := None),
                               ManualReview))
  {
  }

  /** An event is decided once: ignored, or given one pending route to its role. */
  lemma {:induction false} RoutesIff(db: Database, event: EventId, role: Option<Name>)
    ensures var tx := Deliveries.FinishRouting(db, event, role);
      && (tx.Commit? <==>
            && event in db.observed && db.observed[event].enrichment == Enrichment.Pending
            && (role.Some? ==> RouteKey(event, role.value) !in db.routes))
      && (tx.Commit? ==>
            tx.db == db.(observed := db.observed[event := ObservedEvent(db.observed[event].facts, if role.Some? then Routed else Ignored)],
                         routes := if role.None? then db.routes
                                   else db.routes[RouteKey(event, role.value) := Route(RouteState.Pending, None)]))
  {
  }

  predicate Waits(db: Database, event: EventId, role: Name) {
    RouteKey(event, role) in db.routes && db.routes[RouteKey(event, role)] == Route(RouteState.Pending, None)
  }

  /** A new key: all of its events wait, unbound, for the role, and are bound to a new queued delivery
      that lists exactly them. */
  lemma {:induction false} EnqueuesIff(db: Database, id: Id, role: Name, events: set<EventId>, key: DeliveryKey, at: Time)
    requires forall d :: d in db.deliveries ==> db.deliveries[d].key != key
    ensures var tx := Deliveries.Enqueue(db, id, role, events, key, at);
      && (tx.Commit? <==>
            role != "" && events != {} && key != Other("") && id !in db.deliveries && forall e :: e in events ==> Waits(db, e, role))
      && (tx.Commit? ==>
            && tx.value == id
            && tx.db == db.(deliveries := tx.db.deliveries, routes := tx.db.routes, members := tx.db.members)
            && tx.db.deliveries == db.deliveries[id := Delivery(key, role, DeliveryState.Queued, 0, at, None, None)]
            && tx.db.routes.Keys == db.routes.Keys
            && (forall k :: k in db.routes ==>
                  tx.db.routes[k] == if k.role == role && k.event in events then Route(RouteState.Queued, Some(id)) else db.routes[k])
            && (forall m :: m in tx.db.members <==> m in db.members || (m.delivery == id && m.role == role && m.event in events)))
  {
    assert Deliveries.WithKey(db.deliveries, key) == {};
  }

  /** A used key: the same role and events get the delivery that has it, and nothing changes. */
  lemma {:induction false} EnqueuesAgain(db: Database, id: Id, role: Name, events: set<EventId>, key: DeliveryKey, at: Time, prior: Id)
    requires prior in db.deliveries && db.deliveries[prior].key == key && Deliveries.WithKey(db.deliveries, key) == {prior}
    requires role != "" && events != {} && key != Other("")
    ensures var tx := Deliveries.Enqueue(db, id, role, events, key, at);
      && (tx.Commit? <==>
            && db.deliveries[prior].role == role
            && (forall e :: e in events <==> exists m :: m in db.members && m.delivery == prior && m.event == e))
      && (tx.Commit? ==> tx.db == db && tx.value == prior)
  {
    forall e ensures e in Deliveries.EventsOf(db, prior) <==> exists m :: m in db.members && m.delivery == prior && m.event == e {
    }
  }

  // ---------- wakes and processes ----------

  /** A wake is recorded, as prepared, if and only if it has a reason and an absolute socket path,
      its session, reservation and delivery exist, and no wake has its number, session, reservation or
      socket. */
  lemma {:induction false} PreparesIff(db: Database, w: Id, sid: Id, delivery: Option<Id>, reservation: Id, socket: string, reason: string)
    ensures var tx := Wakes.Prepare(db, w, sid, delivery, reservation, socket, reason);
      && (tx.Commit? <==>
            && reason != "" && socket != "" && socket[0] == '/'
            && sid in db.sessions && reservation in db.reservations && (delivery.Some? ==> delivery.value in db.deliveries)
            && w !in db.wakes
            && forall v :: v in db.wakes ==>
                 db.wakes[v].session != sid && db.wakes[v].reservation != reservation && db.wakes[v].socket != socket)
      && (tx.Commit? ==> tx.db == db.(wakes := db.wakes[w := Wake(sid, delivery, reservation, socket, WakeState.Prepared)]))
  {
  }

  predicate Lives(db: Database, w: Id) {
    w in db.wakes && (db.wakes[w].state == WakeState.Prepared || db.wakes[w].state == WakeState.Running)
  }

  /** Only a prepared wake starts, and only a live one ends, in a final state. */
  lemma {:induction false} WakesMoveIff(db: Database, w: Id, state: WakeState)
    ensures var tx := Wakes.MarkRunning(db, w);
      && (tx.Commit? <==> w in db.wakes && db.wakes[w].state == WakeState.Prepared)
      && (tx.Commit? ==> tx.db == db.(wakes := db.wakes[w := db.wakes[w].(state := WakeState.Running)]))
    ensures var tx := Wakes.Finish(db, w, state);
      && (tx.Commit? <==> Lives(db, w) && state in {WakeState.Succeeded, WakeState.Failed, WakeState.Uncertain, WakeState.Terminated})
      && (tx.Commit? ==> tx.db == db.(wakes := db.wakes[w := db.wakes[w].(state := state)]))
  {
  }

  /** A process is recorded, as running, under a fresh key and a fresh pair of number and birth. */
  lemma {:induction false} RecordsIff(db: Database, key: ProcessKey, sid: Id, pid: int, pgid: int, birth: string)
    ensures var tx := Wakes.Record(db, key, sid, pid, pgid, birth);
      && (tx.Commit? <==>
            && pid > 0 && pgid > 0 && birth != "" && key !in db.processes
            && sid in db.sessions && (key.WorkerOf? ==> key.attempt in db.workers)
            && forall p :: p in db.processes ==> !(db.processes[p].pid == pid && db.processes[p].birth == birth))
      && (tx.Commit? ==> tx.db == db.(processes := db.processes[key := Process(sid, pid, birth, ProcessState.Running)]))
  {
  }

  /** Only a running one ends, and not as running. */
  lemma {:induction false} ProcessesEndIff(db: Database, key: ProcessKey, state: ProcessState)
    ensures var tx := Wakes.EndProcess(db, key, state);
      && (tx.Commit? <==> state != ProcessState.Running && key in db.processes && db.processes[key].state == ProcessState.Running)
      && (tx.Commit? ==> tx.db == db.(processes := db.processes[key := db.processes[key].(state := state)]))
  {
  }

  // ---------- observation ----------

  /** A source gets its checkpoint once, and keeps the one it has. */
  lemma OpensOnce(db: Database, source: Name, initial: Time)
    ensures var after := Feeds.Opened(db, source, initial);
      && after == db.(checkpoints := after.checkpoints) && after.checkpoints.Keys == db.checkpoints.Keys + {source}
      && (forall s :: s in db.checkpoints ==> after.checkpoints[s] == db.checkpoints[s])
      && (source !in db.checkpoints ==> after.checkpoints[source] == Checkpoint(initial, 300, None))
  {
  }

  lemma BeginsIff(db: Database, id: Id, source: Name)
    ensures var tx := Feeds.Begin(db, id, source);
      && (tx.Commit? <==> id !in db.snapshots)
      && (tx.Commit? ==> tx.value == id && tx.db == db.(snapshots := db.snapshots[id := Snapshot(source, Collecting)]))
  {
  }

  /** An observation goes into a collecting snapshot of its own source, under the id of its source,
      external id and version; the first one under an id stays. */
  lemma {:induction false} StagesIff(db: Database, id: Id, seen: Observation)
    ensures var tx, key := Feeds.Stage(db, id, seen), StagedKey(id, seen.source + ":" + (seen.external + ":" + seen.version));
      && (tx.Commit? <==> id in db.snapshots && db.snapshots[id] == Snapshot(seen.source, Collecting))
      && (tx.Commit? ==>
            && (tx.value <==> key !in db.staged)
            && tx.db == db.(staged := if key in db.staged then db.staged else db.staged[key := seen]))
  {
    if id in db.snapshots {
      assert db.snapshots[id] == Snapshot(db.snapshots[id].source, db.snapshots[id].state);
    }
  }

  /** Published are the events staged in this snapshot that were never observed, to be routed; no
      other event changes. */
  ghost predicate Publishes(db: Database, after: map<EventId, ObservedEvent>, id: Id) {
    && (forall e :: e in after <==> e in db.observed || StagedKey(id, e) in db.staged)
    && forall e :: e in after ==>
         after[e] == if e in db.observed then db.observed[e] else ObservedEvent(db.staged[StagedKey(id, e)], Enrichment.Pending)
  }

  lemma PublishedIs(db: Database, id: Id)
    ensures Publishes(db, Feeds.Published(db, id), id)
  {
    forall e | StagedKey(id, e) in db.staged && e !in db.observed ensures e in Feeds.Unpublished(db, id) {
    }
  }

  /** Only a collecting snapshot ends. A complete one needs a watermark and a checkpoint, which takes
      the watermark whatever it was; an incomplete one publishes nothing. */
  lemma {:induction false} PublishesIff(db: Database, id: Id, complete: bool, watermark: Option<Time>)
    ensures var tx := Feeds.Finish(db, id, complete, watermark);
      && (tx.Commit? <==>
            && id in db.snapshots && db.snapshots[id].state == Collecting
            && (complete ==> watermark.Some? && db.snapshots[id].source in db.checkpoints))
      && (tx.Commit? && !complete ==>
            tx.value == 0 && tx.db == db.(snapshots := db.snapshots[id := Snapshot(db.snapshots[id].source, Incomplete)]))
      && (tx.Commit? && complete ==>
            var source := db.snapshots[id].source;
            && tx.db == db.(snapshots := db.snapshots[id := Snapshot(source, Complete)],
                            checkpoints := db.checkpoints[source := Checkpoint(watermark.value, db.checkpoints[source].overlap, Some(id))],
                            observed := tx.db.observed)
            && Publishes(db, tx.db.observed, id)
            && tx.value == |set e | e in tx.db.observed && e !in db.observed|)
  {
    PublishedIs(db, id);
    assert Feeds.Unpublished(db, id) == set e | e in Feeds.Published(db, id) && e !in db.observed;
  }

  // ---------- the request journal ----------

  /** The same request of the same session. */
  predicate Repeats(db: Database, key: Text, sid: Id, operation: Verb, arguments: Text) {
    && key in db.requests && db.requests[key].session == sid
    && db.requests[key].operation == operation && db.requests[key].arguments == arguments
  }

  /** A fresh key is journalled as reserved; a repeated request gets the journalled response, or
      hears that there is none yet; any other use of the key is refused. */
  lemma {:induction false} RequestsIff(db: Database, sid: Id, key: Text, operation: Verb, arguments: Text)
    ensures var tx := Journals.Reserve(db, sid, key, operation, arguments);
      && (tx.Commit? <==> if key in db.requests then Repeats(db, key, sid, operation, arguments) else sid in db.sessions)
      && (tx.Commit? && key in db.requests ==>
            tx.db == db && tx.value == Some(if db.requests[key].response.Some? then db.requests[key].response.value else Indeterminate))
      && (tx.Commit? && key !in db.requests ==>
            && tx.value == None
            && tx.db == db.(requests := db.requests[key := Request(sid, operation, arguments, RequestState.Reserved, None)]))
    ensures var prior := Journals.Prior(db, sid, key, operation, arguments);
      && (prior.Ok? <==> (key in db.requests ==> Repeats(db, key, sid, operation, arguments)))
      && (prior.Ok? ==>
            prior.value == if key !in db.requests then None
                           else Some(if db.requests[key].response.Some? then db.requests[key].response.value else Indeterminate))
  {
  }

  function Row(db: Database, key: Text, state: RequestState, response: Option<Response>): map<Text, Request>
    requires key in db.requests
  {
    var row := db.requests[key];
    db.requests[key := Request(row.session, row.operation, row.arguments, state, response)]
  }

  /** Only a reserved request starts applying, and it keeps what it has. */
  lemma AppliesIff(db: Database, key: Text)
    ensures var tx := Journals.MarkApplying(db, key);
      && (tx.Commit? <==> key in db.requests && db.requests[key].state == RequestState.Reserved)
      && (tx.Commit? ==> tx.db == db.(requests := Row(db, key, RequestState.Applying, db.requests[key].response)))
  {
  }

  /** Any journalled request takes a final or pending answer, over whatever it has. */
  lemma AnswersIff(db: Database, key: Text, state: RequestState, response: Response)
    ensures var tx := Journals.Finish(db, key, state, response);
      && (tx.Commit? <==> state == RequestState.VerifyPending || state == RequestState.Succeeded || state == RequestState.Failed)
      && (tx.Commit? ==> tx.db == if key in db.requests then db.(requests := Row(db, key, state, Some(response))) else db)
  {
  }

  /** Only a read is ever forgotten. */
  lemma ForgetsReads(db: Database, key: Text)
    ensures var tx := Journals.AbandonRead(db, key);
      && tx.Commit?
      && tx.db == if key in db.requests && db.requests[key].operation.Read? then db.(requests := db.requests - {key}) else db
  {
  }

  // ---------- the reconciliation journal ----------

  /** A fresh key is journalled as planned; a used one gives its row back, to the same plan only. */
  lemma {:induction false} PlansIff(db: Database, id: Id, key: OperationKey, source: SourceKey, kind: OperationKind,
                                    precondition: Precondition)
    ensures (forall o :: o in db.operations ==> db.operations[o].key != key) ==>
      var tx := Journals.ReserveOperation(db, id, key, source, kind, precondition);
      && (tx.Commit? <==> id !in db.operations)
      && (tx.Commit? ==>
            tx.value == id
            && tx.db == db.(operations := db.operations[id := Operation(key, source, kind, precondition, OperationState.Planned)]))
    ensures forall prior :: Journals.WithKey(db.operations, key) == {prior} ==>
      var tx := Journals.ReserveOperation(db, id, key, source, kind, precondition);
      && (tx.Commit? <==>
            && db.operations[prior].source == source && db.operations[prior].kind == kind
            && db.operations[prior].precondition == precondition)
      && (tx.Commit? ==> tx.db == db && tx.value == prior)
  {
    if forall o :: o in db.operations ==> db.operations[o].key != key {
      assert Journals.WithKey(db.operations, key) == {};
    }
  }

  /** Planned becomes applying; applying becomes pending, succeeded or dead; pending becomes one of
      the last two; and nothing else moves. */
  lemma {:induction false} OperationsMoveIff(db: Database, id: Id, state: OperationState)
    ensures var tx := Journals.MarkOperation(db, id);
      && (tx.Commit? <==> id in db.operations && db.operations[id].state == OperationState.Planned)
      && (tx.Commit? ==> tx.db == db.(operations := db.operations[id := db.operations[id].(state := OperationState.Applying)]))
    ensures var tx := Journals.FinishOperation(db, id, state);
      && (tx.Commit? <==>
            && id in db.operations
            && (|| (db.operations[id].state == OperationState.Applying
                    && state in {OperationState.VerifyPending, OperationState.Succeeded, OperationState.DeadLetter})
                || (db.operations[id].state == OperationState.VerifyPending
                    && state in {OperationState.Succeeded, OperationState.DeadLetter})))
      && (tx.Commit? ==> tx.db == db.(operations := db.operations[id := db.operations[id].(state := state)]))
  {
  }
}
