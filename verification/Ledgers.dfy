/** Every store transaction keeps the double-entry ledger. */
module Ledgers {
  import opened Tables
  import opened Sums
  import opened Sessions
  import opened Budgets

  /** Only reservation `id` differs between the two ledgers. */
  ghost predicate DiffersAt(db: Database, actuals: Actuals, after: Database, settled: Actuals, id: Id) {
    && SameOwners(db, after)
    && (forall r :: r in db.reservations ==> db.reservations[r].session in db.sessions)
    && id in after.reservations
    && after.reservations == db.reservations[id := after.reservations[id]]
    && (forall r :: r != id ==> (r in actuals <==> r in settled))
    && (forall r :: r != id && r in actuals && r in settled ==> actuals[r] == settled[r])
  }

  lemma {:induction false} PartsMove(db: Database, actuals: Actuals, after: Database, settled: Actuals, column: Column,
                                     id: Id, key: BucketKey)
    requires DiffersAt(db, actuals, after, settled, id)
    ensures Parts(after, settled, column, key) == Parts(db, actuals, column, key)[id := Part(after, settled, column, id, key)]
  {
  }

  /** One changed reservation moves each total by the change of its own part. */
  lemma {:induction false} TotalMoves(db: Database, actuals: Actuals, after: Database, settled: Actuals, column: Column,
                                      id: Id, key: BucketKey)
    requires DiffersAt(db, actuals, after, settled, id)
    ensures Total(after, settled, column, key)
         == Total(db, actuals, column, key) - Part(db, actuals, column, id, key) + Part(after, settled, column, id, key)
  {
    var moved := Part(after, settled, column, id, key);
    PartsMove(db, actuals, after, settled, column, id, key);
    SumPut(Parts(db, actuals, column, key), id, moved);
  }

  lemma HoldKeepsPart(db: Database, actuals: Actuals, after: Database, column: Column, r: Id, key: BucketKey)
    requires Rows(db, actuals) && OnlyHolds(db, after) && r in db.reservations
    ensures Part(after, actuals, column, r, key) == Part(db, actuals, column, r, key)
  {
  }

  lemma SamePartsSameTotal(db: Database, actuals: Actuals, after: Database, column: Column, key: BucketKey)
    requires after.reservations.Keys == db.reservations.Keys
    requires forall r :: r in db.reservations ==> Part(after, actuals, column, r, key) == Part(db, actuals, column, r, key)
    ensures Total(after, actuals, column, key) == Total(db, actuals, column, key)
  {
    assert Parts(after, actuals, column, key) == Parts(db, actuals, column, key);
  }

  lemma {:induction false} HoldKeepsTotal(db: Database, actuals: Actuals, after: Database, column: Column, key: BucketKey)
    requires Rows(db, actuals) && OnlyHolds(db, after)
    ensures Total(after, actuals, column, key) == Total(db, actuals, column, key)
  {
    forall r | r in db.reservations
      ensures Part(after, actuals, column, r, key) == Part(db, actuals, column, r, key)
    {
      HoldKeepsPart(db, actuals, after, column, r, key);
    }
    SamePartsSameTotal(db, actuals, after, column, key);
  }

  lemma HoldKeepsRows(db: Database, actuals: Actuals, after: Database)
    requires Rows(db, actuals) && OnlyHolds(db, after)
    ensures Rows(after, actuals)
  {
  }

  /** Turning active reservations into held ones keeps every total: unknown usage is never
      freed. The case where no row changes is the frame of every other transaction. */
  lemma {:induction false} HoldKeepsLedger(db: Database, actuals: Actuals, after: Database)
    requires Ledger(db, actuals) && OnlyHolds(db, after)
    ensures Ledger(after, actuals)
  {
    HoldKeepsRows(db, actuals, after);
    forall column: Column, key: BucketKey
      ensures Total(after, actuals, column, key) == Total(db, actuals, column, key)
    {
      HoldKeepsTotal(db, actuals, after, column, key);
    }
  }

  lemma {:induction false} OverageNonNegative(db: Database, actuals: Actuals, key: BucketKey)
    ensures 0 <= Total(db, actuals, Overage, key)
  {
    SumNonNegative(Parts(db, actuals, Overage, key));
  }

  /** Whoever holds tokens in a bucket is covered by its reserved column. */
  lemma {:induction false} HolderIsCovered(db: Database, actuals: Actuals, r: Id, key: BucketKey)
    requires Rows(db, actuals) && Balanced(db, actuals)
    requires r in db.reservations && Draws(db.sessions, db.reservations[r], key)
    requires Holds(db.reservations[r], r in actuals)
    ensures Covers(db.buckets, key, db.reservations[r].tokens)
  {
    SumAtLeast(Parts(db, actuals, Held, key), r);
    assert BucketAt(db.buckets, key).reserved == Total(db, actuals, Held, key);
  }

  /** The bucket's columns moved by exactly what the row and its settlement moved. */
  ghost predicate MovesAt(db: Database, actuals: Actuals, after: Database, settled: Actuals, id: Id, key: BucketKey) {
    && BucketAt(after.buckets, key).reserved - BucketAt(db.buckets, key).reserved
       == Part(after, settled, Held, id, key) - Part(db, actuals, Held, id, key)
    && BucketAt(after.buckets, key).consumed - BucketAt(db.buckets, key).consumed
       == Part(after, settled, Spent, id, key) - Part(db, actuals, Spent, id, key)
  }

  /** The bucket is within its limit, or its total grew no more than its overage did. */
  ghost predicate LimitedAt(db: Database, actuals: Actuals, after: Database, settled: Actuals, id: Id, key: BucketKey)
    requires key in after.buckets
  {
    || after.buckets[key].consumed + after.buckets[key].reserved <= after.buckets[key].limit
    || (&& key in db.buckets && after.buckets[key].limit == db.buckets[key].limit
        && after.buckets[key].consumed + after.buckets[key].reserved - db.buckets[key].consumed - db.buckets[key].reserved
           <= Part(after, settled, Overage, id, key) - Part(db, actuals, Overage, id, key))
  }

  ghost predicate MovesTogether(db: Database, actuals: Actuals, after: Database, settled: Actuals, id: Id) {
    && (forall key: BucketKey :: MovesAt(db, actuals, after, settled, id, key))
    && (forall key :: key in after.buckets ==> LimitedAt(db, actuals, after, settled, id, key))
  }

  lemma MovesKeepBalanceAt(db: Database, actuals: Actuals, after: Database, settled: Actuals, id: Id, key: BucketKey)
    requires DiffersAt(db, actuals, after, settled, id) && MovesAt(db, actuals, after, settled, id, key)
    requires BucketAt(db.buckets, key).reserved == Total(db, actuals, Held, key)
    requires BucketAt(db.buckets, key).consumed == Total(db, actuals, Spent, key)
    ensures BucketAt(after.buckets, key).reserved == Total(after, settled, Held, key)
    ensures BucketAt(after.buckets, key).consumed == Total(after, settled, Spent, key)
  {
    TotalMoves(db, actuals, after, settled, Held, id, key);
    TotalMoves(db, actuals, after, settled, Spent, id, key);
  }

  lemma MovesKeepLimitAt(db: Database, actuals: Actuals, after: Database, settled: Actuals, id: Id, key: BucketKey)
    requires DiffersAt(db, actuals, after, settled, id) && key in after.buckets && LimitedAt(db, actuals, after, settled, id, key)
    requires key in db.buckets ==>
      db.buckets[key].consumed + db.buckets[key].reserved <= db.buckets[key].limit + Total(db, actuals, Overage, key)
    ensures after.buckets[key].consumed + after.buckets[key].reserved
         <= after.buckets[key].limit + Total(after, settled, Overage, key)
  {
    TotalMoves(db, actuals, after, settled, Overage, id, key);
    OverageNonNegative(after, settled, key);
  }

  lemma {:induction false} MovesKeepLedger(db: Database, actuals: Actuals, after: Database, settled: Actuals, id: Id)
    requires Ledger(db, actuals) && DiffersAt(db, actuals, after, settled, id) && Rows(after, settled)
    requires MovesTogether(db, actuals, after, settled, id)
    ensures Ledger(after, settled)
  {
    forall key: BucketKey
      ensures BucketAt(after.buckets, key).reserved == Total(after, settled, Held, key)
      ensures BucketAt(after.buckets, key).consumed == Total(after, settled, Spent, key)
    {
      MovesKeepBalanceAt(db, actuals, after, settled, id, key);
    }
    forall key | key in after.buckets
      ensures after.buckets[key].consumed + after.buckets[key].reserved
           <= after.buckets[key].limit + Total(after, settled, Overage, key)
    {
      MovesKeepLimitAt(db, actuals, after, settled, id, key);
    }
  }

  // ---------- reservation ----------

  lemma AsksAreTheTwoBuckets(s: Session, epoch: Name, asks: seq<Ask>)
    requires AsksMatch(s, asks)
    ensures {BucketKey(asks[0].scope, asks[0].subject, epoch), BucketKey(asks[1].scope, asks[1].subject, epoch)}
         == {KeyOf(s, OrgScope, epoch), KeyOf(s, RoleScope, epoch)}
    ensures BucketKey(asks[0].scope, asks[0].subject, epoch) != BucketKey(asks[1].scope, asks[1].subject, epoch)
  {
  }

  /** What the two passes leave: both buckets carry the request and stay within their limits;
      every other bucket keeps its columns. */
  lemma {:induction false} ReservedBuckets(buckets: map<BucketKey, Bucket>, epoch: Name, requested: int, asks: seq<Ask>,
                                           a: BucketKey, b: BucketKey)
    requires |asks| == 2 && a != b
    requires a == BucketKey(asks[0].scope, asks[0].subject, epoch) && b == BucketKey(asks[1].scope, asks[1].subject, epoch)
    requires Opened(buckets, epoch, requested, asks).Ok?
    ensures var after := Charged(Opened(buckets, epoch, requested, asks).value, epoch, requested, asks);
      && (forall key :: key in after <==> key in buckets || key == a || key == b)
      && (forall key: BucketKey :: key != a && key != b ==> BucketAt(after, key) == BucketAt(buckets, key))
      && (forall key :: key in {a, b} ==>
            && BucketAt(after, key).reserved == BucketAt(buckets, key).reserved + requested
            && BucketAt(after, key).consumed == BucketAt(buckets, key).consumed
            && BucketAt(after, key).consumed + BucketAt(after, key).reserved <= BucketAt(after, key).limit)
      && (forall key :: key in buckets ==> after[key].limit == buckets[key].limit)
  {
    var one := asks[1..];
    assert one[0] == asks[1] && one[1..] == [];
    var current := if a in buckets then buckets else buckets[a := Bucket(asks[0].limit, 0, 0)];
    var both := if b in current then current else current[b := Bucket(asks[1].limit, 0, 0)];
    assert Opened(buckets, epoch, requested, asks) == Opened(current, epoch, requested, one) == Opened(both, epoch, requested, []);
    assert Charged(both, epoch, requested, asks) == Charged(Post(both, a, requested, 0), epoch, requested, one)
        == Charged(Post(Post(both, a, requested, 0), b, requested, 0), epoch, requested, []);
  }

  lemma ReserveRows(db: Database, actuals: Actuals, id: Id, sid: Id, now: Time, epoch: Name, requested: int, asks: seq<Ask>)
    requires Rows(db, actuals) && Reserve(db, id, sid, now, epoch, requested, asks).Commit?
    ensures var after := Reserve(db, id, sid, now, epoch, requested, asks).db;
      Rows(after, actuals) && DiffersAt(db, actuals, after, actuals, id)
  {
  }

  /** The request enters the reserved column of exactly the two buckets it names. */
  lemma RequestMovesAt(db: Database, actuals: Actuals, after: Database, id: Id, a: BucketKey, b: BucketKey, key: BucketKey)
    requires id !in db.reservations && id in after.reservations && id !in actuals && after.reservations[id].state.Active?
    requires Draws(after.sessions, after.reservations[id], key) <==> key in {a, b}
    requires BucketAt(after.buckets, key).consumed == BucketAt(db.buckets, key).consumed
    requires BucketAt(after.buckets, key).reserved - BucketAt(db.buckets, key).reserved
      == if key in {a, b} then after.reservations[id].tokens else 0
    requires key in after.buckets ==>
      || after.buckets[key].consumed + after.buckets[key].reserved <= after.buckets[key].limit
      || (key in db.buckets && key !in {a, b} && after.buckets[key].limit == db.buckets[key].limit)
    ensures MovesAt(db, actuals, after, actuals, id, key)
    ensures key in after.buckets ==> LimitedAt(db, actuals, after, actuals, id, key)
  {
  }

  lemma {:induction false} ReserveMoves(db: Database, actuals: Actuals, id: Id, sid: Id, now: Time, epoch: Name,
                                        requested: int, asks: seq<Ask>)
    requires id !in actuals && Reserve(db, id, sid, now, epoch, requested, asks).Commit?
    ensures MovesTogether(db, actuals, Reserve(db, id, sid, now, epoch, requested, asks).db, actuals, id)
  {
    var after := Reserve(db, id, sid, now, epoch, requested, asks).db;
    var s := db.sessions[sid];
    var a := BucketKey(asks[0].scope, asks[0].subject, epoch);
    var b := BucketKey(asks[1].scope, asks[1].subject, epoch);
    AsksAreTheTwoBuckets(s, epoch, asks);
    ReservedBuckets(db.buckets, epoch, requested, asks, a, b);
    forall key: BucketKey
      ensures MovesAt(db, actuals, after, actuals, id, key)
      ensures key in after.buckets ==> LimitedAt(db, actuals, after, actuals, id, key)
    {
      assert key in {a, b} <==> key in {KeyOf(s, OrgScope, epoch), KeyOf(s, RoleScope, epoch)};
      assert Draws(after.sessions, after.reservations[id], key) <==> key in {a, b};
      RequestMovesAt(db, actuals, after, id, a, b, key);
    }
  }

  lemma {:induction false} ReserveKeepsLedger(db: Database, actuals: Actuals, id: Id, sid: Id, now: Time, epoch: Name,
                                              requested: int, asks: seq<Ask>)
    requires Ledger(db, actuals) && Reserve(db, id, sid, now, epoch, requested, asks).Commit?
    ensures Ledger(Reserve(db, id, sid, now, epoch, requested, asks).db, actuals)
  {
    ReserveRows(db, actuals, id, sid, now, epoch, requested, asks);
    ReserveMoves(db, actuals, id, sid, now, epoch, requested, asks);
    MovesKeepLedger(db, actuals, Reserve(db, id, sid, now, epoch, requested, asks).db, actuals, id);
  }

  // ---------- settlement and release ----------

  /** An active reservation leaves the reserved columns of its two buckets, and `consumed`
      tokens enter their consumed columns exactly when its settlement is recorded. */
  lemma {:induction false} ClosingMoves(db: Database, actuals: Actuals, after: Database, settled: Actuals, id: Id,
                                        consumed: nat, a: BucketKey, b: BucketKey)
    requires DiffersAt(db, actuals, after, settled, id) && id !in actuals
    requires id in db.reservations && db.reservations[id].state.Active? && db.reservations[id].session in db.sessions
    requires db.reservations[id].tokens > 0
    requires a == KeyOf(db.sessions[db.reservations[id].session], OrgScope, db.reservations[id].epoch)
    requires b == KeyOf(db.sessions[db.reservations[id].session], RoleScope, db.reservations[id].epoch)
    requires a in db.buckets && b in db.buckets
    requires after.buckets == Post(Post(db.buckets, a, -db.reservations[id].tokens, consumed), b, -db.reservations[id].tokens, consumed)
    requires after.sessions == db.sessions
    requires after.reservations[id] == db.reservations[id].(state := after.reservations[id].state)
    requires !Holds(after.reservations[id], id in settled)
    requires if id in settled then settled[id] == consumed else consumed == 0
    ensures MovesTogether(db, actuals, after, settled, id)
  {
  }

  lemma SettleRows(db: Database, actuals: Actuals, id: Id, actual: int)
    requires Rows(db, actuals) && Settle(db, id, actual).Commit?
    ensures var after, settled := Settle(db, id, actual).db, actuals[id := actual];
      Rows(after, settled) && DiffersAt(db, actuals, after, settled, id)
  {
  }

  lemma {:induction false} SettleMoves(db: Database, actuals: Actuals, id: Id, actual: int)
    requires Rows(db, actuals) && Settle(db, id, actual).Commit?
    ensures MovesTogether(db, actuals, Settle(db, id, actual).db, actuals[id := actual], id)
  {
    SettleRows(db, actuals, id, actual);
    var after, row := Settle(db, id, actual).db, db.reservations[id];
    var a := KeyOf(db.sessions[row.session], OrgScope, row.epoch);
    var b := KeyOf(db.sessions[row.session], RoleScope, row.epoch);
    ClosingMoves(db, actuals, after, actuals[id := actual], id, actual, a, b);
  }

  lemma {:induction false} SettleKeepsLedger(db: Database, actuals: Actuals, id: Id, actual: int)
    requires Ledger(db, actuals) && Settle(db, id, actual).Commit?
    ensures Ledger(Settle(db, id, actual).db, actuals[id := actual])
  {
    SettleRows(db, actuals, id, actual);
    SettleMoves(db, actuals, id, actual);
    MovesKeepLedger(db, actuals, Settle(db, id, actual).db, actuals[id := actual], id);
  }

  lemma {:induction false} ReleaseMoves(db: Database, actuals: Actuals, id: Id)
    requires Rows(db, actuals) && Release(db, id).Commit?
    ensures var after := Release(db, id).db;
      Rows(after, actuals) && DiffersAt(db, actuals, after, actuals, id) && MovesTogether(db, actuals, after, actuals, id)
  {
    var after, row := Release(db, id).db, db.reservations[id];
    var a := KeyOf(db.sessions[row.session], OrgScope, row.epoch);
    var b := KeyOf(db.sessions[row.session], RoleScope, row.epoch);
    ClosingMoves(db, actuals, after, actuals, id, 0, a, b);
  }

  lemma {:induction false} ReleaseKeepsLedger(db: Database, actuals: Actuals, id: Id)
    requires Ledger(db, actuals) && Release(db, id).Commit?
    ensures Ledger(Release(db, id).db, actuals)
  {
    ReleaseMoves(db, actuals, id);
    MovesKeepLedger(db, actuals, Release(db, id).db, actuals, id);
  }

  lemma {:induction false} MarkKeepsLedger(db: Database, actuals: Actuals, id: Id)
    requires Ledger(db, actuals) && MarkUncertain(db, id).Commit?
    ensures Ledger(MarkUncertain(db, id).db, actuals)
  {
    HoldKeepsLedger(db, actuals, MarkUncertain(db, id).db);
  }

  // ---------- consequences ----------

  /** The guard `budget bucket does not cover the reservation` is dead code: settling or
      releasing an active reservation always commits. */
  lemma {:induction false} CoverGuardsUnreachable(db: Database, actuals: Actuals, id: Id, actual: nat)
    requires Ledger(db, actuals) && id in db.reservations && db.reservations[id].state.Active?
    ensures Settle(db, id, actual).Commit? && Release(db, id).Commit?
  {
    var row := db.reservations[id];
    HolderIsCovered(db, actuals, id, KeyOf(db.sessions[row.session], OrgScope, row.epoch));
    HolderIsCovered(db, actuals, id, KeyOf(db.sessions[row.session], RoleScope, row.epoch));
  }

  /** A settlement within its reservation, on buckets no earlier settlement overran, is never
      turned uncertain. */
  lemma {:induction false} HonestSettlementIsCertain(db: Database, actuals: Actuals, id: Id, actual: nat)
    requires Ledger(db, actuals) && id in db.reservations && db.reservations[id].state.Active?
    requires actual <= db.reservations[id].tokens
    requires forall scope :: Total(db, actuals, Overage,
      KeyOf(db.sessions[db.reservations[id].session], scope, db.reservations[id].epoch)) == 0
    ensures Settle(db, id, actual).Commit? && !Settle(db, id, actual).value
    ensures Settle(db, id, actual).db.reservations[id].state == Settled
  {
    var row := db.reservations[id];
    CoverGuardsUnreachable(db, actuals, id, actual);
    forall scope
      ensures !Overruns(db.buckets, KeyOf(db.sessions[row.session], scope, row.epoch), actual)
    {
      HolderIsCovered(db, actuals, id, KeyOf(db.sessions[row.session], scope, row.epoch));
    }
  }

  // ---------- organization and role totals ----------

  /** The reserved or consumed tokens of all buckets of one scope in one epoch. */
  ghost function EpochTotal(buckets: map<BucketKey, Bucket>, scope: Scope, epoch: Name, consumed: bool): int {
    Sum(EpochColumn(buckets, scope, epoch, consumed))
  }

  function Entry(key: BucketKey, row: Bucket, scope: Scope, epoch: Name, consumed: bool): int {
    if key.scope != scope || key.epoch != epoch then 0 else if consumed then row.consumed else row.reserved
  }

  ghost function EpochColumn(buckets: map<BucketKey, Bucket>, scope: Scope, epoch: Name, consumed: bool): map<BucketKey, int> {
    map key | key in buckets :: Entry(key, buckets[key], scope, epoch, consumed)
  }

  /** Every token is booked once under the organization and once under a role. */
  ghost predicate DoubleEntry(buckets: map<BucketKey, Bucket>) {
    forall epoch, consumed :: EpochTotal(buckets, OrgScope, epoch, consumed) == EpochTotal(buckets, RoleScope, epoch, consumed)
  }

  lemma {:induction false} PutMovesEpoch(buckets: map<BucketKey, Bucket>, key: BucketKey, row: Bucket, scope: Scope, epoch: Name,
                                         consumed: bool)
    ensures EpochTotal(buckets[key := row], scope, epoch, consumed)
         == EpochTotal(buckets, scope, epoch, consumed)
            + Entry(key, row, scope, epoch, consumed) - Entry(key, BucketAt(buckets, key), scope, epoch, consumed)
  {
    SumPut(EpochColumn(buckets, scope, epoch, consumed), key, Entry(key, row, scope, epoch, consumed));
    assert EpochColumn(buckets, scope, epoch, consumed)[key := Entry(key, row, scope, epoch, consumed)]
        == EpochColumn(buckets[key := row], scope, epoch, consumed);
  }

  lemma {:induction false} PairKeepsDoubleEntry(buckets: map<BucketKey, Bucket>, a: BucketKey, b: BucketKey, reserved: int,
                                                consumed: int)
    requires DoubleEntry(buckets) && a in buckets && b in buckets && a.scope != b.scope && a.epoch == b.epoch
    ensures DoubleEntry(Post(Post(buckets, a, reserved, consumed), b, reserved, consumed))
  {
    var first := Post(buckets, a, reserved, consumed);
    var second := Post(first, b, reserved, consumed);
    forall epoch, column: bool
      ensures EpochTotal(second, OrgScope, epoch, column) == EpochTotal(second, RoleScope, epoch, column)
    {
      PutMovesEpoch(buckets, a, first[a], OrgScope, epoch, column);
      PutMovesEpoch(first, b, second[b], OrgScope, epoch, column);
      PutMovesEpoch(buckets, a, first[a], RoleScope, epoch, column);
      PutMovesEpoch(first, b, second[b], RoleScope, epoch, column);
    }
  }

  lemma {:induction false} OpeningKeepsDoubleEntry(buckets: map<BucketKey, Bucket>, key: BucketKey, limit: int)
    requires DoubleEntry(buckets)
    ensures DoubleEntry(if key in buckets then buckets else buckets[key := Bucket(limit, 0, 0)])
  {
    if key !in buckets {
      var put := buckets[key := Bucket(limit, 0, 0)];
      forall epoch, column: bool
        ensures EpochTotal(put, OrgScope, epoch, column) == EpochTotal(put, RoleScope, epoch, column)
      {
        PutMovesEpoch(buckets, key, Bucket(limit, 0, 0), OrgScope, epoch, column);
        PutMovesEpoch(buckets, key, Bucket(limit, 0, 0), RoleScope, epoch, column);
      }
    }
  }

  lemma {:induction false} ReserveKeepsDoubleEntry(db: Database, id: Id, sid: Id, now: Time, epoch: Name, requested: int, asks: seq<Ask>)
    requires DoubleEntry(db.buckets) && Reserve(db, id, sid, now, epoch, requested, asks).Commit?
    ensures DoubleEntry(Reserve(db, id, sid, now, epoch, requested, asks).db.buckets)
  {
    var a := BucketKey(asks[0].scope, asks[0].subject, epoch);
    var b := BucketKey(asks[1].scope, asks[1].subject, epoch);
    AsksAreTheTwoBuckets(db.sessions[sid], epoch, asks);
    var one := asks[1..];
    assert one[0] == asks[1] && one[1..] == [];
    var current := if a in db.buckets then db.buckets else db.buckets[a := Bucket(asks[0].limit, 0, 0)];
    var both := if b in current then current else current[b := Bucket(asks[1].limit, 0, 0)];
    assert Opened(db.buckets, epoch, requested, asks) == Opened(current, epoch, requested, one) == Opened(both, epoch, requested, []);
    assert Charged(both, epoch, requested, asks) == Charged(Post(both, a, requested, 0), epoch, requested, one)
        == Charged(Post(Post(both, a, requested, 0), b, requested, 0), epoch, requested, []);
    OpeningKeepsDoubleEntry(db.buckets, a, asks[0].limit);
    OpeningKeepsDoubleEntry(current, b, asks[1].limit);
    assert {a, b} == {KeyOf(db.sessions[sid], OrgScope, epoch), KeyOf(db.sessions[sid], RoleScope, epoch)};
    PairKeepsDoubleEntry(both, a, b, requested, 0);
  }

  lemma {:induction false} SettleKeepsDoubleEntry(db: Database, id: Id, actual: int)
    requires DoubleEntry(db.buckets) && Settle(db, id, actual).Commit?
    ensures DoubleEntry(Settle(db, id, actual).db.buckets)
  {
    var row := db.reservations[id];
    PairKeepsDoubleEntry(db.buckets, KeyOf(db.sessions[row.session], OrgScope, row.epoch),
                         KeyOf(db.sessions[row.session], RoleScope, row.epoch), -row.tokens, actual);
  }

  lemma {:induction false} ReleaseKeepsDoubleEntry(db: Database, id: Id)
    requires DoubleEntry(db.buckets) && Release(db, id).Commit?
    ensures DoubleEntry(Release(db, id).db.buckets)
  {
    var row := db.reservations[id];
    PairKeepsDoubleEntry(db.buckets, KeyOf(db.sessions[row.session], OrgScope, row.epoch),
                         KeyOf(db.sessions[row.session], RoleScope, row.epoch), -row.tokens, 0);
  }
}
