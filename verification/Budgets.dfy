/** Token budgets: reservation, settlement and release over an organization bucket and a role
    bucket, and the double-entry invariant that ties both to the reservation table. */
module Budgets {
  import opened Outcomes
  import opened Tables
  import opened Sums
  import opened Sessions

  /** One `(scope, subject, limit)` entry of the caller's bucket list. */
  datatype Ask = Ask(scope: Scope, subject: Name, limit: int)

  function Subject(s: Session, scope: Scope): Name {
    if scope.OrgScope? then s.org else s.role
  }

  function KeyOf(s: Session, scope: Scope, epoch: Name): BucketKey {
    BucketKey(scope, Subject(s, scope), epoch)
  }

  predicate AsksMatch(s: Session, asks: seq<Ask>) {
    && |asks| == 2
    && (set a | a in asks :: (a.scope, a.subject)) == {(OrgScope, s.org), (RoleScope, s.role)}
  }

  /** First pass over the buckets: open the missing ones, refuse a changed limit or a hold. */
  function Opened(buckets: map<BucketKey, Bucket>, epoch: Name, requested: int, asks: seq<Ask>)
    : Outcome<map<BucketKey, Bucket>>
    decreases asks
  {
    if asks == [] then Ok(buckets)
    else if asks[0].limit <= 0 then Raised(StateError(InvalidArgument))
    else
      var key := BucketKey(asks[0].scope, asks[0].subject, epoch);
      var current := if key in buckets then buckets else buckets[key := Bucket(asks[0].limit, 0, 0)];
      if current[key].limit != asks[0].limit then Raised(StateError(LimitChanged))
      else if current[key].consumed + current[key].reserved + requested > current[key].limit then
        Raised(StateError(BudgetHold))
      else Opened(current, epoch, requested, asks[1..])
  }

  /** `UPDATE budget_bucket` on one row; a missing row is left missing. */
  function Post(buckets: map<BucketKey, Bucket>, key: BucketKey, reserved: int, consumed: int)
    : map<BucketKey, Bucket> {
    if key !in buckets then buckets
    else buckets[key := Bucket(buckets[key].limit, buckets[key].consumed + consumed, buckets[key].reserved + reserved)]
  }

  /** Second pass over the buckets: add the requested tokens to each. */
  function Charged(buckets: map<BucketKey, Bucket>, epoch: Name, requested: int, asks: seq<Ask>)
    : map<BucketKey, Bucket>
    decreases asks
  {
    if asks == [] then buckets
    else Charged(Post(buckets, BucketKey(asks[0].scope, asks[0].subject, epoch), requested, 0),
                 epoch, requested, asks[1..])
  }

  function Reserve(db: Database, id: Id, sid: Id, now: Time, epoch: Name, requested: int, asks: seq<Ask>): (tx: Tx<Id>)
    ensures tx.Commit? ==> OnlyBudgets(db, tx.db)
  {
    if requested <= 0 then Rollback(StateError(InvalidArgument))
    else if !Live(db, sid, now) then Rollback(StateError(SessionInactive))
    else if !AsksMatch(db.sessions[sid], asks) then Rollback(StateError(BucketMismatch))
    else
      var first := Opened(db.buckets, epoch, requested, asks);
      if first.Raised? then Rollback(first.error)
      else if id in db.reservations || exists r :: r in db.reservations && db.reservations[r].session == sid then
        Rollback(IntegrityError)
      else
        Commit(db.(buckets := Charged(first.value, epoch, requested, asks),
                   reservations := db.reservations[id := Reservation(sid, epoch, requested, ReservationState.Active)]),
               id)
  }

  predicate Covers(buckets: map<BucketKey, Bucket>, key: BucketKey, tokens: int) {
    key in buckets && buckets[key].reserved >= tokens
  }

  predicate Overruns(buckets: map<BucketKey, Bucket>, key: BucketKey, tokens: int) {
    key in buckets && buckets[key].consumed + tokens > buckets[key].limit
  }

  /** Commits whether or not a boundary was crossed; the value says if it was, and then the
      method raises after the commit. */
  function Settle(db: Database, id: Id, actual: int): (tx: Tx<bool>)
    ensures tx.Commit? ==> OnlyBudgets(db, tx.db)
  {
    if actual < 0 then Rollback(StateError(InvalidArgument))
    else if id !in db.reservations || !db.reservations[id].state.Active? then
      Rollback(StateError(ReservationInactive))
    else
      var row := db.reservations[id];
      if row.session !in db.sessions then Rollback(StateError(SessionInactive))
      else
        var org := KeyOf(db.sessions[row.session], OrgScope, row.epoch);
        var role := KeyOf(db.sessions[row.session], RoleScope, row.epoch);
        if !Covers(db.buckets, org, row.tokens) || !Covers(db.buckets, role, row.tokens) then
          Rollback(StateError(BucketInconsistent))
        else
          var over := actual > row.tokens || Overruns(db.buckets, org, actual) || Overruns(db.buckets, role, actual);
          Commit(db.(buckets := Post(Post(db.buckets, org, -row.tokens, actual), role, -row.tokens, actual),
                     reservations := db.reservations[id :=
                       row.(state := if over then ReservationState.Uncertain else Settled)]),
                 over)
  }

  function MarkUncertain(db: Database, id: Id): (tx: Tx<()>)
    ensures tx.Commit? ==> OnlyBudgets(db, tx.db)
  {
    if id !in db.reservations || !db.reservations[id].state.Active? then Rollback(StateError(ReservationInactive))
    else Commit(db.(reservations := db.reservations[id := db.reservations[id].(state := ReservationState.Uncertain)]), ())
  }

  function Release(db: Database, id: Id): (tx: Tx<()>)
    ensures tx.Commit? ==> OnlyBudgets(db, tx.db)
  {
    if id !in db.reservations || !db.reservations[id].state.Active? then Rollback(StateError(ReservationInactive))
    else
      var row := db.reservations[id];
      if row.session !in db.sessions then Rollback(StateError(SessionInactive))
      else
        var org := KeyOf(db.sessions[row.session], OrgScope, row.epoch);
        var role := KeyOf(db.sessions[row.session], RoleScope, row.epoch);
        if !Covers(db.buckets, org, row.tokens) || !Covers(db.buckets, role, row.tokens) then
          Rollback(StateError(BucketInconsistent))
        else
          Commit(db.(buckets := Post(Post(db.buckets, org, -row.tokens, 0), role, -row.tokens, 0),
                     reservations := db.reservations[id := row.(state := Released)]), ())
  }

  // ---------- the double-entry invariant ----------

  /** Tokens actually charged by settlements, by reservation: the history the tables forget. */
  type Actuals = map<Id, int>

  function BucketAt(buckets: map<BucketKey, Bucket>, key: BucketKey): Bucket {
    if key in buckets then buckets[key] else Bucket(0, 0, 0)
  }

  predicate Draws(sessions: map<Id, Session>, row: Reservation, key: BucketKey) {
    row.session in sessions && key == KeyOf(sessions[row.session], key.scope, row.epoch)
  }

  /** Tokens still set aside: an active reservation, or one held as uncertain that no
      settlement has charged. */
  predicate Holds(row: Reservation, settled: bool) {
    row.state.Active? || (row.state.Uncertain? && !settled)
  }

  /** The three columns the reservation table and the settlements give each bucket. */
  datatype Column = Held | Spent | Overage

  /** What reservation `r` contributes to a column of bucket `key`. */
  function Part(db: Database, actuals: Actuals, column: Column, r: Id, key: BucketKey): int {
    if r !in db.reservations || !Draws(db.sessions, db.reservations[r], key) then 0
    else match column
      case Held => if Holds(db.reservations[r], r in actuals) then db.reservations[r].tokens else 0
      case Spent => if r in actuals then actuals[r] else 0
      case Overage => if r in actuals && actuals[r] > db.reservations[r].tokens then actuals[r] - db.reservations[r].tokens else 0
  }

  ghost function Parts(db: Database, actuals: Actuals, column: Column, key: BucketKey): map<Id, int> {
    map r | r in db.reservations :: Part(db, actuals, column, r, key)
  }

  ghost function Total(db: Database, actuals: Actuals, column: Column, key: BucketKey): int {
    Sum(Parts(db, actuals, column, key))
  }

  ghost predicate Rows(db: Database, actuals: Actuals) {
    && (forall r :: r in db.reservations ==> db.reservations[r].session in db.sessions && db.reservations[r].tokens > 0)
    && (forall r :: r in actuals ==> r in db.reservations && 0 <= actuals[r])
    && (forall r :: r in actuals ==> db.reservations[r].state.Settled? || db.reservations[r].state.Uncertain?)
    && (forall r :: r in db.reservations && db.reservations[r].state.Settled? ==> r in actuals)
  }

  /** Every bucket's columns are the sums the reservation table and the settlements give. */
  ghost predicate Balanced(db: Database, actuals: Actuals) {
    forall key: BucketKey ::
      && BucketAt(db.buckets, key).reserved == Total(db, actuals, Held, key)
      && BucketAt(db.buckets, key).consumed == Total(db, actuals, Spent, key)
  }

  ghost predicate WithinLimits(db: Database, actuals: Actuals) {
    forall key :: key in db.buckets ==>
      db.buckets[key].consumed + db.buckets[key].reserved <= db.buckets[key].limit + Total(db, actuals, Overage, key)
  }

  ghost predicate Ledger(db: Database, actuals: Actuals) {
    Rows(db, actuals) && Balanced(db, actuals) && WithinLimits(db, actuals)
  }
}
