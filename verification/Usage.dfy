/** Token usage from worker process to budget: the launcher's meters of `host_process.py`, and
    what the supervisor charges when a wake's parent process has ended. */
module Usage {
  import opened Outcomes
  import opened Tables
  import opened Stores
  import opened Budgets
  import Ledgers
  import Sessions

  /** How a worker process ended: with a usage record; with none, an error of the host or a
      timeout; or with any other exception. */
  datatype Report = Counted(tokens: nat, status: int) | Uncounted | Escaped

  /** What happened to the meters, oldest first. */
  datatype Entry = Ran(session: Id, report: Report) | Taken(session: Id)

  // ---------- what a history of reports amounts to ----------

  function Reported(reports: seq<Report>): nat {
    if reports == [] then 0
    else
      var last := reports[|reports| - 1];
      Reported(reports[..|reports| - 1]) + if last.Counted? then last.tokens else 0
  }

  /** The reports of a session since its usage was last taken. */
  function Unread(history: seq<Entry>, sid: Id): seq<Report> {
    if history == [] then []
    else
      var earlier := Unread(history[..|history| - 1], sid);
      match history[|history| - 1]
      case Ran(s, report) => if s == sid then earlier + [report] else earlier
      case Taken(s) => if s == sid then [] else earlier
  }

  function Reports(history: seq<Entry>, sid: Id): seq<Report> {
    if history == [] then []
    else
      var earlier, last := Reports(history[..|history| - 1], sid), history[|history| - 1];
      if last.Ran? && last.session == sid then earlier + [last.report] else earlier
  }

  /** The workers' share of a bill: unknown as soon as one worker's usage is. */
  function Share(reports: seq<Report>): Option<nat> {
    if Uncounted in reports then None else Some(Reported(reports))
  }

  /** Everything the takings of a session have handed over. */
  function Billed(history: seq<Entry>, sid: Id): nat {
    if history == [] then 0
    else
      var earlier := history[..|history| - 1];
      var share := Share(Unread(earlier, sid));
      Billed(earlier, sid) + if history[|history| - 1] == Taken(sid) && share.Some? then share.value else 0
  }

  /** No reported token is dropped or handed over twice: while every usage is known, what the
      workers reported is what was billed and what no taking has seen yet. */
  lemma {:induction false} TokensAreConserved(history: seq<Entry>, sid: Id)
    requires Uncounted !in Reports(history, sid)
    ensures Uncounted !in Unread(history, sid)
    ensures Reported(Reports(history, sid)) == Billed(history, sid) + Reported(Unread(history, sid))
  {
    if history != [] {
      var earlier, last := history[..|history| - 1], history[|history| - 1];
      if last.Ran? && last.session == sid {
        assert forall r :: r in Reports(earlier, sid) ==> r in Reports(history, sid);
        ReportedGrows(Reports(earlier, sid), last.report);
        ReportedGrows(Unread(earlier, sid), last.report);
      }
      TokensAreConserved(earlier, sid);
    }
  }

  lemma ReportedGrows(reports: seq<Report>, report: Report)
    ensures Reported(reports + [report]) == Reported(reports) + if report.Counted? then report.tokens else 0
  {
  }

  lemma UnreadGrows(history: seq<Entry>, sid: Id, report: Report)
    ensures forall s :: Unread(history + [Ran(sid, report)], s) == Unread(history, s) + if s == sid then [report] else []
    ensures Reported(Unread(history, sid) + [report])
      == Reported(Unread(history, sid)) + if report.Counted? then report.tokens else 0
  {
  }

  lemma {:induction false} ReportsConcat(history: seq<Entry>, more: seq<Entry>, sid: Id)
    ensures Reports(history + more, sid) == Reports(history, sid) + Reports(more, sid)
    decreases more
  {
    if more == [] {
      assert history + more == history;
    } else {
      assert (history + more)[..|history + more| - 1] == history + more[..|more| - 1];
      ReportsConcat(history, more[..|more| - 1], sid);
    }
  }

  lemma {:induction false} ReportedConcat(first: seq<Report>, second: seq<Report>)
    ensures Reported(first + second) == Reported(first) + Reported(second)
    decreases second
  {
    if second == [] {
      assert first + second == first;
    } else {
      assert (first + second)[..|first + second| - 1] == first + second[..|second| - 1];
      ReportedConcat(first, second[..|second| - 1]);
    }
  }

  /** What may still be metered for the session by the attempts it has: each worker process runs
      once, before its attempt reaches a final state, so only a busy attempt reports, and once. */
  predicate MayFollow(db: Database, sid: Id, more: seq<Entry>) {
    |Reports(more, sid)| <= |Sessions.BusyOf(db.workers, sid)|
  }

  /** The bill taken now covers everything the session's workers ever report. */
  predicate CoversAll(history: seq<Entry>, sid: Id, more: seq<Entry>) {
    Billed(history + [Taken(sid)], sid) == Reported(Reports(history + [Taken(sid)] + more, sid))
  }

  lemma {:induction false} TakenCovers(history: seq<Entry>, sid: Id, more: seq<Entry>)
    requires Uncounted !in Reports(history, sid)
    ensures CoversAll(history, sid, more) <==> Reported(Reports(more, sid)) == 0
  {
    var taken := history + [Taken(sid)];
    assert taken[..|taken| - 1] == history && taken[|taken| - 1] == Taken(sid);
    TokensAreConserved(taken, sid);
    ReportsConcat(taken, more, sid);
    ReportedConcat(Reports(taken, sid), Reports(more, sid));
  }

  /** A worker that ends after its wake was billed is never charged. The bill is complete, however
      things go on, if and only if no attempt of the session is accepted or running when the
      usage is taken. */
  lemma {:induction false} BillingIsCompleteIff(db: Database, history: seq<Entry>, sid: Id)
    requires Uncounted !in Reports(history, sid)
    ensures (forall more :: MayFollow(db, sid, more) ==> CoversAll(history, sid, more)) <==> Sessions.BusyOf(db.workers, sid) == {}
  {
    if Sessions.BusyOf(db.workers, sid) == {} {
      forall more | MayFollow(db, sid, more) ensures CoversAll(history, sid, more) {
        TakenCovers(history, sid, more);
      }
    } else {
      var late := [Ran(sid, Counted(1, 0))];
      assert late[..0] == [] && Reports(late, sid) == [] + [Counted(1, 0)];
      ReportedGrows([], Counted(1, 0));
      TakenCovers(history, sid, late);
      assert MayFollow(db, sid, late) && !CoversAll(history, sid, late);
    }
  }

  // ---------- the launcher's meters ----------

  function MeterOf(usage: map<Id, nat>, sid: Id): nat {
    if sid in usage then usage[sid] else 0
  }

  /** What the two meters of every session say. */
  ghost predicate Meters(usage: map<Id, nat>, uncertain: set<Id>, history: seq<Entry>) {
    forall sid: Id ::
      && MeterOf(usage, sid) == Reported(Unread(history, sid))
      && (sid in uncertain <==> Uncounted in Unread(history, sid))
  }

  lemma RanMeters(usage: map<Id, nat>, uncertain: set<Id>, history: seq<Entry>, sid: Id, report: Report)
    requires Meters(usage, uncertain, history)
    ensures match report
      case Counted(tokens, _) => Meters(usage[sid := MeterOf(usage, sid) + tokens], uncertain, history + [Ran(sid, report)])
      case Uncounted => Meters(usage, uncertain + {sid}, history + [Ran(sid, report)])
      case Escaped => Meters(usage, uncertain, history + [Ran(sid, report)])
  {
    UnreadGrows(history, sid, report);
  }

  lemma TakenMeters(usage: map<Id, nat>, uncertain: set<Id>, history: seq<Entry>, sid: Id)
    requires Meters(usage, uncertain, history)
    ensures Meters(usage - {sid}, uncertain - {sid}, history + [Taken(sid)])
  {
    assert (history + [Taken(sid)])[..|history|] == history;
  }

  class Launcher {
    var usage: map<Id, nat>
    var uncertain: set<Id>
    ghost var history: seq<Entry>

    ghost predicate Valid()
      reads this
    {
      Meters(usage, uncertain, history)
    }

    constructor ()
      ensures Valid() && history == []
    {
      usage, uncertain, history := map[], {}, [];
    }

    /** Meters one ended worker; true when its output goes back to the parent. */
    method RunWorker(sid: Id, report: Report) returns (answered: bool)
      requires Valid()
      modifies this
      ensures Valid() && history == old(history) + [Ran(sid, report)]
      ensures answered <==> report.Counted? && report.status == 0
    {
      RanMeters(usage, uncertain, history, sid, report);
      history := history + [Ran(sid, report)];
      match report {
        case Uncounted =>
          uncertain := uncertain + {sid};
          answered := false;
        case Escaped =>
          answered := false;
        case Counted(tokens, status) =>
          usage := usage[sid := MeterOf(usage, sid) + tokens];
          answered := status == 0;
      }
    }

    /** Hands over what the session's workers used and resets its meters. */
    method TakeWorkerUsage(sid: Id) returns (tokens: Option<nat>)
      requires Valid()
      modifies this
      ensures Valid() && history == old(history) + [Taken(sid)]
      ensures tokens == Share(Unread(old(history), sid))
    {
      TakenMeters(usage, uncertain, history, sid);
      history := history + [Taken(sid)];
      tokens := Some(MeterOf(usage, sid));
      usage := usage - {sid};
      if sid in uncertain {
        uncertain := uncertain - {sid};
        return None;
      }
      assert uncertain - {sid} == uncertain;
    }
  }

  // ---------- charging a wake ----------

  /** How the parent's run ended once its provider was spawned: in an exception, its own or its
      socket's; or with the usage it reported, if any. */
  datatype Parent = Broken | Ended(tokens: Option<nat>)

  /** What a wake used, as far as it is known. */
  function Used(parent: Parent, workers: Option<nat>): Option<nat> {
    if parent.Broken? || parent.tokens.None? || workers.None? then None else Some(parent.tokens.value + workers.value)
  }

  /** Known usage is settled and unknown usage holds the reservation. A boundary crossing
      raises after its commit, and the hold that follows finds nothing active to mark. */
  function Charged(db: Database, reservation: Id, usage: Option<nat>): Database {
    if usage.None? then After(db, MarkUncertain(db, reservation))
    else
      var settle := Settle(db, reservation, usage.value);
      var settled := After(db, settle);
      if settle.Commit? && !settle.value then settled else After(settled, MarkUncertain(settled, reservation))
  }

  /** The settlement is accepted, and crosses no boundary. */
  predicate Settles(db: Database, reservation: Id, tokens: nat) {
    Settle(db, reservation, tokens).Commit? && !Settle(db, reservation, tokens).value
  }

  method SettleOrHold(store: Store, reservation: Id, usage: Option<nat>) returns (settled: bool)
    requires store.Valid()
    modifies store
    ensures store.Valid() && store.db == Charged(old(store.db), reservation, usage)
    ensures settled <==> usage.Some? && Settles(old(store.db), reservation, usage.value)
  {
    if usage.Some? {
      var r := store.SettleBudget(reservation, usage.value);
      if r.Ok? {
        return true;
      }
    }
    var held := store.MarkBudgetUncertain(reservation);
    return false;
  }

  function OrgBucket(db: Database, r: Id): BucketKey
    requires r in db.reservations && db.reservations[r].session in db.sessions
  {
    KeyOf(db.sessions[db.reservations[r].session], OrgScope, db.reservations[r].epoch)
  }

  function RoleBucket(db: Database, r: Id): BucketKey
    requires r in db.reservations && db.reservations[r].session in db.sessions
  {
    KeyOf(db.sessions[db.reservations[r].session], RoleScope, db.reservations[r].epoch)
  }

  /** Charging `actual` crosses the reservation or the limit of one of its buckets. */
  predicate Crosses(db: Database, r: Id, actual: nat)
    requires r in db.reservations && db.reservations[r].session in db.sessions
  {
    actual > db.reservations[r].tokens || Overruns(db.buckets, OrgBucket(db, r), actual) || Overruns(db.buckets, RoleBucket(db, r), actual)
  }

  /** In exactly the two buckets `actual` tokens are consumed and `tokens` are no longer set aside. */
  ghost predicate Paid(before: map<BucketKey, Bucket>, after: map<BucketKey, Bucket>, paid: set<BucketKey>, tokens: int, actual: nat) {
    forall key: BucketKey ::
      && BucketAt(after, key).consumed == BucketAt(before, key).consumed + (if key in paid then actual else 0)
      && BucketAt(after, key).reserved == BucketAt(before, key).reserved - (if key in paid then tokens else 0)
  }

  lemma PostsPay(buckets: map<BucketKey, Bucket>, a: BucketKey, b: BucketKey, tokens: int, actual: nat)
    requires a != b && a in buckets && b in buckets
    ensures Paid(buckets, Post(Post(buckets, a, -tokens, actual), b, -tokens, actual), {a, b}, tokens, actual)
  {
  }

  /** A boundary crossing raises after its commit, so the hold that follows changes nothing. */
  lemma SettledIsCharged(db: Database, r: Id, actual: nat) returns (after: Database)
    requires Settle(db, r, actual).Commit? && db.reservations[r].session in db.sessions
    ensures after == Settle(db, r, actual).db == Charged(db, r, Some(actual))
    ensures after.reservations == db.reservations[r :=
      db.reservations[r].(state := if Crosses(db, r, actual) then ReservationState.Uncertain else Settled)]
    ensures Paid(db.buckets, after.buckets, {OrgBucket(db, r), RoleBucket(db, r)}, db.reservations[r].tokens, actual)
    ensures after == db.(buckets := after.buckets, reservations := after.reservations)
    ensures Settles(db, r, actual) <==> !Crosses(db, r, actual)
  {
    after := Settle(db, r, actual).db;
    PostsPay(db.buckets, OrgBucket(db, r), RoleBucket(db, r), db.reservations[r].tokens, actual);
  }

  /** Known usage is charged in full, even past a boundary, and the reservation leaves both of
      its buckets and no other. */
  lemma {:induction false} KnownUsageIsCharged(db: Database, actuals: Actuals, r: Id, actual: nat)
    requires Ledger(db, actuals) && r in db.reservations && db.reservations[r].state.Active?
    ensures var row, after := db.reservations[r], Charged(db, r, Some(actual));
      && after.reservations
         == db.reservations[r := row.(state := if Crosses(db, r, actual) then ReservationState.Uncertain else Settled)]
      && Paid(db.buckets, after.buckets, {OrgBucket(db, r), RoleBucket(db, r)}, row.tokens, actual)
  {
    Ledgers.CoverGuardsUnreachable(db, actuals, r, actual);
    var after := SettledIsCharged(db, r, actual);
  }

  lemma {:induction false} KnownUsageKeepsLedger(db: Database, actuals: Actuals, r: Id, actual: nat)
    requires Ledger(db, actuals) && r in db.reservations && db.reservations[r].state.Active?
    ensures Ledger(Charged(db, r, Some(actual)), actuals[r := actual])
  {
    Ledgers.CoverGuardsUnreachable(db, actuals, r, actual);
    Ledgers.SettleKeepsLedger(db, actuals, r, actual);
    var after := SettledIsCharged(db, r, actual);
  }

  /** Unknown usage moves no bucket: the reservation stays set aside whole. */
  lemma {:induction false} UnknownUsageIsHeld(db: Database, actuals: Actuals, r: Id)
    requires Ledger(db, actuals) && r in db.reservations && db.reservations[r].state.Active?
    ensures var after := Charged(db, r, None);
      && after.reservations == db.reservations[r := db.reservations[r].(state := ReservationState.Uncertain)]
      && after.buckets == db.buckets
      && Ledger(after, actuals) && Holds(after.reservations[r], r in actuals)
  {
    Ledgers.MarkKeepsLedger(db, actuals, r);
  }

  ghost predicate BillsKnown(db: Database, after: Database, r: Id, bill: nat, charged: Option<nat>)
    requires r in db.reservations && db.reservations[r].session in db.sessions
  {
    var row := db.reservations[r];
    && after == db.(buckets := after.buckets, reservations := after.reservations)
    && Paid(db.buckets, after.buckets, {OrgBucket(db, r), RoleBucket(db, r)}, row.tokens, bill)
    && after.reservations == db.reservations[r := row.(state := if Crosses(db, r, bill) then ReservationState.Uncertain else Settled)]
    && charged == if Crosses(db, r, bill) then None else Some(bill)
  }

  ghost predicate BillsUnknown(db: Database, after: Database, r: Id, charged: Option<nat>)
    requires r in db.reservations
  {
    after == db.(reservations := db.reservations[r := db.reservations[r].(state := ReservationState.Uncertain)]) && charged.None?
  }

  /** What a wake costs, from what its parent and its workers reported: if every usage is known their
      sum is consumed in both buckets, the reservation leaves both, and the sum is returned unless
      it crossed a boundary; if one is unknown no bucket moves and the reservation is held. */
  ghost predicate Bills(db: Database, after: Database, r: Id, parent: Parent, unread: seq<Report>, charged: Option<nat>)
    requires r in db.reservations && db.reservations[r].session in db.sessions
  {
    if parent.Ended? && parent.tokens.Some? && Uncounted !in unread then
      BillsKnown(db, after, r, parent.tokens.value + Reported(unread), charged)
    else BillsUnknown(db, after, r, charged)
  }

  /** A settlement that crosses nothing is returned. */
  ghost function Returned(db: Database, r: Id, usage: Option<nat>): Option<nat> {
    if usage.Some? && Settles(db, r, usage.value) then usage else None
  }

  lemma KnownBills(db: Database, actuals: Actuals, r: Id, bill: nat) returns (after: Database, charged: Option<nat>)
    requires Ledger(db, actuals) && r in db.reservations && db.reservations[r].state.Active?
    ensures after == Charged(db, r, Some(bill)) && charged == Returned(db, r, Some(bill))
    ensures BillsKnown(db, after, r, bill, charged)
  {
    Ledgers.CoverGuardsUnreachable(db, actuals, r, bill);
    after := SettledIsCharged(db, r, bill);
    charged := if Crosses(db, r, bill) then None else Some(bill);
  }

  lemma UnknownBills(db: Database, r: Id) returns (after: Database, charged: Option<nat>)
    requires r in db.reservations && db.reservations[r].state.Active?
    ensures after == Charged(db, r, None) && charged == Returned(db, r, None)
    ensures BillsUnknown(db, after, r, charged)
  {
    after, charged := Charged(db, r, None), None;
  }

  /** What the meters and the parent give together. */
  function Bill(parent: Parent, unread: seq<Report>): Option<nat> {
    Used(parent, if parent.Ended? then Share(unread) else None)
  }

  ghost predicate Billable(db: Database, actuals: Actuals, r: Id) {
    Ledger(db, actuals) && r in db.reservations && db.reservations[r].state.Active?
  }

  lemma BillIs(parent: Parent, unread: seq<Report>)
    ensures Bill(parent, unread)
         == if parent.Ended? && parent.tokens.Some? && Uncounted !in unread then Some(parent.tokens.value + Reported(unread)) else None
  {
  }

  lemma ChargedBills(db: Database, actuals: Actuals, r: Id, parent: Parent, unread: seq<Report>)
    returns (after: Database, charged: Option<nat>)
    requires Billable(db, actuals, r)
    ensures after == Charged(db, r, Bill(parent, unread)) && charged == Returned(db, r, Bill(parent, unread))
    ensures Bills(db, after, r, parent, unread, charged)
  {
    BillIs(parent, unread);
    if parent.Ended? && parent.tokens.Some? && Uncounted !in unread {
      after, charged := KnownBills(db, actuals, r, parent.tokens.value + Reported(unread));
    } else {
      after, charged := UnknownBills(db, r);
    }
  }

  /** The supervisor after the parent's run: bills the workers, then settles, or falls into its
      exception branch and holds the reservation. A broken run leaves the meters unread. */
  method ChargeWake(store: Store, launcher: Launcher, sid: Id, reservation: Id, parent: Parent)
    returns (charged: Option<nat>)
    requires store.Valid() && launcher.Valid()
    modifies store, launcher
    ensures store.Valid() && launcher.Valid()
    ensures launcher.history == old(launcher.history) + if parent.Broken? then [] else [Taken(sid)]
    ensures forall actuals :: Billable(old(store.db), actuals, reservation) ==>
      Bills(old(store.db), store.db, reservation, parent, Unread(old(launcher.history), sid), charged)
    ensures !(reservation in old(store.db).reservations && old(store.db).reservations[reservation].state.Active?) ==>
      store.db == old(store.db) && charged.None?
  {
    ghost var before, unread := store.db, Unread(launcher.history, sid);
    var workers: Option<nat> := None;
    if parent.Ended? {
      workers := launcher.TakeWorkerUsage(sid);
    }
    var settled := SettleOrHold(store, reservation, Used(parent, workers));
    charged := if settled then Used(parent, workers) else None;
    forall actuals | Billable(before, actuals, reservation) ensures Bills(before, store.db, reservation, parent, unread, charged) {
      var after, returned := ChargedBills(before, actuals, reservation, parent, unread);
    }
  }
}
