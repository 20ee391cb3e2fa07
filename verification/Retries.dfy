/** What becomes of an action of `sync` that failed: how its ambiguous writes are proved, and that
    under an unchanged remote side it is never carried out again. */
module Retries {
  import opened Outcomes
  import opened Tables
  import opened Governance
  import opened Postings
  import Verification
  import Journals

  // ---------- the proof of a pending action ----------

  /** `verify_reconcile`, over complete reads of the queue's repository. */
  ghost function ProofOf(hub: Hub, row: Operation): Verification.Proof
    requires !row.kind.Move?
  {
    if row.kind.Create? then
      var holders := Holders(hub, row.source);
      if holders == {} then Verification.Absent
      else if |holders| > 1 then Verification.Clashing
      else if exists i :: i in holders && i in hub.children then Verification.Present else Verification.Absent
    else if row.precondition.issue.None? then Verification.Clashing
    else if row.precondition.issue.value !in hub.issues then Verification.Unknown
    else
      var issue := hub.issues[row.precondition.issue.value];
      if issue.mark != Marked(row.source) then Verification.Clashing else if issue.isOpen then Verification.Absent else Verification.Present
  }

  /** The failed write was to reopen an issue that was still on the queue. */
  predicate ReopensOnQueue(hub: Hub, a: Action) {
    a.kind.Create? && a.issue.Some? && a.issue.value in hub.issues && !hub.issues[a.issue.value].isOpen && a.issue.value in hub.children
  }

  lemma OneHolderIs(hub: Hub, s: SourceKey, i: Id)
    requires Sole(hub, s) == Some(i)
    ensures Holders(hub, s) == {i}
  {
    SoleHolds(hub, s);
  }

  lemma PostProof(hub: Hub, a: Action, queue: Id, id: Id, fate: Fate)
    requires Timely(hub, a) && a.kind.Create? && a.issue.None? && fate.ending.Fails? && id !in hub.issues && id !in hub.children
    ensures var after := Written(hub, a, id, fate);
      && (ProofOf(after, RowOf(a, queue, OperationState.VerifyPending))
          == if fate.writes >= 2 then Verification.Present else Verification.Absent)
      && (Present(after, a.source) <==> fate.writes >= 2)
  {
    var after := Written(hub, a, id, fate);
    assert Holders(hub, a.source) == {} by {
      if |Holders(hub, a.source)| == 1 {
        SoleExists(Holders(hub, a.source));
      }
    }
    if fate.writes >= 1 {
      assert Holders(after, a.source) == {id};
    }
  }

  lemma ReopenProof(hub: Hub, a: Action, queue: Id, id: Id, fate: Fate)
    requires Timely(hub, a) && a.kind.Create? && a.issue.Some? && fate.ending.Fails? && !Present(hub, a.source)
    ensures var after, i := Written(hub, a, id, fate), a.issue.value;
      && (ProofOf(after, RowOf(a, queue, OperationState.VerifyPending))
          == if i in after.children then Verification.Present else Verification.Absent)
      && i in after.issues && (Present(after, a.source) <==> i in after.children && after.issues[i].isOpen)
      && (i in after.children && !after.issues[i].isOpen <==> ReopensOnQueue(hub, a) && fate.writes == 0)
  {
    var after, i := Written(hub, a, id, fate), a.issue.value;
    OneHolderIs(hub, a.source, i);
    assert Holders(after, a.source) == {i};
    assert i in Holders(after, a.source);
  }

  lemma CloseProof(hub: Hub, a: Action, queue: Id, id: Id, fate: Fate)
    requires Timely(hub, a) && a.kind.Close? && fate.ending.Fails?
    ensures var after := Written(hub, a, id, fate);
      && (ProofOf(after, RowOf(a, queue, OperationState.VerifyPending))
          == if fate.writes >= 1 then Verification.Present else Verification.Absent)
      && (Present(after, a.source) <==> fate.writes == 0) && |Holders(after, a.source)| == 1
  {
    var after, i := Written(hub, a, id, fate), a.issue.value;
    OneHolderIs(hub, a.source, i);
    assert Holders(after, a.source) == {i};
    assert i in Holders(after, a.source);
  }

  /** A planned action whose transport failed: its proof says present if and only if the action is
      achieved, or was to reopen an issue still on the queue and wrote nothing. */
  lemma {:induction false} PendingProof(hub: Hub, a: Action, queue: Id, id: Id, fate: Fate)
    requires Timely(hub, a) && !Achieves(hub, a) && fate.ending.Fails? && id !in hub.issues && id !in hub.children
    ensures var after := Written(hub, a, id, fate);
      var proof := ProofOf(after, RowOf(a, queue, OperationState.VerifyPending));
      && (proof == Verification.Present || proof == Verification.Absent)
      && (proof == Verification.Present <==> Achieves(after, a) || (ReopensOnQueue(hub, a) && fate.writes == 0))
  {
    if a.kind.Close? {
      CloseProof(hub, a, queue, id, fate);
    } else if a.issue.None? {
      PostProof(hub, a, queue, id, fate);
    } else {
      ReopenProof(hub, a, queue, id, fate);
    }
  }

  // ---------- nothing is tried twice ----------

  /** Every row holds what its key was computed from, and no two rows share a key. */
  ghost predicate HonestRows(rows: map<Id, Operation>) {
    && (forall o :: o in rows ==>
          rows[o].key.source == rows[o].source && rows[o].key.kind == rows[o].kind && rows[o].key.precondition == rows[o].precondition)
    && forall o, p :: o in rows && p in rows && rows[o].key == rows[p].key ==> o == p
  }

  /** The action's key is journalled, and past its planning. */
  ghost predicate Spent(rows: map<Id, Operation>, a: Action, queue: Id) {
    exists o :: o in rows && rows[o].key == KeyOf(a, queue) && !rows[o].state.Planned?
  }

  /** Rows are only added, or moved past their planning. */
  ghost predicate Later(before: map<Id, Operation>, after: map<Id, Operation>) {
    forall o :: o in before ==>
      && o in after && after[o].key == before[o].key
      && (!before[o].state.Planned? ==> !after[o].state.Planned?)
  }

  lemma SpentStays(before: map<Id, Operation>, after: map<Id, Operation>, a: Action, queue: Id)
    requires Spent(before, a, queue) && Later(before, after)
    ensures Spent(after, a, queue)
  {
    var o :| o in before && before[o].key == KeyOf(a, queue) && !before[o].state.Planned?;
    assert o in after && after[o].key == KeyOf(a, queue);
  }

  lemma SpentReserves(db: Database, a: Action, queue: Id, with: Attempt) returns (o: Id)
    requires HonestRows(db.operations) && Spent(db.operations, a, queue)
    ensures o in db.operations && !db.operations[o].state.Planned?
    ensures Journals.ReserveOperation(db, with.operation, KeyOf(a, queue), a.source, a.kind, PreconditionOf(a, queue)) == Commit(db, o)
  {
    o :| o in db.operations && db.operations[o].key == KeyOf(a, queue) && !db.operations[o].state.Planned?;
    assert o in Journals.WithKey(db.operations, KeyOf(a, queue));
    assert forall p :: p in Journals.WithKey(db.operations, KeyOf(a, queue)) ==> p == o;
  }

  /** A pass over spent actions writes nothing and journals nothing. */
  lemma {:induction false} SpentPass(db: Database, hub: Hub, actions: seq<Action>, queue: Id, attempts: seq<Attempt>)
    requires |attempts| >= |actions| && HonestRows(db.operations) && forall a :: a in actions ==> Spent(db.operations, a, queue)
    ensures Pass(db, hub, actions, queue, attempts) == (db, hub, None)
    decreases actions
  {
    if actions != [] {
      var o := SpentReserves(db, actions[0], queue, attempts[0]);
      SpentPass(db, hub, actions[1..], queue, attempts[1..]);
    }
  }

  /** An action is carried out if and only if its key is not spent: under an unchanged issue and
      content, only once. */
  lemma {:induction false} CarriedOutIff(db: Database, hub: Hub, a: Action, queue: Id, with: Attempt) returns (one: Applied)
    requires HonestRows(db.operations) && with.operation !in db.operations && StillManaged(hub, a)
    ensures Starts(db, hub, a, queue, with, one)
    ensures if Spent(db.operations, a, queue) then one.db == db && one.hub == hub else one.hub == Written(hub, a, with.id, with.fate)
  {
    var tx := ReserveKeepsHonest(db, a, queue, with);
    if Spent(db.operations, a, queue) {
      var o := SpentReserves(db, a, queue, with);
    } else if o :| o in db.operations && db.operations[o].key == KeyOf(a, queue) {
      assert o in Journals.WithKey(db.operations, KeyOf(a, queue));
      assert forall p :: p in Journals.WithKey(db.operations, KeyOf(a, queue)) ==> p == o;
    } else {
      assert Journals.WithKey(db.operations, KeyOf(a, queue)) == {};
    }
    one := AppliedTo(tx.db, hub, a, tx.value, with.id, with.fate);
  }

  lemma ReserveKeepsHonest(db: Database, a: Action, queue: Id, with: Attempt) returns (tx: Tx<Id>)
    requires HonestRows(db.operations)
    ensures tx == Journals.ReserveOperation(db, with.operation, KeyOf(a, queue), a.source, a.kind, PreconditionOf(a, queue))
    ensures tx.Commit? ==>
      && HonestRows(tx.db.operations) && Later(db.operations, tx.db.operations)
      && tx.value in tx.db.operations && tx.db.operations[tx.value].key == KeyOf(a, queue)
  {
    tx := Journals.ReserveOperation(db, with.operation, KeyOf(a, queue), a.source, a.kind, PreconditionOf(a, queue));
    if Journals.WithKey(db.operations, KeyOf(a, queue)) == {} {
      assert forall o :: o in db.operations ==> o !in Journals.WithKey(db.operations, KeyOf(a, queue));
    }
  }

  lemma PlannedRowMoves(db: Database, row: Id, end: OperationState)
    requires row in db.operations && db.operations[row].state.Planned? && (end.VerifyPending? || end.Succeeded? || end.DeadLetter?)
    ensures var applying := After(db, Journals.MarkOperation(db, row));
      After(applying, Journals.FinishOperation(applying, row, end)).operations == db.operations[row := db.operations[row].(state := end)]
  {
    var applying := db.operations[row].(state := OperationState.Applying);
    assert db.operations[row := applying][row := applying.(state := end)] == db.operations[row := applying.(state := end)];
  }

  lemma AppliedRow(db: Database, hub: Hub, a: Action, row: Id, id: Id, fate: Fate) returns (one: Applied)
    requires row in db.operations
    ensures one == AppliedTo(db, hub, a, row, id, fate) && !one.state.Planned?
    ensures one.db.operations == db.operations[row := db.operations[row].(state := one.state)]
  {
    one := AppliedTo(db, hub, a, row, id, fate);
    if db.operations[row].state.Planned? {
      PlannedRowMoves(db, row, one.state);
    } else {
      assert db.operations[row := db.operations[row]] == db.operations;
    }
  }

  lemma MovedIsLater(rows: map<Id, Operation>, row: Id, state: OperationState)
    requires row in rows && HonestRows(rows) && !state.Planned?
    ensures var after := rows[row := rows[row].(state := state)]; HonestRows(after) && Later(rows, after)
  {
  }

  /** Whatever its fate, an applied action is past its planning. */
  lemma ApplyingSpends(db: Database, hub: Hub, a: Action, row: Id, id: Id, fate: Fate)
    requires row in db.operations && HonestRows(db.operations)
    ensures var one := AppliedTo(db, hub, a, row, id, fate);
      && HonestRows(one.db.operations) && Later(db.operations, one.db.operations) && row in one.db.operations
      && one.db.operations[row].key == db.operations[row].key && !one.db.operations[row].state.Planned?
  {
    var one := AppliedRow(db, hub, a, row, id, fate);
    MovedIsLater(db.operations, row, one.state);
  }

  lemma LaterThrough(a: map<Id, Operation>, b: map<Id, Operation>, c: map<Id, Operation>)
    requires Later(a, b) && Later(b, c)
    ensures Later(a, c)
  {
  }

  /** After a pass that the journal did not refuse, every action is spent. */
  lemma {:induction false} PassSpends(db: Database, hub: Hub, actions: seq<Action>, queue: Id, attempts: seq<Attempt>)
    requires |attempts| >= |actions| && HonestRows(db.operations)
    ensures var end := Pass(db, hub, actions, queue, attempts);
      && HonestRows(end.0.operations) && Later(db.operations, end.0.operations)
      && (end.2.None? ==> forall a :: a in actions ==> Spent(end.0.operations, a, queue))
    decreases actions
  {
    if actions != [] {
      var tx := ReserveKeepsHonest(db, actions[0], queue, attempts[0]);
      if tx.Commit? {
        ApplyingSpends(tx.db, hub, actions[0], tx.value, attempts[0].id, attempts[0].fate);
        var one := AppliedTo(tx.db, hub, actions[0], tx.value, attempts[0].id, attempts[0].fate);
        PassSpends(one.db, one.hub, actions[1..], queue, attempts[1..]);
        var end := Pass(one.db, one.hub, actions[1..], queue, attempts[1..]).0.operations;
        LaterThrough(db.operations, tx.db.operations, one.db.operations);
        LaterThrough(db.operations, one.db.operations, end);
        assert Spent(one.db.operations, actions[0], queue);
        SpentStays(one.db.operations, end, actions[0], queue);
      }
    }
  }

  lemma FinishedRow(db: Database, o: Id, state: OperationState)
    requires HonestRows(db.operations) && !state.Planned?
    ensures var after := After(db, Journals.FinishOperation(db, o, state));
      HonestRows(after.operations) && Later(db.operations, after.operations)
  {
    if Journals.FinishOperation(db, o, state).Commit? {
      MovedIsLater(db.operations, o, state);
    }
  }

  lemma ResolvedRow(db: Database, o: Id, v: Verification.Verdict)
    requires HonestRows(db.operations)
    ensures var after := Verification.ResolveOperation(db, o, v);
      HonestRows(after.operations) && Later(db.operations, after.operations)
  {
    FinishedRow(db, o, OperationState.Succeeded);
    FinishedRow(db, o, OperationState.DeadLetter);
  }

  lemma {:induction false} ResolvingSpends(db: Database, rows: seq<Id>, verdicts: map<Id, Verification.Verdict>,
                                           counts: Verification.Counts)
    requires HonestRows(db.operations) && forall o :: o in rows ==> o in verdicts
    ensures var after := Verification.OperationsResolved(db, rows, verdicts, counts).0;
      HonestRows(after.operations) && Later(db.operations, after.operations)
    decreases rows
  {
    if rows != [] {
      var middle := Verification.ResolveOperation(db, rows[0], verdicts[rows[0]]);
      var next := Verification.Count(counts, verdicts[rows[0]].proof);
      ResolvedRow(db, rows[0], verdicts[rows[0]]);
      ResolvingSpends(middle, rows[1..], verdicts, next);
      LaterThrough(db.operations, middle.operations, Verification.OperationsResolved(middle, rows[1..], verdicts, next).0.operations);
    }
  }

  /** What the controller does later with the queue, as long as nobody else changes it: passes over the
      snapshot's actions, and resolutions by any verdicts. */
  datatype Round = Syncs(attempts: seq<Attempt>) | Resolves(rows: seq<Id>, verdicts: map<Id, Verification.Verdict>)

  /** Every action now planned is spent. */
  ghost predicate Stalled(db: Database, actions: seq<Action>, queue: Id) {
    HonestRows(db.operations) && forall a :: a in actions ==> Spent(db.operations, a, queue)
  }

  ghost function Rounds(db: Database, hub: Hub, desired: map<SourceKey, Text>, wanted: seq<SourceKey>, owned: seq<SourceKey>, queue: Id,
                        rounds: seq<Round>): (Database, Hub)
    requires forall s :: s in wanted ==> s in desired
    decreases rounds
  {
    if rounds == [] then (db, hub)
    else match rounds[0]
      case Syncs(attempts) =>
        var actions := Actions(hub, desired, wanted, owned);
        if |attempts| < |actions| then (db, hub)
        else
          var end := Pass(db, hub, actions, queue, attempts);
          Rounds(end.0, end.1, desired, wanted, owned, queue, rounds[1..])
      case Resolves(rows, verdicts) =>
        if exists o :: o in rows && o !in verdicts then (db, hub)
        else
          Rounds(Verification.OperationsResolved(db, rows, verdicts, Verification.Counts(0, 0, 0, 0)).0, hub, desired, wanted, owned, queue,
                 rounds[1..])
  }

  lemma {:induction false} StalledStays(db: Database, hub: Hub, desired: map<SourceKey, Text>, wanted: seq<SourceKey>,
                                        owned: seq<SourceKey>, queue: Id, rounds: seq<Round>)
    requires (forall s :: s in wanted ==> s in desired) && Stalled(db, Actions(hub, desired, wanted, owned), queue)
    ensures Rounds(db, hub, desired, wanted, owned, queue, rounds).1 == hub
    decreases rounds
  {
    var actions := Actions(hub, desired, wanted, owned);
    if rounds != [] {
      match rounds[0]
      case Syncs(attempts) =>
        if |attempts| >= |actions| {
          SpentPass(db, hub, actions, queue, attempts);
          StalledStays(db, hub, desired, wanted, owned, queue, rounds[1..]);
        }
      case Resolves(rows, verdicts) =>
        if forall o :: o in rows ==> o in verdicts {
          var none := Verification.Counts(0, 0, 0, 0);
          var after := Verification.OperationsResolved(db, rows, verdicts, none).0;
          ResolvingSpends(db, rows, verdicts, none);
          forall a | a in actions ensures Spent(after.operations, a, queue) {
            SpentStays(db.operations, after.operations, a, queue);
          }
          StalledStays(after, hub, desired, wanted, owned, queue, rounds[1..]);
        }
    }
  }

  /** A pass that the journal did not refuse and that left the remote side as it was has tried
      everything it ever will: as long as nobody else changes the queue or what is desired of it,
      no later pass writes anything, whatever is resolved in between. */
  lemma {:induction false} NothingIsTriedTwice(db: Database, hub: Hub, desired: map<SourceKey, Text>, wanted: seq<SourceKey>,
                                               owned: seq<SourceKey>, queue: Id, attempts: seq<Attempt>, rounds: seq<Round>)
    requires HonestRows(db.operations) && (forall s :: s in wanted ==> s in desired)
    requires |attempts| >= |Actions(hub, desired, wanted, owned)|
    requires var end := Pass(db, hub, Actions(hub, desired, wanted, owned), queue, attempts); end.1 == hub && end.2.None?
    ensures var end := Pass(db, hub, Actions(hub, desired, wanted, owned), queue, attempts);
      Rounds(end.0, hub, desired, wanted, owned, queue, rounds).1 == hub
  {
    PassSpends(db, hub, Actions(hub, desired, wanted, owned), queue, attempts);
    StalledStays(Pass(db, hub, Actions(hub, desired, wanted, owned), queue, attempts).0, hub, desired, wanted, owned, queue, rounds);
  }
}
