/** What one pass of `sync` writes: the issues it posts, the rows it journals, and how far a write
    that fails got. */
module Postings {
  import opened Outcomes
  import opened Tables
  import opened Governance
  import Journals

  // ---------- what is desired, and what clashes ----------

  /** Desired are the given sources and the open proposals, each of these under its own title. */
  lemma DesiredIs(hub: Hub, given: map<SourceKey, Text>, s: SourceKey)
    ensures s in Desired(hub, given) <==> s in given || IsOpenProposal(hub, s)
    ensures s in Desired(hub, given) ==>
      Desired(hub, given)[s] == if IsOpenProposal(hub, s) then hub.issues[s.number].title else given[s]
  {
  }

  predicate IsOpenProposal(hub: Hub, s: SourceKey) {
    && s.Proposal? && s.number in hub.issues
    && hub.issues[s.number].isOpen && hub.issues[s.number].proposal && !hub.issues[s.number].pull
  }

  /** Clashing are exactly the sources whose marker two issues carry. */
  lemma ConflictsAreClashes(hub: Hub, s: SourceKey)
    ensures s in Conflicts(hub)
      <==> exists i, j :: i in hub.issues && j in hub.issues && i != j && hub.issues[i].mark == Marked(s) && hub.issues[j].mark == Marked(s)
  {
    if s in Conflicts(hub) {
      var i :| i in hub.issues && hub.issues[i].mark == Marked(s);
      assert Holders(hub, s) != {i};
      var j :| j in Holders(hub, s) && j != i;
    }
    if i, j :| i in hub.issues && j in hub.issues && i != j && hub.issues[i].mark == Marked(s) && hub.issues[j].mark == Marked(s) {
      assert s in Sources(hub);
      assert i in Holders(hub, s) && j in Holders(hub, s);
      if |Holders(hub, s)| == 1 {
        SoleExists(Holders(hub, s));
      }
    }
  }

  // ---------- one action ----------

  /** The row of an action, however it ends. */
  function RowOf(a: Action, queue: Id, state: OperationState): Operation {
    var precondition := Precondition(queue, a.issue, a.content);
    Operation(OperationKey(a.source, a.kind, a.version, precondition), a.source, a.kind, precondition, state)
  }

  /** An action under a fresh key: completed, it succeeded; failed in transport, it is left pending; and
      with an answer that cannot be used, it is dead. */
  lemma ActionEnds(db: Database, hub: Hub, a: Action, queue: Id, with: Attempt)
    requires with.operation !in db.operations && Journals.WithKey(db.operations, KeyOf(a, queue)) == {}
    requires a.kind.Create? && a.issue.Some? && a.issue.value in hub.issues ==> hub.issues[a.issue.value].mark.Marked?
    ensures var tx := Journals.ReserveOperation(db, with.operation, KeyOf(a, queue), a.source, a.kind, PreconditionOf(a, queue));
      && tx.Commit? && tx.value == with.operation && tx.value in tx.db.operations
      && var one := AppliedTo(tx.db, hub, a, tx.value, with.id, with.fate);
         var state := match with.fate.ending
                      case Completes => OperationState.Succeeded
                      case Fails => OperationState.VerifyPending
                      case Errs => OperationState.DeadLetter;
         && one.state == state && one.hub == Written(hub, a, with.id, with.fate)
         && one.db == db.(operations := db.operations[with.operation := RowOf(a, queue, state)])
  {
    FreshReserves(db, with.operation, KeyOf(a, queue), a.source, a.kind, PreconditionOf(a, queue));
    var planned := RowOf(a, queue, Planned);
    var reserved := db.(operations := db.operations[with.operation := planned]);
    RowEnds(reserved, hub, a, queue, with.operation, with.id, with.fate);
  }

  lemma RowEnds(db: Database, hub: Hub, a: Action, queue: Id, row: Id, id: Id, fate: Fate)
    requires row in db.operations && db.operations[row] == RowOf(a, queue, Planned) && StillManaged(hub, a)
    ensures var one := AppliedTo(db, hub, a, row, id, fate);
      && one.state == StateAfter(fate.ending) && one.hub == Written(hub, a, id, fate)
      && one.db == db.(operations := db.operations[row := RowOf(a, queue, StateAfter(fate.ending))])
  {
    var applying := db.operations[row].(state := OperationState.Applying);
    var ended := applying.(state := StateAfter(fate.ending));
    assert db.operations[row := applying][row := ended] == db.operations[row := ended];
  }

  /** How far the writes got: a new issue is posted and then put on the queue; an old one is reopened,
      which takes no write if it is open, and then put on the queue; and closing is one write. */
  lemma WritesSoFar(hub: Hub, a: Action, id: Id, fate: Fate)
    requires fate.ending.Completes? ==> fate.writes >= 2
    ensures a.kind.Create? && a.issue.None? ==>
      Written(hub, a, id, fate) ==
        if fate.writes == 0 then hub
        else Hub(hub.issues[id := Issue(true, Marked(a.source), false, false, a.content, ABSENT)],
                 if fate.writes == 1 then hub.children else hub.children + {id})
    ensures a.kind.Create? && a.issue.Some? && a.issue.value in hub.issues ==>
      var i, wasOpen := a.issue.value, hub.issues[a.issue.value].isOpen;
      Written(hub, a, id, fate) ==
        if fate.writes == 0 && !wasOpen then hub
        else Hub(hub.issues[i := hub.issues[i].(isOpen := true)],
                 if fate.writes == 0 || (fate.writes == 1 && !wasOpen) then hub.children else hub.children + {i})
    ensures !a.kind.Create? && a.issue.Some? && a.issue.value in hub.issues ==>
      var i := a.issue.value;
      Written(hub, a, id, fate) ==
        if fate.writes == 0 then hub else Hub(hub.issues[i := hub.issues[i].(isOpen := false)], hub.children)
  {
  }

  /** An action whose key is journalled already and past its planning is answered from its row: nothing is
      written. One that was only planned is carried out in that row. */
  lemma PriorActionEnds(db: Database, hub: Hub, a: Action, queue: Id, with: Attempt, prior: Id)
    requires Journals.WithKey(db.operations, KeyOf(a, queue)) == {prior}
    requires db.operations[prior] == RowOf(a, queue, db.operations[prior].state)
    ensures var tx := Journals.ReserveOperation(db, with.operation, KeyOf(a, queue), a.source, a.kind, PreconditionOf(a, queue));
      && tx.Commit? && tx.value == prior && tx.db == db
      && (!db.operations[prior].state.Planned? ==>
            AppliedTo(db, hub, a, prior, with.id, with.fate) == Applied(db, hub, db.operations[prior].state))
      && (db.operations[prior].state.Planned?
          && (a.kind.Create? && a.issue.Some? && a.issue.value in hub.issues ==> hub.issues[a.issue.value].mark.Marked?) ==>
            AppliedTo(db, hub, a, prior, with.id, with.fate).hub == Written(hub, a, with.id, with.fate))
  {
    assert prior in Journals.WithKey(db.operations, KeyOf(a, queue));
    assert forall o :: o in Journals.WithKey(db.operations, KeyOf(a, queue)) ==> o == prior;
  }

  // ---------- a pass ----------

  /** Every issue that appeared was posted for an action, with its marker and its content. */
  ghost predicate Posted(hub: Hub, after: Hub, actions: seq<Action>) {
    forall i :: i in after.issues && i !in hub.issues ==> exists a :: a in actions && IsPosted(after.issues[i], a)
  }

  predicate IsPosted(issue: Issue, a: Action) {
    a.kind.Create? && a.issue.None? && issue.mark == Marked(a.source) && issue.title == a.content
  }

  lemma WrittenPosts(hub: Hub, a: Action, id: Id)
    requires Timely(hub, a) && id !in hub.issues
    ensures Posted(hub, Written(hub, a, id, DONE), [a])
  {
    var after := Written(hub, a, id, DONE);
    forall i | i in after.issues && i !in hub.issues ensures IsPosted(after.issues[i], a) && a in [a] {
    }
  }

  /** What was posted first keeps its marker and its title to the end. */
  lemma PostedThrough(hub: Hub, middle: Hub, after: Hub, actions: seq<Action>)
    requires actions != [] && Posted(hub, middle, [actions[0]]) && Posted(middle, after, actions[1..])
    requires Flipped(middle, after, actions[1..])
    ensures Posted(hub, after, actions)
  {
    forall i | i in after.issues && i !in hub.issues ensures exists a :: a in actions && IsPosted(after.issues[i], a) {
      if i in middle.issues {
        var a :| a in [actions[0]] && IsPosted(middle.issues[i], a);
        assert a in actions;
      } else {
        var a :| a in actions[1..] && IsPosted(after.issues[i], a);
        assert a in actions;
      }
    }
  }

  lemma {:induction false} PassesPost(db: Database, hub: Hub, actions: seq<Action>, queue: Id, attempts: seq<Attempt>)
    requires Smooth(db, hub, actions, queue, attempts) && DistinctSources(actions) && AllTimely(hub, actions)
    ensures Posted(hub, Pass(db, hub, actions, queue, attempts).1, actions)
    decreases actions
  {
    if actions != [] {
      TimelyIsManaged(hub, actions[0]);
      var after := FreshApplies(db, hub, actions, queue, attempts);
      var next := Written(hub, actions[0], attempts[0].id, DONE);
      WritingAchieves(hub, actions[0], attempts[0].id);
      RestSmooth(db, hub, actions, queue, attempts, after);
      RestTimely(hub, next, actions);
      PassesPost(after, next, actions[1..], queue, attempts[1..]);
      PassesAchieve(after, next, actions[1..], queue, attempts[1..]);
      WrittenPosts(hub, actions[0], attempts[0].id);
      PostedThrough(hub, next, Pass(after, next, actions[1..], queue, attempts[1..]).1, actions);
    }
  }

  /** Every action is journalled under its own number as what it was planned to be, and no other row
      changed. */
  ghost predicate Journalled(before: map<Id, Operation>, after: map<Id, Operation>, actions: seq<Action>, queue: Id, attempts: seq<Attempt>)
    requires |attempts| >= |actions|
  {
    && (forall o :: o in before ==> o in after && after[o] == before[o])
    && (forall k :: 0 <= k < |actions| ==>
          attempts[k].operation in after && after[attempts[k].operation] == RowOf(actions[k], queue, OperationState.Succeeded))
    && (forall o :: o in after && o !in before ==> exists k :: 0 <= k < |actions| && o == attempts[k].operation)
  }

  lemma JournalledThrough(before: map<Id, Operation>, middle: map<Id, Operation>, after: map<Id, Operation>, actions: seq<Action>,
                          queue: Id, attempts: seq<Attempt>)
    requires actions != [] && |attempts| >= |actions| && attempts[0].operation !in before
    requires middle == before[attempts[0].operation := RowOf(actions[0], queue, OperationState.Succeeded)]
    requires Journalled(middle, after, actions[1..], queue, attempts[1..])
    ensures Journalled(before, after, actions, queue, attempts)
  {
    forall k | 0 <= k < |actions|
      ensures attempts[k].operation in after && after[attempts[k].operation] == RowOf(actions[k], queue, OperationState.Succeeded)
    {
      if k > 0 {
        assert attempts[1..][k - 1] == attempts[k] && actions[1..][k - 1] == actions[k];
      }
    }
    forall o | o in after && o !in before ensures exists k :: 0 <= k < |actions| && o == attempts[k].operation {
      if o != attempts[0].operation {
        var k :| 0 <= k < |actions[1..]| && o == attempts[1..][k].operation;
        assert o == attempts[k + 1].operation;
      }
    }
  }

  lemma {:induction false} PassesJournal(db: Database, hub: Hub, actions: seq<Action>, queue: Id, attempts: seq<Attempt>)
    requires Smooth(db, hub, actions, queue, attempts) && DistinctSources(actions) && AllTimely(hub, actions)
    ensures Journalled(db.operations, Pass(db, hub, actions, queue, attempts).0.operations, actions, queue, attempts)
    decreases actions
  {
    if actions != [] {
      TimelyIsManaged(hub, actions[0]);
      var after := FreshApplies(db, hub, actions, queue, attempts);
      var next := Written(hub, actions[0], attempts[0].id, DONE);
      WritingAchieves(hub, actions[0], attempts[0].id);
      RestSmooth(db, hub, actions, queue, attempts, after);
      RestTimely(hub, next, actions);
      PassesJournal(after, next, actions[1..], queue, attempts[1..]);
      JournalledThrough(db.operations, after.operations, Pass(after, next, actions[1..], queue, attempts[1..]).0.operations, actions, queue,
                        attempts);
    }
  }

  /** Nothing fails: every action is answered with success. */
  lemma {:induction false} PassesSucceed(db: Database, hub: Hub, actions: seq<Action>, queue: Id, attempts: seq<Attempt>)
    requires Smooth(db, hub, actions, queue, attempts) && DistinctSources(actions) && AllTimely(hub, actions)
    ensures |Answers(db, hub, actions, queue, attempts)| == |actions|
    ensures forall state :: state in Answers(db, hub, actions, queue, attempts) ==> state == OperationState.Succeeded
    decreases actions
  {
    if actions != [] {
      TimelyIsManaged(hub, actions[0]);
      var after := FreshApplies(db, hub, actions, queue, attempts);
      var next := Written(hub, actions[0], attempts[0].id, DONE);
      WritingAchieves(hub, actions[0], attempts[0].id);
      RestSmooth(db, hub, actions, queue, attempts, after);
      RestTimely(hub, next, actions);
      PassesSucceed(after, next, actions[1..], queue, attempts[1..]);
    }
  }

  // ---------- `sync` ----------

  /** After a smooth sync every issue that appeared is marked for a desired source and titled as
      desired, and is the one open child of the queue for it. */
  ghost predicate PostsDesired(hub: Hub, after: Hub, desired: map<SourceKey, Text>) {
    forall i :: i in after.issues && i !in hub.issues ==>
      && after.issues[i].mark.Marked? && after.issues[i].mark.source in desired
      && after.issues[i].title == desired[after.issues[i].mark.source]
      && OnQueue(after, i) && OnlyHolder(after, after.issues[i].mark.source, Some(i))
  }

  lemma PostedIsDesired(hub: Hub, after: Hub, actions: seq<Action>, desired: map<SourceKey, Text>)
    requires Posted(hub, after, actions) && forall a :: a in actions ==> Proper(hub, desired, a)
    requires forall s :: s in desired ==> Present(after, s)
    ensures PostsDesired(hub, after, desired)
  {
    forall i | i in after.issues && i !in hub.issues
      ensures after.issues[i].mark.Marked? && after.issues[i].mark.source in desired
      ensures after.issues[i].title == desired[after.issues[i].mark.source]
      ensures OnQueue(after, i) && OnlyHolder(after, after.issues[i].mark.source, Some(i))
    {
      var a :| a in actions && IsPosted(after.issues[i], a);
      assert Present(after, a.source);
      var j :| j in Holders(after, a.source) && Holders(after, a.source) == {j} && after.issues[j].isOpen && j in after.children;
      assert i in Holders(after, a.source);
      forall k | k in after.issues && after.issues[k].mark == Marked(a.source) ensures k == i {
        assert k in Holders(after, a.source);
      }
    }
  }

  /** One smooth pass of `sync` posts exactly what is desired and journals exactly what it planned. */
  lemma {:induction false} SyncPosts(db: Database, hub: Hub, given: map<SourceKey, Text>, wanted: seq<SourceKey>, owned: seq<SourceKey>,
                                     queue: Id, attempts: seq<Attempt>)
    requires Conflicts(hub) == {} && Listing(hub, Desired(hub, given), wanted, owned)
    requires Smooth(db, hub, Actions(hub, Desired(hub, given), wanted, owned), queue, attempts)
    ensures var end := Synced(db, hub, given, wanted, owned, queue, attempts);
      && PostsDesired(hub, end.1, Desired(hub, given)) && end.2.None?
      && Journalled(db.operations, end.0.operations, Actions(hub, Desired(hub, given), wanted, owned), queue, attempts)
  {
    var desired := Desired(hub, given);
    var actions := Actions(hub, desired, wanted, owned);
    ActionsPlan(hub, desired, wanted, owned);
    ActionsAreProper(hub, desired, wanted, owned, actions);
    SyncSettles(db, hub, given, wanted, owned, queue, attempts);
    PassesPost(db, hub, actions, queue, attempts);
    PassesJournal(db, hub, actions, queue, attempts);
    PostedIsDesired(hub, Synced(db, hub, given, wanted, owned, queue, attempts).1, actions, desired);
  }
}
