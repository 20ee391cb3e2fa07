/** The Human Principal queue: a snapshot plans from complete reads, and one pass over its
    actions makes the open marker-owned children exactly the desired ones. */
module Governance {
  import opened Outcomes
  import opened Tables
  import opened Stores
  import opened Reconciling
  import Journals

  /** The first governance marker of an issue's body, if any. */
  datatype Mark = Unmarked | Marked(source: SourceKey)
  datatype Issue = Issue(isOpen: bool, mark: Mark, proposal: bool, pull: bool, title: Text, version: Text)

  /** The organization repository's issues and the queue's children. */
  datatype Hub = Hub(issues: map<Id, Issue>, children: set<Id>)

  /** `_managed`, for one source. */
  function Holders(hub: Hub, s: SourceKey): set<Id> {
    set i | i in hub.issues && hub.issues[i].mark == Marked(s)
  }

  function Sources(hub: Hub): set<SourceKey> {
    set i | i in hub.issues && hub.issues[i].mark.Marked? :: hub.issues[i].mark.source
  }

  predicate IsProposal(issue: Issue) {
    issue.isOpen && !issue.pull && issue.proposal
  }

  function ProposalKeys(hub: Hub): set<SourceKey> {
    set i | i in hub.issues && IsProposal(hub.issues[i]) :: Proposal(i)
  }

  /** The desired queue: the open blockers and mergeable pull requests given, and the open
      proposals read from the issues themselves. */
  function Desired(hub: Hub, given: map<SourceKey, Text>): map<SourceKey, Text> {
    given + map k | k in ProposalKeys(hub) && k.Proposal? && k.number in hub.issues :: hub.issues[k.number].title
  }

  /** The source's one issue is open and a child of the queue. */
  predicate Present(hub: Hub, s: SourceKey) {
    exists i :: i in Holders(hub, s) && Holders(hub, s) == {i} && hub.issues[i].isOpen && i in hub.children
  }

  datatype Action = Action(kind: OperationKind, source: SourceKey, issue: Option<Id>, content: Text, version: Text)

  const ABSENT: Text := 0

  function Sole(hub: Hub, s: SourceKey): Option<Id> {
    if |Holders(hub, s)| != 1 then None
    else
      SoleExists(Holders(hub, s));
      var i :| i in Holders(hub, s);
      Some(i)
  }

  lemma SoleExists(ids: set<Id>)
    requires |ids| == 1
    ensures forall i, j :: i in ids && j in ids ==> i == j
    ensures exists i :: i in ids
  {
    var i :| i in ids;
    assert |ids - {i}| == 0;
    assert ids == {i};
  }

  function Seen(truth: bool): Observed<()> {
    Observed(if truth then True else False, true, ())
  }

  function StateOf(present: bool, qualifies: bool): ManagedState<()> {
    ManagedState(Seen(present), Seen(qualifies), Seen(true), Seen(true))
  }

  /** First pass: a desired source that is not on the queue, unless its markers clash. */
  function Creation(hub: Hub, s: SourceKey, content: Text): Option<Action> {
    if |Holders(hub, s)| > 1 || Plan(StateOf(Present(hub, s), true)).None? then None
    else
      var existing := Sole(hub, s);
      Some(Action(OperationKind.Create, s, existing, content, if existing.Some? then hub.issues[existing.value].version else ABSENT))
  }

  /** Second pass: a managed source nobody desires any more, if it is on the queue. */
  function Closure(hub: Hub, s: SourceKey, desired: map<SourceKey, Text>): Option<Action> {
    if s in desired || |Holders(hub, s)| != 1 || !Present(hub, s) || Plan(StateOf(true, false)).None? then None
    else
      var issue := Sole(hub, s);
      Some(Action(OperationKind.Close, s, issue, ABSENT, hub.issues[issue.value].version))
  }

  function Found(a: Option<Action>): seq<Action> {
    if a.None? then [] else [a.value]
  }

  function Creations(hub: Hub, desired: map<SourceKey, Text>, wanted: seq<SourceKey>): seq<Action>
    requires forall s :: s in wanted ==> s in desired
  {
    if wanted == [] then []
    else
      var last := wanted[|wanted| - 1];
      Creations(hub, desired, wanted[..|wanted| - 1]) + Found(Creation(hub, last, desired[last]))
  }

  function Closures(hub: Hub, desired: map<SourceKey, Text>, owned: seq<SourceKey>): seq<Action> {
    if owned == [] then []
    else Closures(hub, desired, owned[..|owned| - 1]) + Found(Closure(hub, owned[|owned| - 1], desired))
  }

  /** `issue` is the one issue that carries the source's marker, or none does. */
  ghost predicate OnlyHolder(hub: Hub, s: SourceKey, issue: Option<Id>) {
    forall i :: i in hub.issues && hub.issues[i].mark == Marked(s) <==> issue == Some(i)
  }

  predicate OnQueue(hub: Hub, i: Id) {
    i in hub.issues && hub.issues[i].isOpen && i in hub.children
  }

  function VersionOf(hub: Hub, issue: Option<Id>): Text {
    if issue.Some? && issue.value in hub.issues then hub.issues[issue.value].version else ABSENT
  }

  /** What a planned action says: a wanted source that is not on the queue gets what is desired for
      it, on its own issue if it has one; an unwanted one on the queue is closed; either way under
      the version of the issue that was read. */
  ghost predicate Proper(hub: Hub, desired: map<SourceKey, Text>, a: Action) {
    && OnlyHolder(hub, a.source, a.issue) && a.version == VersionOf(hub, a.issue)
    && match a.kind
       case Create => a.source in desired && a.content == desired[a.source] && (a.issue.Some? ==> !OnQueue(hub, a.issue.value))
       case Close => a.source !in desired && a.issue.Some? && OnQueue(hub, a.issue.value) && a.content == ABSENT
       case Move => false
  }

  /** Nothing is left out: a source with at most one issue is created unless it is on the queue, and
      an unwanted one on it is closed. */
  ghost predicate Complete(hub: Hub, desired: map<SourceKey, Text>, wanted: seq<SourceKey>, owned: seq<SourceKey>, actions: seq<Action>) {
    && (forall s, issue :: s in wanted && OnlyHolder(hub, s, issue) && (issue.Some? ==> !OnQueue(hub, issue.value)) ==>
          exists a :: a in actions && a.kind.Create? && a.source == s)
    && (forall s, i :: s in owned && s !in desired && OnlyHolder(hub, s, Some(i)) && OnQueue(hub, i) ==>
          exists a :: a in actions && a.kind.Close? && a.source == s)
  }

  lemma SoleIsOnly(hub: Hub, s: SourceKey)
    requires |Holders(hub, s)| <= 1
    ensures OnlyHolder(hub, s, Sole(hub, s))
  {
    if |Holders(hub, s)| == 1 {
      SoleExists(Holders(hub, s));
      var i := Sole(hub, s).value;
      forall j | j in hub.issues && hub.issues[j].mark == Marked(s) ensures j == i {
        assert j in Holders(hub, s);
      }
    } else {
      forall j | j in hub.issues ensures hub.issues[j].mark != Marked(s) {
        assert j !in Holders(hub, s);
      }
    }
  }

  lemma OnlyIsSole(hub: Hub, s: SourceKey, issue: Option<Id>)
    requires OnlyHolder(hub, s, issue)
    ensures Holders(hub, s) == (if issue.Some? then {issue.value} else {}) && Sole(hub, s) == issue
    ensures Present(hub, s) <==> issue.Some? && OnQueue(hub, issue.value)
  {
    assert Holders(hub, s) == if issue.Some? then {issue.value} else {};
    if issue.Some? {
      assert issue.value in Holders(hub, s);
    }
  }

  lemma CreationIsProper(hub: Hub, s: SourceKey, desired: map<SourceKey, Text>)
    requires s in desired
    ensures Creation(hub, s, desired[s]).Some? ==>
      && Creation(hub, s, desired[s]).value.kind.Create? && Creation(hub, s, desired[s]).value.source == s
      && Proper(hub, desired, Creation(hub, s, desired[s]).value)
    ensures forall issue :: OnlyHolder(hub, s, issue) && (issue.Some? ==> !OnQueue(hub, issue.value)) ==> Creation(hub, s, desired[s]).Some?
  {
    if Creation(hub, s, desired[s]).Some? {
      SoleIsOnly(hub, s);
      OnlyIsSole(hub, s, Sole(hub, s));
    }
    forall issue | OnlyHolder(hub, s, issue) && (issue.Some? ==> !OnQueue(hub, issue.value)) ensures Creation(hub, s, desired[s]).Some? {
      OnlyIsSole(hub, s, issue);
    }
  }

  lemma ClosureIsProper(hub: Hub, s: SourceKey, desired: map<SourceKey, Text>)
    ensures Closure(hub, s, desired).Some? ==>
      && Closure(hub, s, desired).value.kind.Close? && Closure(hub, s, desired).value.source == s
      && Proper(hub, desired, Closure(hub, s, desired).value)
    ensures forall i :: s !in desired && OnlyHolder(hub, s, Some(i)) && OnQueue(hub, i) ==> Closure(hub, s, desired).Some?
  {
    if Closure(hub, s, desired).Some? {
      SoleIsOnly(hub, s);
      OnlyIsSole(hub, s, Sole(hub, s));
    }
    forall i | s !in desired && OnlyHolder(hub, s, Some(i)) && OnQueue(hub, i) ensures Closure(hub, s, desired).Some? {
      OnlyIsSole(hub, s, Some(i));
    }
  }

  lemma {:induction false} CreationsAreProper(hub: Hub, desired: map<SourceKey, Text>, wanted: seq<SourceKey>)
    requires forall s :: s in wanted ==> s in desired
    ensures forall a :: a in Creations(hub, desired, wanted) ==> a.kind.Create? && Proper(hub, desired, a)
    ensures Complete(hub, desired, wanted, [], Creations(hub, desired, wanted))
  {
    if wanted != [] {
      var init, last := wanted[..|wanted| - 1], wanted[|wanted| - 1];
      CreationsAreProper(hub, desired, init);
      CreationIsProper(hub, last, desired);
      assert wanted == init + [last];
      forall s, issue | s in wanted && OnlyHolder(hub, s, issue) && (issue.Some? ==> !OnQueue(hub, issue.value))
        ensures exists a :: a in Creations(hub, desired, wanted) && a.kind.Create? && a.source == s
      {
        if s in init {
          var a :| a in Creations(hub, desired, init) && a.kind.Create? && a.source == s;
          assert a in Creations(hub, desired, wanted);
        } else {
          assert Creation(hub, last, desired[last]).value in Creations(hub, desired, wanted);
        }
      }
    }
  }

  lemma {:induction false} ClosuresAreProper(hub: Hub, desired: map<SourceKey, Text>, owned: seq<SourceKey>)
    ensures forall a :: a in Closures(hub, desired, owned) ==> a.kind.Close? && Proper(hub, desired, a)
    ensures Complete(hub, desired, [], owned, Closures(hub, desired, owned))
  {
    if owned != [] {
      var init, last := owned[..|owned| - 1], owned[|owned| - 1];
      ClosuresAreProper(hub, desired, init);
      ClosureIsProper(hub, last, desired);
      assert owned == init + [last];
      forall s, i | s in owned && s !in desired && OnlyHolder(hub, s, Some(i)) && OnQueue(hub, i)
        ensures exists a :: a in Closures(hub, desired, owned) && a.kind.Close? && a.source == s
      {
        if s in init {
          var a :| a in Closures(hub, desired, init) && a.kind.Close? && a.source == s;
          assert a in Closures(hub, desired, owned);
        } else {
          assert Closure(hub, last, desired).value in Closures(hub, desired, owned);
        }
      }
    }
  }

  lemma ActionsAreProper(hub: Hub, desired: map<SourceKey, Text>, wanted: seq<SourceKey>, owned: seq<SourceKey>, actions: seq<Action>)
    requires forall s :: s in wanted ==> s in desired
    requires actions == Creations(hub, desired, wanted) + Closures(hub, desired, owned)
    ensures (forall a :: a in actions ==> Proper(hub, desired, a)) && Complete(hub, desired, wanted, owned, actions)
  {
    CreationsAreProper(hub, desired, wanted);
    ClosuresAreProper(hub, desired, owned);
    forall s, issue | s in wanted && OnlyHolder(hub, s, issue) && (issue.Some? ==> !OnQueue(hub, issue.value))
      ensures exists a :: a in actions && a.kind.Create? && a.source == s
    {
      var a :| a in Creations(hub, desired, wanted) && a.kind.Create? && a.source == s;
      assert a in actions;
    }
    forall s, i | s in owned && s !in desired && OnlyHolder(hub, s, Some(i)) && OnQueue(hub, i)
      ensures exists a :: a in actions && a.kind.Close? && a.source == s
    {
      var a :| a in Closures(hub, desired, owned) && a.kind.Close? && a.source == s;
      assert a in actions;
    }
  }

  function Conflicts(hub: Hub): set<SourceKey> {
    set s | s in Sources(hub) && |Holders(hub, s)| != 1
  }

  /** `snapshot`; `wanted` and `owned` are the desired and the managed sources in their order. */
  method Snapshot(hub: Hub, desired: map<SourceKey, Text>, wanted: seq<SourceKey>, owned: seq<SourceKey>)
    returns (actions: seq<Action>, conflicts: set<SourceKey>)
    requires forall s :: s in wanted ==> s in desired
    ensures actions == Creations(hub, desired, wanted) + Closures(hub, desired, owned)
    ensures conflicts == Conflicts(hub)
    ensures forall a :: a in actions ==> Proper(hub, desired, a)
    ensures Complete(hub, desired, wanted, owned, actions)
  {
    conflicts := Conflicts(hub);
    actions := [];
    for i := 0 to |wanted|
      invariant actions == Creations(hub, desired, wanted[..i])
    {
      var s := wanted[i];
      assert wanted[..i + 1][..i] == wanted[..i];
      var action := Creation(hub, s, desired[s]);
      if action.Some? {
        actions := actions + [action.value];
      }
    }
    assert wanted[..|wanted|] == wanted;
    var created := actions;
    for i := 0 to |owned|
      invariant actions == created + Closures(hub, desired, owned[..i])
    {
      assert owned[..i + 1][..i] == owned[..i];
      var action := Closure(hub, owned[i], desired);
      if action.Some? {
        actions := actions + [action.value];
      }
    }
    assert owned[..|owned|] == owned;
    ActionsAreProper(hub, desired, wanted, owned, actions);
  }

  // ---------- applying one action ----------

  function PreconditionOf(a: Action, queue: Id): Precondition {
    Precondition(queue, a.issue, a.content)
  }

  function KeyOf(a: Action, queue: Id): OperationKey {
    OperationKey(a.source, a.kind, a.version, PreconditionOf(a, queue))
  }

  /** The writes completed; or the transport failed; or the answer could not be used. */
  datatype Ending = Completes | Fails | Errs

  /** How far the remote writes of an action got, and how they ended. */
  datatype Fate = Fate(writes: nat, ending: Ending)

  const DONE: Fate := Fate(2, Completes)

  function StateAfter(ending: Ending): OperationState {
    match ending
    case Completes => OperationState.Succeeded
    case Fails => OperationState.VerifyPending
    case Errs => OperationState.DeadLetter
  }

  function Edited(hub: Hub, i: Id, isOpen: bool): Hub {
    if i in hub.issues then hub.(issues := hub.issues[i := hub.issues[i].(isOpen := isOpen)]) else hub
  }

  function Attached(hub: Hub, i: Id): Hub {
    hub.(children := hub.children + {i})
  }

  function NewIssue(a: Action): Issue {
    Issue(true, Marked(a.source), false, false, a.content, ABSENT)
  }

  /** The queue after the first writes of an action: reopen or post, then attach; or close. */
  function Written(hub: Hub, a: Action, id: Id, fate: Fate): Hub {
    if !a.kind.Create? then
      if a.issue.Some? && (fate.ending.Completes? || fate.writes >= 1) then Edited(hub, a.issue.value, false) else hub
    else
      var target := if a.issue.Some? then a.issue.value else id;
      var writes := if a.issue.Some? && target in hub.issues && hub.issues[target].isOpen then fate.writes + 1 else fate.writes;
      var first := if a.issue.Some? then Edited(hub, target, true) else hub.(issues := hub.issues[id := NewIssue(a)]);
      if !fate.ending.Completes? && writes == 0 then hub
      else if !fate.ending.Completes? && writes == 1 then first
      else Attached(first, target)
  }

  /** The issue an action reopens must still carry a marker when it is read again. */
  predicate StillManaged(hub: Hub, a: Action) {
    a.kind.Create? && a.issue.Some? && a.issue.value in hub.issues ==> hub.issues[a.issue.value].mark.Marked?
  }

  datatype Applied = Applied(db: Database, hub: Hub, state: OperationState)

  /** `_apply` from the journalled row on: a key used before is not applied again. */
  function AppliedTo(db: Database, hub: Hub, a: Action, row: Id, id: Id, fate: Fate): Applied
    requires row in db.operations
  {
    if !db.operations[row].state.Planned? then Applied(db, hub, db.operations[row].state)
    else
      var applying := After(db, Journals.MarkOperation(db, row));
      if !StillManaged(hub, a) then
        Applied(After(applying, Journals.FinishOperation(applying, row, OperationState.DeadLetter)), hub, OperationState.DeadLetter)
      else
        var end := StateAfter(fate.ending);
        Applied(After(applying, Journals.FinishOperation(applying, row, end)), Written(hub, a, id, fate), end)
  }

  method Apply(store: Store, hub: Hub, a: Action, queue: Id, operation: Id, id: Id, fate: Fate)
    returns (state: Outcome<OperationState>, after: Hub)
    requires store.Valid()
    modifies store
    ensures store.Valid()
    ensures var tx := Journals.ReserveOperation(old(store.db), operation, KeyOf(a, queue), a.source, a.kind, PreconditionOf(a, queue));
      if tx.Rollback? then store.db == old(store.db) && after == hub && state == Raised(tx.error)
      else
        && tx.value in tx.db.operations && state.Ok?
        && Applied(store.db, after, state.value) == AppliedTo(tx.db, hub, a, tx.value, id, fate)
  {
    after := hub;
    var reserved := store.ReserveReconcile(operation, KeyOf(a, queue), a.source, a.kind, PreconditionOf(a, queue));
    if reserved.Raised? {
      return Raised(reserved.error), after;
    }
    var row := reserved.value;
    if !store.db.operations[row].state.Planned? {
      return Ok(store.db.operations[row].state), after;
    }
    var marked := store.MarkReconcileApplying(row);
    if !StillManaged(hub, a) {
      var dead := store.FinishReconcile(row, OperationState.DeadLetter);
      return Ok(OperationState.DeadLetter), after;
    }
    after := Written(hub, a, id, fate);
    var end := StateAfter(fate.ending);
    var finished := store.FinishReconcile(row, end);
    return Ok(end), after;
  }

  // ---------- one pass ----------

  /** What the environment supplies for one action: fresh row and issue numbers, and the fate
      of its writes. */
  datatype Attempt = Attempt(operation: Id, id: Id, fate: Fate)

  /** The loop of `sync` over the planned actions; a refusal of the journal ends it. */
  ghost function Pass(db: Database, hub: Hub, actions: seq<Action>, queue: Id, attempts: seq<Attempt>): (Database, Hub, Option<Failure>)
    requires |attempts| >= |actions|
    decreases actions
  {
    if actions == [] then (db, hub, None)
    else
      var a, with := actions[0], attempts[0];
      var tx := Journals.ReserveOperation(db, with.operation, KeyOf(a, queue), a.source, a.kind, PreconditionOf(a, queue));
      if tx.Rollback? then (db, hub, Some(tx.error))
      else if tx.value !in tx.db.operations then (db, hub, None)
      else
        var one := AppliedTo(tx.db, hub, a, tx.value, with.id, with.fate);
        Pass(one.db, one.hub, actions[1..], queue, attempts[1..])
  }

  /** What each action is answered with, up to a refusal of the journal. */
  ghost function Answers(db: Database, hub: Hub, actions: seq<Action>, queue: Id, attempts: seq<Attempt>): seq<OperationState>
    requires |attempts| >= |actions|
    decreases actions
  {
    if actions == [] then []
    else
      var a, with := actions[0], attempts[0];
      var tx := Journals.ReserveOperation(db, with.operation, KeyOf(a, queue), a.source, a.kind, PreconditionOf(a, queue));
      if tx.Rollback? || tx.value !in tx.db.operations then []
      else
        var one := AppliedTo(tx.db, hub, a, tx.value, with.id, with.fate);
        [one.state] + Answers(one.db, one.hub, actions[1..], queue, attempts[1..])
  }

  /** What is left of the pass after its first `i` actions. */
  ghost predicate Resumes(start: Database, first: Hub, db: Database, hub: Hub, states: seq<OperationState>, actions: seq<Action>, queue: Id,
                          attempts: seq<Attempt>, i: nat)
    requires i <= |actions| <= |attempts|
  {
    && Pass(start, first, actions, queue, attempts) == Pass(db, hub, actions[i..], queue, attempts[i..])
    && Answers(start, first, actions, queue, attempts) == states + Answers(db, hub, actions[i..], queue, attempts[i..])
  }

  ghost predicate Starts(db: Database, hub: Hub, a: Action, queue: Id, with: Attempt, one: Applied) {
    var tx := Journals.ReserveOperation(db, with.operation, KeyOf(a, queue), a.source, a.kind, PreconditionOf(a, queue));
    tx.Commit? && tx.value in tx.db.operations && one == AppliedTo(tx.db, hub, a, tx.value, with.id, with.fate)
  }

  lemma PassNext(db: Database, hub: Hub, actions: seq<Action>, queue: Id, attempts: seq<Attempt>, one: Applied)
    requires 0 < |actions| <= |attempts| && Starts(db, hub, actions[0], queue, attempts[0], one)
    ensures Pass(db, hub, actions, queue, attempts) == Pass(one.db, one.hub, actions[1..], queue, attempts[1..])
  {
  }

  lemma AnswersNext(db: Database, hub: Hub, actions: seq<Action>, queue: Id, attempts: seq<Attempt>, one: Applied)
    requires 0 < |actions| <= |attempts| && Starts(db, hub, actions[0], queue, attempts[0], one)
    ensures Answers(db, hub, actions, queue, attempts) == [one.state] + Answers(one.db, one.hub, actions[1..], queue, attempts[1..])
  {
  }

  lemma ResumesNext(start: Database, first: Hub, db: Database, hub: Hub, states: seq<OperationState>, actions: seq<Action>, queue: Id,
                    attempts: seq<Attempt>, i: nat, one: Applied)
    requires i < |actions| <= |attempts| && Resumes(start, first, db, hub, states, actions, queue, attempts, i)
    requires Starts(db, hub, actions[i], queue, attempts[i], one)
    ensures Resumes(start, first, one.db, one.hub, states + [one.state], actions, queue, attempts, i + 1)
  {
    var rest, left := actions[i..], attempts[i..];
    assert rest[0] == actions[i] && rest[1..] == actions[i + 1..] && left[0] == attempts[i] && left[1..] == attempts[i + 1..];
    PassNext(db, hub, rest, queue, left, one);
    AnswersNext(db, hub, rest, queue, left, one);
  }

  lemma ResumesRefused(start: Database, first: Hub, db: Database, hub: Hub, states: seq<OperationState>, actions: seq<Action>, queue: Id,
                       attempts: seq<Attempt>, i: nat, error: Failure)
    requires i < |actions| <= |attempts| && Resumes(start, first, db, hub, states, actions, queue, attempts, i)
    requires var a, with := actions[i], attempts[i];
      Journals.ReserveOperation(db, with.operation, KeyOf(a, queue), a.source, a.kind, PreconditionOf(a, queue)) == Rollback(error)
    ensures Pass(start, first, actions, queue, attempts) == (db, hub, Some(error))
    ensures Answers(start, first, actions, queue, attempts) == states
  {
    assert actions[i..][0] == actions[i] && attempts[i..][0] == attempts[i];
  }

  method ApplyAll(store: Store, start: Hub, actions: seq<Action>, queue: Id, attempts: seq<Attempt>)
    returns (hub: Hub, states: seq<OperationState>, failure: Option<Failure>)
    requires store.Valid() && |attempts| >= |actions|
    modifies store
    ensures store.Valid() && (store.db, hub, failure) == Pass(old(store.db), start, actions, queue, attempts)
    ensures states == Answers(old(store.db), start, actions, queue, attempts)
  {
    hub, states := start, [];
    assert actions[0..] == actions && attempts[0..] == attempts;
    for i := 0 to |actions|
      invariant store.Valid() && Resumes(old(store.db), start, store.db, hub, states, actions, queue, attempts, i)
    {
      ghost var db, before := store.db, hub;
      var state;
      state, hub := Apply(store, hub, actions[i], queue, attempts[i].operation, attempts[i].id, attempts[i].fate);
      if state.Raised? {
        ResumesRefused(old(store.db), start, db, before, states, actions, queue, attempts, i, state.error);
        return hub, states, Some(state.error);
      }
      ResumesNext(old(store.db), start, db, before, states, actions, queue, attempts, i, Applied(store.db, hub, state.value));
      states := states + [state.value];
    }
    return hub, states, None;
  }

  /** `sync`: with clashing markers nothing is journalled or changed; otherwise one pass over
      the snapshot's actions. */
  method Sync(store: Store, start: Hub, desired: map<SourceKey, Text>, wanted: seq<SourceKey>, owned: seq<SourceKey>, queue: Id,
              attempts: seq<Attempt>)
    returns (hub: Hub, mutation: bool, states: seq<OperationState>, failure: Option<Failure>)
    requires store.Valid() && (forall s :: s in wanted ==> s in desired)
    requires |attempts| >= |Creations(start, desired, wanted) + Closures(start, desired, owned)|
    modifies store
    ensures store.Valid()
    ensures Conflicts(start) != {} ==> store.db == old(store.db) && hub == start && !mutation && states == []
    ensures Conflicts(start) == {} ==>
      var actions := Creations(start, desired, wanted) + Closures(start, desired, owned);
      && (store.db, hub, failure) == Pass(old(store.db), start, actions, queue, attempts)
      && states == Answers(old(store.db), start, actions, queue, attempts) && (mutation <==> actions != [])
  {
    var actions, conflicts := Snapshot(start, desired, wanted, owned);
    if conflicts != {} {
      return start, false, [], None;
    }
    hub, states, failure := ApplyAll(store, start, actions, queue, attempts);
    mutation := actions != [];
  }

  // ---------- convergence ----------

  /** The source's issues, and whether they are on the queue, are as they were. */
  ghost predicate SameView(before: Hub, after: Hub, s: SourceKey) {
    && Holders(after, s) == Holders(before, s)
    && forall i :: i in Holders(before, s) ==>
         i in after.issues && after.issues[i] == before.issues[i] && (i in after.children <==> i in before.children)
  }

  lemma SoleHolds(hub: Hub, s: SourceKey)
    requires Sole(hub, s).Some?
    ensures Holders(hub, s) == {Sole(hub, s).value}
  {
    SoleExists(Holders(hub, s));
  }

  lemma PresentHasSole(hub: Hub, s: SourceKey)
    requires Present(hub, s)
    ensures Sole(hub, s).Some?
  {
  }

  lemma SameViewSame(before: Hub, after: Hub, s: SourceKey)
    requires SameView(before, after, s)
    ensures Present(after, s) <==> Present(before, s)
    ensures Sole(after, s) == Sole(before, s)
  {
    if Present(before, s) {
      var i :| i in Holders(before, s) && Holders(before, s) == {i} && before.issues[i].isOpen && i in before.children;
      assert i in Holders(after, s);
    }
    if Present(after, s) {
      var i :| i in Holders(after, s) && Holders(after, s) == {i} && after.issues[i].isOpen && i in after.children;
      assert i in Holders(before, s);
    }
    if |Holders(before, s)| == 1 {
      SoleHolds(before, s);
      SoleHolds(after, s);
      assert Sole(after, s).value in Holders(before, s);
    }
  }

  lemma SameViewThrough(a: Hub, b: Hub, c: Hub, s: SourceKey)
    requires SameView(a, b, s) && SameView(b, c, s)
    ensures SameView(a, c, s)
  {
  }

  /** A proposal whenever it is open. */
  predicate Titled(issue: Issue) {
    issue.proposal && !issue.pull
  }

  /** The action opens or closes a managed issue that is titled as a proposal. */
  predicate Stirs(hub: Hub, a: Action) {
    && a.issue.Some? && a.issue.value in hub.issues
    && Titled(hub.issues[a.issue.value]) && (hub.issues[a.issue.value].isOpen <==> !a.kind.Create?)
  }

  /** What completed actions make of the issues: their own are open or closed as they say, all
      others are as they were, and posted ones are titled as no proposal. */
  ghost predicate Flipped(hub: Hub, after: Hub, actions: seq<Action>) {
    && (forall i :: i in hub.issues ==> i in after.issues && after.issues[i] == hub.issues[i].(isOpen := after.issues[i].isOpen))
    && (forall i :: i in after.issues && i !in hub.issues ==> !Titled(after.issues[i]))
    && (forall a :: a in actions && a.issue.Some? && a.issue.value in hub.issues ==>
          a.issue.value in after.issues && after.issues[a.issue.value].isOpen == a.kind.Create?)
    && (forall i :: i in hub.issues && Spared(actions, i) ==> i in after.issues && after.issues[i] == hub.issues[i])
  }

  ghost predicate Spared(actions: seq<Action>, i: Id) {
    forall a :: a in actions ==> a.issue != Some(i)
  }

  ghost predicate SameProposals(before: Hub, after: Hub) {
    && (forall i :: i in before.issues && IsProposal(before.issues[i]) ==> i in after.issues && after.issues[i] == before.issues[i])
    && (forall i :: i in after.issues && IsProposal(after.issues[i]) ==> i in before.issues && after.issues[i] == before.issues[i])
  }

  /** The action is about its source as it stands. */
  ghost predicate Timely(hub: Hub, a: Action) {
    match a.kind
    case Create => |Holders(hub, a.source)| <= 1 && a.issue == Sole(hub, a.source)
    case Close => Present(hub, a.source) && a.issue == Sole(hub, a.source)
    case Move => false
  }

  /** What a completed action makes of its source. */
  ghost predicate Achieves(hub: Hub, a: Action) {
    if a.kind.Create? then Present(hub, a.source) else !Present(hub, a.source) && |Holders(hub, a.source)| == 1
  }

  lemma OneHolder(hub: Hub, s: SourceKey)
    requires |Holders(hub, s)| <= 1
    ensures Sole(hub, s).None? ==> Holders(hub, s) == {}
  {
  }

  lemma PostAchieves(hub: Hub, a: Action, id: Id)
    requires a.kind.Create? && a.issue.None? && Holders(hub, a.source) == {} && id !in hub.issues && id !in hub.children
    ensures var after := Written(hub, a, id, DONE);
      Achieves(after, a) && Flipped(hub, after, [a]) && forall s :: s != a.source ==> SameView(hub, after, s)
  {
  }

  lemma ReattachAchieves(hub: Hub, a: Action, id: Id, i: Id)
    requires a.kind.Create? && a.issue == Some(i) && Holders(hub, a.source) == {i}
    ensures var after := Written(hub, a, id, DONE);
      Achieves(after, a) && Flipped(hub, after, [a]) && forall s :: s != a.source ==> SameView(hub, after, s)
  {
  }

  lemma CloseAchieves(hub: Hub, a: Action, id: Id, i: Id)
    requires a.kind.Close? && a.issue == Some(i) && Holders(hub, a.source) == {i}
    ensures var after := Written(hub, a, id, DONE);
      Achieves(after, a) && Flipped(hub, after, [a]) && forall s :: s != a.source ==> SameView(hub, after, s)
  {
    var after := Written(hub, a, id, DONE);
    assert i in Holders(hub, a.source);
    assert Holders(after, a.source) == Holders(hub, a.source);
    EditFlips(hub, after, a, i);
    forall s | s != a.source ensures SameView(hub, after, s) {
      assert Holders(after, s) == Holders(hub, s);
    }
  }

  lemma EditFlips(hub: Hub, after: Hub, a: Action, i: Id)
    requires i in hub.issues && a.issue == Some(i)
    requires after.issues == hub.issues[i := hub.issues[i].(isOpen := a.kind.Create?)]
    ensures Flipped(hub, after, [a])
  {
  }

  /** One completed action settles its source and leaves every other as it was. */
  lemma {:induction false} WritingAchieves(hub: Hub, a: Action, id: Id)
    requires Timely(hub, a) && id !in hub.issues && id !in hub.children
    ensures var after := Written(hub, a, id, DONE);
      Achieves(after, a) && Flipped(hub, after, [a]) && forall s :: s != a.source ==> SameView(hub, after, s)
  {
    if a.kind.Close? {
      PresentHasSole(hub, a.source);
      SoleHolds(hub, a.source);
      CloseAchieves(hub, a, id, a.issue.value);
    } else if a.issue.Some? {
      SoleHolds(hub, a.source);
      ReattachAchieves(hub, a, id, a.issue.value);
    } else {
      OneHolder(hub, a.source);
      PostAchieves(hub, a, id);
    }
  }

  ghost predicate DistinctSources(actions: seq<Action>) {
    forall i, j :: 0 <= i < j < |actions| ==> actions[i].source != actions[j].source
  }

  /** Fresh issue numbers and row numbers, and writes that succeed. */
  ghost predicate Smooth(db: Database, hub: Hub, actions: seq<Action>, queue: Id, attempts: seq<Attempt>) {
    && |attempts| >= |actions|
    && (forall i :: 0 <= i < |actions| ==>
          && attempts[i].fate.ending.Completes? && attempts[i].id !in hub.issues && attempts[i].id !in hub.children
          && attempts[i].operation !in db.operations && Journals.WithKey(db.operations, KeyOf(actions[i], queue)) == {})
    && (forall i, j :: 0 <= i < j < |actions| ==> attempts[i].id != attempts[j].id && attempts[i].operation != attempts[j].operation)
  }

  ghost predicate AllTimely(hub: Hub, actions: seq<Action>) {
    forall i :: 0 <= i < |actions| ==> Timely(hub, actions[i])
  }

  lemma FreshReserves(db: Database, id: Id, key: OperationKey, source: SourceKey, kind: OperationKind, precondition: Precondition)
    requires Journals.WithKey(db.operations, key) == {} && id !in db.operations
    ensures Journals.ReserveOperation(db, id, key, source, kind, precondition)
         == Commit(db.(operations := db.operations[id := Operation(key, source, kind, precondition, Planned)]), id)
  {
  }

  lemma PlannedApplies(db: Database, hub: Hub, a: Action, row: Id, id: Id, fate: Fate)
    requires row in db.operations && db.operations[row].state.Planned? && fate.ending.Completes? && StillManaged(hub, a)
    ensures var one := AppliedTo(db, hub, a, row, id, fate);
      && one.hub == Written(hub, a, id, DONE) && one.state.Succeeded?
      && one.db.operations == db.operations[row := db.operations[row].(state := OperationState.Succeeded)]
  {
  }

  /** The row a completed action leaves behind. */
  function DoneRow(a: Action, queue: Id): Operation {
    Operation(KeyOf(a, queue), a.source, a.kind, PreconditionOf(a, queue), OperationState.Succeeded)
  }

  lemma FreshApplied(db: Database, hub: Hub, a: Action, queue: Id, with: Attempt) returns (one: Applied)
    requires with.fate.ending.Completes? && StillManaged(hub, a)
    requires with.operation !in db.operations && Journals.WithKey(db.operations, KeyOf(a, queue)) == {}
    ensures var tx := Journals.ReserveOperation(db, with.operation, KeyOf(a, queue), a.source, a.kind, PreconditionOf(a, queue));
      && tx.Commit? && tx.value == with.operation && tx.value in tx.db.operations
      && one == AppliedTo(tx.db, hub, a, tx.value, with.id, with.fate)
    ensures one.state == OperationState.Succeeded && one.hub == Written(hub, a, with.id, DONE)
    ensures one.db.operations == db.operations[with.operation := DoneRow(a, queue)]
  {
    FreshReserves(db, with.operation, KeyOf(a, queue), a.source, a.kind, PreconditionOf(a, queue));
    var row := Operation(KeyOf(a, queue), a.source, a.kind, PreconditionOf(a, queue), Planned);
    var reserved := db.(operations := db.operations[with.operation := row]);
    PlannedApplies(reserved, hub, a, with.operation, with.id, with.fate);
    one := AppliedTo(reserved, hub, a, with.operation, with.id, with.fate);
  }

  /** With a fresh key the first action is applied, and its row ends succeeded under its key. */
  lemma FreshApplies(db: Database, hub: Hub, actions: seq<Action>, queue: Id, attempts: seq<Attempt>) returns (after: Database)
    requires actions != [] && Smooth(db, hub, actions, queue, attempts) && StillManaged(hub, actions[0])
    ensures Pass(db, hub, actions, queue, attempts)
         == Pass(after, Written(hub, actions[0], attempts[0].id, DONE), actions[1..], queue, attempts[1..])
    ensures Answers(db, hub, actions, queue, attempts) == [OperationState.Succeeded]
         + Answers(after, Written(hub, actions[0], attempts[0].id, DONE), actions[1..], queue, attempts[1..])
    ensures after.operations == db.operations[attempts[0].operation := DoneRow(actions[0], queue)]
  {
    var one := FreshApplied(db, hub, actions[0], queue, attempts[0]);
    after := one.db;
  }

  lemma TimelyIsManaged(hub: Hub, a: Action)
    requires Timely(hub, a)
    ensures StillManaged(hub, a)
  {
  }

  lemma StillTimely(before: Hub, after: Hub, a: Action)
    requires Timely(before, a) && SameView(before, after, a.source)
    ensures Timely(after, a)
  {
    SameViewSame(before, after, a.source);
  }

  lemma RestSmooth(db: Database, hub: Hub, actions: seq<Action>, queue: Id, attempts: seq<Attempt>, after: Database)
    requires actions != [] && Smooth(db, hub, actions, queue, attempts) && DistinctSources(actions)
    requires after.operations == db.operations[attempts[0].operation := DoneRow(actions[0], queue)]
    requires Timely(hub, actions[0])
    ensures Smooth(after, Written(hub, actions[0], attempts[0].id, DONE), actions[1..], queue, attempts[1..])
  {
  }

  lemma RestTimely(hub: Hub, next: Hub, actions: seq<Action>)
    requires actions != [] && DistinctSources(actions) && AllTimely(hub, actions)
    requires forall s :: s != actions[0].source ==> SameView(hub, next, s)
    ensures AllTimely(next, actions[1..]) && DistinctSources(actions[1..])
    ensures forall a :: a in actions[1..] ==> a.source != actions[0].source
  {
    forall i | 0 <= i < |actions[1..]| ensures Timely(next, actions[1..][i]) {
      assert actions[1..][i] == actions[i + 1];
      StillTimely(hub, next, actions[i + 1]);
    }
  }

  /** Every planned action achieves its end, and sources without one stay as they were. */
  ghost predicate PassAchieves(hub: Hub, after: Hub, actions: seq<Action>) {
    && (forall a :: a in actions ==> Achieves(after, a))
    && (forall s :: (forall a :: a in actions ==> a.source != s) ==> SameView(hub, after, s))
    && Flipped(hub, after, actions)
  }

  lemma AchievedStays(middle: Hub, after: Hub, a: Action)
    requires Achieves(middle, a) && SameView(middle, after, a.source)
    ensures Achieves(after, a)
  {
  }

  /** Actions about different sources are about different issues. */
  lemma IssuesApart(hub: Hub, actions: seq<Action>)
    requires actions != [] && AllTimely(hub, actions) && DistinctSources(actions)
    ensures forall a :: a in actions[1..] ==> a.issue.Some? ==> a.issue != actions[0].issue
  {
  }

  lemma FlipsCompose(hub: Hub, middle: Hub, after: Hub, actions: seq<Action>)
    requires actions != [] && Flipped(hub, middle, [actions[0]]) && Flipped(middle, after, actions[1..])
    requires forall a :: a in actions[1..] ==> a.issue.Some? ==> a.issue != actions[0].issue
    ensures Flipped(hub, after, actions)
  {
    var first := actions[0];
    assert first in [first] && forall a :: a in actions ==> a == first || a in actions[1..];
    if first.issue.Some? && first.issue.value in hub.issues {
      assert Spared(actions[1..], first.issue.value);
    }
    forall i | i in hub.issues && Spared(actions, i) ensures after.issues[i] == hub.issues[i] {
      assert first in actions;
      assert Spared([first], i);
      forall a | a in actions[1..] ensures a.issue != Some(i) {
        assert a in actions;
      }
      assert Spared(actions[1..], i);
    }
  }

  lemma PassThrough(hub: Hub, middle: Hub, after: Hub, actions: seq<Action>)
    requires actions != [] && Achieves(middle, actions[0]) && Flipped(hub, middle, [actions[0]])
    requires forall a :: a in actions[1..] ==> a.issue.Some? ==> a.issue != actions[0].issue
    requires forall s :: s != actions[0].source ==> SameView(hub, middle, s)
    requires forall a :: a in actions[1..] ==> a.source != actions[0].source
    requires PassAchieves(middle, after, actions[1..])
    ensures PassAchieves(hub, after, actions)
  {
    assert actions == [actions[0]] + actions[1..];
    FlipsCompose(hub, middle, after, actions);
    assert SameView(middle, after, actions[0].source);
    AchievedStays(middle, after, actions[0]);
    forall s | forall a :: a in actions ==> a.source != s ensures SameView(hub, after, s) {
      assert actions[0] in actions;
      assert forall a :: a in actions[1..] ==> a in actions;
      SameViewThrough(hub, middle, after, s);
    }
  }

  /** A smooth pass achieves every planned action, in whatever order they come. */
  lemma {:induction false} PassesAchieve(db: Database, hub: Hub, actions: seq<Action>, queue: Id, attempts: seq<Attempt>)
    requires Smooth(db, hub, actions, queue, attempts) && DistinctSources(actions) && AllTimely(hub, actions)
    ensures Pass(db, hub, actions, queue, attempts).2.None?
    ensures PassAchieves(hub, Pass(db, hub, actions, queue, attempts).1, actions)
    decreases actions
  {
    if actions != [] {
      TimelyIsManaged(hub, actions[0]);
      var after := FreshApplies(db, hub, actions, queue, attempts);
      var next := Written(hub, actions[0], attempts[0].id, DONE);
      WritingAchieves(hub, actions[0], attempts[0].id);
      RestSmooth(db, hub, actions, queue, attempts, after);
      RestTimely(hub, next, actions);
      IssuesApart(hub, actions);
      PassesAchieve(after, next, actions[1..], queue, attempts[1..]);
      PassThrough(hub, next, Pass(after, next, actions[1..], queue, attempts[1..]).1, actions);
    }
  }

  // ---------- what is planned ----------

  lemma CreationIsTimely(hub: Hub, s: SourceKey, content: Text)
    ensures Creation(hub, s, content).Some? ==> Timely(hub, Creation(hub, s, content).value) && Creation(hub, s, content).value.source == s
    ensures Creation(hub, s, content).Some? ==> Creation(hub, s, content).value.kind.Create?
    ensures Creation(hub, s, content).Some? <==> |Holders(hub, s)| <= 1 && !Present(hub, s)
  {
  }

  lemma ClosureIsTimely(hub: Hub, s: SourceKey, desired: map<SourceKey, Text>)
    ensures Closure(hub, s, desired).Some? ==> Timely(hub, Closure(hub, s, desired).value) && Closure(hub, s, desired).value.source == s
    ensures Closure(hub, s, desired).Some? ==> Closure(hub, s, desired).value.kind.Close?
    ensures Closure(hub, s, desired).Some? <==> s !in desired && Present(hub, s)
  {
  }

  predicate NoRepeats(ss: seq<SourceKey>) {
    forall i, j :: 0 <= i < j < |ss| ==> ss[i] != ss[j]
  }

  /** The planned actions of some sources: timely, one source each, exactly where `planned` says. */
  ghost predicate PlanOf(hub: Hub, actions: seq<Action>, sources: set<SourceKey>, kind: OperationKind) {
    && AllTimely(hub, actions) && DistinctSources(actions)
    && (forall a :: a in actions ==> a.source in sources && a.kind == kind)
    && (forall s :: s in sources ==> exists a :: a in actions && a.source == s)
  }

  function ToCreate(hub: Hub, wanted: seq<SourceKey>): set<SourceKey> {
    set s | s in wanted && |Holders(hub, s)| <= 1 && !Present(hub, s)
  }

  function ToClose(hub: Hub, desired: map<SourceKey, Text>, owned: seq<SourceKey>): set<SourceKey> {
    set s | s in owned && s !in desired && Present(hub, s)
  }

  lemma PlanGrows(hub: Hub, actions: seq<Action>, sources: set<SourceKey>, kind: OperationKind, a: Action)
    requires PlanOf(hub, actions, sources, kind) && Timely(hub, a) && a.kind == kind && a.source !in sources
    ensures PlanOf(hub, actions + [a], sources + {a.source}, kind)
  {
  }

  lemma {:induction false} CreationsPlan(hub: Hub, desired: map<SourceKey, Text>, wanted: seq<SourceKey>)
    requires NoRepeats(wanted) && forall s :: s in wanted ==> s in desired
    ensures PlanOf(hub, Creations(hub, desired, wanted), ToCreate(hub, wanted), OperationKind.Create)
  {
    if wanted != [] {
      var init, last := wanted[..|wanted| - 1], wanted[|wanted| - 1];
      CreationsPlan(hub, desired, init);
      CreationIsTimely(hub, last, desired[last]);
      assert wanted == init + [last];
      if Creation(hub, last, desired[last]).Some? {
        PlanGrows(hub, Creations(hub, desired, init), ToCreate(hub, init), OperationKind.Create, Creation(hub, last, desired[last]).value);
        assert ToCreate(hub, wanted) == ToCreate(hub, init) + {last};
      } else {
        assert ToCreate(hub, wanted) == ToCreate(hub, init);
      }
    }
  }

  lemma {:induction false} ClosuresPlan(hub: Hub, desired: map<SourceKey, Text>, owned: seq<SourceKey>)
    requires NoRepeats(owned)
    ensures PlanOf(hub, Closures(hub, desired, owned), ToClose(hub, desired, owned), OperationKind.Close)
  {
    if owned != [] {
      var init, last := owned[..|owned| - 1], owned[|owned| - 1];
      ClosuresPlan(hub, desired, init);
      ClosureIsTimely(hub, last, desired);
      assert owned == init + [last];
      if Closure(hub, last, desired).Some? {
        PlanGrows(hub, Closures(hub, desired, init), ToClose(hub, desired, init), OperationKind.Close, Closure(hub, last, desired).value);
        assert ToClose(hub, desired, owned) == ToClose(hub, desired, init) + {last};
      } else {
        assert ToClose(hub, desired, owned) == ToClose(hub, desired, init);
      }
    }
  }

  lemma PlansCombine(hub: Hub, first: seq<Action>, second: seq<Action>, creating: set<SourceKey>, closing: set<SourceKey>)
    requires PlanOf(hub, first, creating, OperationKind.Create) && PlanOf(hub, second, closing, OperationKind.Close) && creating !! closing
    ensures AllTimely(hub, first + second) && DistinctSources(first + second)
  {
  }

  /** What the two passes over all desired and all managed sources plan. */
  ghost predicate Listing(hub: Hub, desired: map<SourceKey, Text>, wanted: seq<SourceKey>, owned: seq<SourceKey>) {
    && NoRepeats(wanted) && (forall s :: s in wanted <==> s in desired)
    && NoRepeats(owned) && (forall s :: s in owned <==> s in Sources(hub))
  }

  function Actions(hub: Hub, desired: map<SourceKey, Text>, wanted: seq<SourceKey>, owned: seq<SourceKey>): seq<Action>
    requires forall s :: s in wanted ==> s in desired
  {
    Creations(hub, desired, wanted) + Closures(hub, desired, owned)
  }

  lemma ActionsPlan(hub: Hub, desired: map<SourceKey, Text>, wanted: seq<SourceKey>, owned: seq<SourceKey>)
    requires Listing(hub, desired, wanted, owned)
    ensures var actions := Actions(hub, desired, wanted, owned);
      && AllTimely(hub, actions) && DistinctSources(actions)
      && (forall a :: a in actions ==> a.source in (if a.kind.Create? then ToCreate(hub, wanted) else ToClose(hub, desired, owned)))
      && (forall s :: s in ToCreate(hub, wanted) ==> exists a :: a in actions && a.source == s && a.kind.Create?)
      && (forall s :: s in ToClose(hub, desired, owned) ==> exists a :: a in actions && a.source == s && a.kind.Close?)
  {
    CreationsPlan(hub, desired, wanted);
    ClosuresPlan(hub, desired, owned);
    PlansCombine(hub, Creations(hub, desired, wanted), Closures(hub, desired, owned), ToCreate(hub, wanted), ToClose(hub, desired, owned));
  }

  /** The sources of the open marker-owned children of the queue. */
  function QueueSources(hub: Hub): set<SourceKey> {
    set i | i in hub.children && i in hub.issues && hub.issues[i].isOpen && hub.issues[i].mark.Marked? :: hub.issues[i].mark.source
  }

  lemma PresentOnQueue(hub: Hub, s: SourceKey)
    ensures Present(hub, s) ==> s in QueueSources(hub)
    ensures |Holders(hub, s)| == 1 && s in QueueSources(hub) ==> Present(hub, s)
  {
    if |Holders(hub, s)| == 1 && s in QueueSources(hub) {
      var i :| i in hub.children && i in hub.issues && hub.issues[i].isOpen && hub.issues[i].mark == Marked(s);
      SoleExists(Holders(hub, s));
      assert i in Holders(hub, s);
      assert Holders(hub, s) == {i};
    }
  }

  lemma NoConflictHolders(hub: Hub, s: SourceKey)
    requires Conflicts(hub) == {}
    ensures |Holders(hub, s)| <= 1
  {
    if Holders(hub, s) != {} {
      var i :| i in Holders(hub, s);
      assert s in Sources(hub);
      assert s !in Conflicts(hub);
    }
  }

  /** After a pass, a source is on the queue exactly when it is desired, under one marker. */
  lemma {:induction false} SettledSource(hub: Hub, after: Hub, desired: map<SourceKey, Text>, wanted: seq<SourceKey>, owned: seq<SourceKey>,
                                         s: SourceKey)
    requires Listing(hub, desired, wanted, owned) && Conflicts(hub) == {}
    requires PassAchieves(hub, after, Actions(hub, desired, wanted, owned))
    ensures |Holders(after, s)| <= 1 && (Present(after, s) <==> s in desired)
  {
    ActionsPlan(hub, desired, wanted, owned);
    var actions := Actions(hub, desired, wanted, owned);
    NoConflictHolders(hub, s);
    if a :| a in actions && a.source == s {
      assert Achieves(after, a);
      PresentHolders(after, s);
    } else {
      assert SameView(hub, after, s);
      SameViewSame(hub, after, s);
      if Present(hub, s) {
        var i :| i in Holders(hub, s);
        assert s in Sources(hub);
      }
      assert s !in ToCreate(hub, wanted) && s !in ToClose(hub, desired, owned);
    }
  }

  lemma PresentHolders(hub: Hub, s: SourceKey)
    ensures Present(hub, s) ==> |Holders(hub, s)| == 1
  {
  }

  lemma SameDesired(hub: Hub, after: Hub, given: map<SourceKey, Text>)
    requires SameProposals(hub, after)
    ensures Desired(after, given) == Desired(hub, given)
  {
  }

  lemma {:induction false} NothingToCreate(hub: Hub, desired: map<SourceKey, Text>, wanted: seq<SourceKey>)
    requires forall s :: s in wanted ==> s in desired && Present(hub, s)
    ensures Creations(hub, desired, wanted) == []
  {
    if wanted != [] {
      NothingToCreate(hub, desired, wanted[..|wanted| - 1]);
      CreationIsTimely(hub, wanted[|wanted| - 1], desired[wanted[|wanted| - 1]]);
    }
  }

  lemma {:induction false} NothingToClose(hub: Hub, desired: map<SourceKey, Text>, owned: seq<SourceKey>)
    requires forall s :: Present(hub, s) ==> s in desired
    ensures Closures(hub, desired, owned) == []
  {
    if owned != [] {
      NothingToClose(hub, desired, owned[..|owned| - 1]);
      ClosureIsTimely(hub, owned[|owned| - 1], desired);
    }
  }

  lemma SettledPlansNothing(hub: Hub, desired: map<SourceKey, Text>, wanted: seq<SourceKey>, owned: seq<SourceKey>)
    requires Listing(hub, desired, wanted, owned) && forall s :: Present(hub, s) <==> s in desired
    ensures Actions(hub, desired, wanted, owned) == []
  {
    NothingToCreate(hub, desired, wanted);
    NothingToClose(hub, desired, owned);
  }

  /** The hub after one pass of `sync` over everything its snapshot planned. */
  ghost function Synced(db: Database, hub: Hub, given: map<SourceKey, Text>, wanted: seq<SourceKey>, owned: seq<SourceKey>, queue: Id,
                        attempts: seq<Attempt>): (Database, Hub, Option<Failure>)
    requires Listing(hub, Desired(hub, given), wanted, owned)
    requires Smooth(db, hub, Actions(hub, Desired(hub, given), wanted, owned), queue, attempts)
  {
    Pass(db, hub, Actions(hub, Desired(hub, given), wanted, owned), queue, attempts)
  }

  /** With no clashing markers, keys not used before and writes that succeed, one pass makes
      the open marker-owned children of the queue exactly the desired ones, each under one
      marker. */
  lemma {:induction false} SyncSettles(db: Database, hub: Hub, given: map<SourceKey, Text>, wanted: seq<SourceKey>, owned: seq<SourceKey>,
                                       queue: Id, attempts: seq<Attempt>)
    requires Conflicts(hub) == {} && Listing(hub, Desired(hub, given), wanted, owned)
    requires Smooth(db, hub, Actions(hub, Desired(hub, given), wanted, owned), queue, attempts)
    ensures var end := Synced(db, hub, given, wanted, owned, queue, attempts);
      && end.2.None? && Conflicts(end.1) == {} && QueueSources(end.1) == Desired(hub, given).Keys
      && PassAchieves(hub, end.1, Actions(hub, Desired(hub, given), wanted, owned))
      && forall s :: |Holders(end.1, s)| <= 1 && (Present(end.1, s) <==> s in Desired(hub, given))
  {
    var desired := Desired(hub, given);
    ActionsPlan(hub, desired, wanted, owned);
    PassesAchieve(db, hub, Actions(hub, desired, wanted, owned), queue, attempts);
    var after := Synced(db, hub, given, wanted, owned, queue, attempts).1;
    forall s ensures |Holders(after, s)| <= 1 && (Present(after, s) <==> s in desired) {
      SettledSource(hub, after, desired, wanted, owned, s);
    }
    QueueIsDesired(after, desired);
  }

  lemma UnstirredSame(hub: Hub, after: Hub, actions: seq<Action>)
    requires Flipped(hub, after, actions) && forall a :: a in actions ==> !Stirs(hub, a)
    ensures SameProposals(hub, after)
  {
  }

  /** A proposal that a pass opened is not on the queue yet; one that it closed still is. */
  lemma StirredReplans(hub: Hub, after: Hub, given: map<SourceKey, Text>, actions: seq<Action>, a: Action,
                       wanted: seq<SourceKey>, owned: seq<SourceKey>)
    requires Flipped(hub, after, actions) && a in actions && Stirs(hub, a) && forall k :: k in given ==> !k.Proposal?
    requires forall s :: |Holders(after, s)| <= 1 && (Present(after, s) <==> s in Desired(hub, given))
    requires Listing(after, Desired(after, given), wanted, owned)
    ensures Actions(after, Desired(after, given), wanted, owned) != []
  {
    var i, desired := a.issue.value, Desired(after, given);
    var s := Proposal(i);
    assert IsProposal(after.issues[i]) <==> a.kind.Create?;
    assert IsProposal(hub.issues[i]) <==> !a.kind.Create?;
    assert s in Desired(hub, given) <==> IsProposal(hub.issues[i]) by {
      assert s in ProposalKeys(hub) <==> IsProposal(hub.issues[i]);
    }
    assert s in desired <==> IsProposal(after.issues[i]) by {
      assert s in ProposalKeys(after) <==> IsProposal(after.issues[i]);
    }
    assert |Holders(after, s)| <= 1 && (Present(after, s) <==> s in Desired(hub, given));
    ActionsPlan(after, desired, wanted, owned);
    if a.kind.Create? {
      assert s in ToCreate(after, wanted);
    } else {
      PresentHolders(after, s);
      var j :| j in Holders(after, s);
      assert s in Sources(after);
      assert s in ToClose(after, desired, owned);
    }
  }

  /** One pass of `sync` converges, so that a second snapshot plans nothing, if and only if
      none of its actions opens or closes a managed issue titled as a proposal. */
  lemma {:induction false} SyncConvergesExactly(db: Database, hub: Hub, given: map<SourceKey, Text>, wanted: seq<SourceKey>,
                                                owned: seq<SourceKey>, queue: Id, attempts: seq<Attempt>, wanted2: seq<SourceKey>,
                                                owned2: seq<SourceKey>)
    requires Conflicts(hub) == {} && Listing(hub, Desired(hub, given), wanted, owned) && forall k :: k in given ==> !k.Proposal?
    requires Smooth(db, hub, Actions(hub, Desired(hub, given), wanted, owned), queue, attempts)
    requires var after := Synced(db, hub, given, wanted, owned, queue, attempts).1; Listing(after, Desired(after, given), wanted2, owned2)
    ensures var after := Synced(db, hub, given, wanted, owned, queue, attempts).1;
      Actions(after, Desired(after, given), wanted2, owned2) == []
      <==> forall a :: a in Actions(hub, Desired(hub, given), wanted, owned) ==> !Stirs(hub, a)
  {
    var actions := Actions(hub, Desired(hub, given), wanted, owned);
    var after := Synced(db, hub, given, wanted, owned, queue, attempts).1;
    SyncSettles(db, hub, given, wanted, owned, queue, attempts);
    if a :| a in actions && Stirs(hub, a) {
      StirredReplans(hub, after, given, actions, a, wanted2, owned2);
    } else {
      UnstirredSame(hub, after, actions);
      SameDesired(hub, after, given);
      SettledPlansNothing(after, Desired(after, given), wanted2, owned2);
    }
  }

  lemma QueueIsDesired(hub: Hub, desired: map<SourceKey, Text>)
    requires forall s :: |Holders(hub, s)| <= 1 && (Present(hub, s) <==> s in desired)
    ensures QueueSources(hub) == desired.Keys && Conflicts(hub) == {}
  {
    forall s ensures s in QueueSources(hub) <==> s in desired {
      PresentOnQueue(hub, s);
      if s in QueueSources(hub) {
        var i :| i in hub.issues && hub.issues[i].mark == Marked(s);
        assert i in Holders(hub, s);
      }
    }
    forall s | s in Sources(hub) ensures |Holders(hub, s)| == 1 {
      var i :| i in hub.issues && hub.issues[i].mark == Marked(s);
      assert i in Holders(hub, s);
    }
  }

  /** Unmarked issues are as they were, and no issue lost, gained or changed its marker. */
  ghost predicate Untouched(before: Hub, after: Hub) {
    forall i :: i in before.issues ==>
      && i in after.issues && after.issues[i].mark == before.issues[i].mark
      && (before.issues[i].mark.Unmarked? ==> after.issues[i] == before.issues[i])
  }

  /** The action's issue, where it exists, carries a marker. */
  predicate Owned(hub: Hub, a: Action) {
    a.issue.Some? && a.issue.value in hub.issues ==> hub.issues[a.issue.value].mark.Marked?
  }

  lemma WritingTouchesOnlyMarked(hub: Hub, a: Action, id: Id, fate: Fate)
    requires id !in hub.issues && Owned(hub, a)
    ensures var after := Written(hub, a, id, fate); Untouched(hub, after) && after.issues.Keys <= hub.issues.Keys + {id}
  {
  }

  ghost predicate NewIds(hub: Hub, actions: seq<Action>, attempts: seq<Attempt>) {
    && |attempts| >= |actions|
    && (forall i :: 0 <= i < |actions| ==> attempts[i].id !in hub.issues && Owned(hub, actions[i]))
    && (forall i :: 0 <= i < |actions| && actions[i].issue.Some? ==> actions[i].issue.value in hub.issues)
    && (forall i, j :: 0 <= i < j < |actions| ==> attempts[i].id != attempts[j].id)
  }

  lemma RestNew(hub: Hub, next: Hub, actions: seq<Action>, attempts: seq<Attempt>)
    requires actions != [] && NewIds(hub, actions, attempts) && Untouched(hub, next)
    requires next.issues.Keys <= hub.issues.Keys + {attempts[0].id}
    ensures NewIds(next, actions[1..], attempts[1..])
  {
  }

  /** However many writes of a pass fail, at whatever point, it changes no issue without a
      governance marker. */
  lemma {:induction false} PassesTouchOnlyMarked(db: Database, hub: Hub, actions: seq<Action>, queue: Id, attempts: seq<Attempt>)
    requires NewIds(hub, actions, attempts)
    ensures Untouched(hub, Pass(db, hub, actions, queue, attempts).1)
    decreases actions
  {
    if actions != [] {
      var a, with := actions[0], attempts[0];
      var tx := Journals.ReserveOperation(db, with.operation, KeyOf(a, queue), a.source, a.kind, PreconditionOf(a, queue));
      if tx.Commit? && tx.value in tx.db.operations {
        var one := AppliedTo(tx.db, hub, a, tx.value, with.id, with.fate);
        WritingTouchesOnlyMarked(hub, a, with.id, with.fate);
        RestNew(hub, one.hub, actions, attempts);
        PassesTouchOnlyMarked(one.db, one.hub, actions[1..], queue, attempts[1..]);
      }
    }
  }

  /** An issue whose marker is gone when it is to be reopened is left alone, and the journal
      row is dead-lettered. */
  lemma LostMarkerIsDeadLettered(db: Database, hub: Hub, a: Action, row: Id, id: Id, fate: Fate)
    requires row in db.operations && db.operations[row].state.Planned?
    requires a.kind.Create? && a.issue.Some? && a.issue.value in hub.issues && hub.issues[a.issue.value].mark.Unmarked?
    ensures var one := AppliedTo(db, hub, a, row, id, fate);
      && one.hub == hub && one.state.DeadLetter?
      && one.db.operations == db.operations[row := db.operations[row].(state := OperationState.DeadLetter)]
  {
  }

  /** A managed issue titled as an open proposal defeats convergence: closing it removes the
      very proposal the queue was asked to hold. */
  lemma ManagedProposalUndoesItself(i: Id, s: SourceKey, title: Text, queue: Id)
    requires s != Proposal(i)
    ensures var issue := Issue(true, Marked(s), true, false, title, 1);
      var hub := Hub(map[i := issue], {i});
      && Proposal(i) in Desired(hub, map[]) && Closure(hub, s, Desired(hub, map[])).Some?
      && Proposal(i) !in Desired(Written(hub, Closure(hub, s, Desired(hub, map[])).value, i + 1, DONE), map[])
  {
    var issue := Issue(true, Marked(s), true, false, title, 1);
    var hub := Hub(map[i := issue], {i});
    assert IsProposal(hub.issues[i]);
    assert Holders(hub, s) == {i};
    assert Present(hub, s);
    ClosureIsTimely(hub, s, Desired(hub, map[]));
    var a := Closure(hub, s, Desired(hub, map[])).value;
    SoleHolds(hub, s);
    assert a.issue == Some(i);
    var after := Written(hub, a, i + 1, DONE);
    assert after.issues == map[i := issue.(isOpen := false)];
  }
}
