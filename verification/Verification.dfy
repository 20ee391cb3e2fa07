/** Ambiguous writes and their proof: a controller write leaves at most one item under its
    marker, so a marker search never meets a conflict of the controller's own making, and
    resolving settles exactly the rows that were proved one way or the other. */
module Verification {
  import opened Outcomes
  import opened Tables
  import opened Stores
  import Brokers
  import Journals

  datatype Proof = Present | Absent | Clashing | Unknown

  // ---------- the remote side ----------

  /** Remote items with the idempotency keys whose marker their body carries. */
  type Remote = map<Id, set<Text>>

  /** One request of a backend program: create an item, or rewrite one, keeping its body or
      not. Only a marked write puts the running key's marker into the body. */
  datatype RemoteWrite = Post(id: Id, marked: bool) | Patch(id: Id, kept: bool, marked: bool)

  predicate AtMostOneMarked(writes: seq<RemoteWrite>) {
    forall i, j :: 0 <= i < j < |writes| ==> !(writes[i].marked && writes[j].marked)
  }

  function Sent(remote: Remote, key: Text, w: RemoteWrite): Remote {
    match w
    case Post(id, marked) => if id in remote then remote else remote[id := if marked then {key} else {}]
    case Patch(id, kept, marked) =>
      if id !in remote then remote
      else remote[id := (if kept then remote[id] else {}) + (if marked then {key} else {})]
  }

  /** The program of one request, up to wherever it stopped. */
  function Ran(remote: Remote, key: Text, writes: seq<RemoteWrite>): Remote {
    if writes == [] then remote else Sent(Ran(remote, key, writes[..|writes| - 1]), key, writes[|writes| - 1])
  }

  function Carriers(remote: Remote, key: Text): set<Id> {
    set i | i in remote && key in remote[i]
  }

  /** What `execute` was asked for, with the numbers the remote side gives what it creates. A
      move adds the issue to the project, perhaps, and sets its stage. */
  datatype Call =
    | Reading
    | CreateIssue(issue: Id, link: Option<Id>, moves: nat)
    | CommentIssue(comment: Id)
    | RouteIssue(issue: Id)
    | MoveIssue(issue: Id, moves: nat)
    | CloseIssue(issue: Id, comment: Id, moves: nat)   // done or dropped
    | CreatePull(pull: Id)
    | UpdatePull(pull: Id, newBody: bool)
    | CommentPull(comment: Id)
    | ReviewPull(review: Id)
    | Submit(blobs: seq<Id>, tree: Id, commit: Id, ref: Id)
    | RunWorker

  /** Requests that create things under no marker, or that leave bodies as they are. */
  function Plain(ids: seq<Id>): seq<RemoteWrite> {
    seq(|ids|, i requires 0 <= i < |ids| => Post(ids[i], false))
  }

  function Quiet(id: Id, n: nat): seq<RemoteWrite> {
    seq(n, _ => Patch(id, true, false))
  }

  /** The requests of `execute` and `_submit` that change something, in order. */
  function Program(call: Call): seq<RemoteWrite> {
    match call
    case Reading => []
    case CreateIssue(issue, link, moves) => [Post(issue, true)] + (Plain(if link.Some? then [link.value] else []) + Quiet(issue, moves))
    case CommentIssue(comment) => [Post(comment, true)]
    case RouteIssue(issue) => Quiet(issue, 1)
    case MoveIssue(issue, moves) => Quiet(issue, moves)
    case CloseIssue(issue, comment, moves) => [Post(comment, true)] + Quiet(issue, moves + 1)
    case CreatePull(pull) => [Post(pull, true)]
    case UpdatePull(pull, newBody) => [Patch(pull, !newBody, false)]
    case CommentPull(comment) => [Post(comment, true)]
    case ReviewPull(review) => [Post(review, true)]
    case Submit(blobs, tree, commit, ref) => Plain(blobs + [tree]) + ([Post(commit, true)] + Plain([ref]))
    case RunWorker => []
  }

  predicate NoneMarked(writes: seq<RemoteWrite>) {
    forall i :: 0 <= i < |writes| ==> !writes[i].marked
  }

  lemma MarkedBetween(before: seq<RemoteWrite>, id: Id, after: seq<RemoteWrite>)
    requires NoneMarked(before) && NoneMarked(after)
    ensures AtMostOneMarked(before + ([Post(id, true)] + after))
  {
    var writes := before + ([Post(id, true)] + after);
    forall i | 0 <= i < |writes| && i != |before| ensures !writes[i].marked {
      if i > |before| {
        assert writes[i] == after[i - |before| - 1];
      }
    }
  }

  /** Every operation of the backend puts the running key's marker into one item at most. */
  lemma {:induction false} ProgramsMarkOnce(call: Call)
    ensures AtMostOneMarked(Program(call))
  {
    match call
    case CreateIssue(issue, link, moves) =>
      var rest := Plain(if link.Some? then [link.value] else []) + Quiet(issue, moves);
      MarkedBetween([], issue, rest);
      assert [] + ([Post(issue, true)] + rest) == Program(call);
    case CloseIssue(issue, comment, moves) =>
      MarkedBetween([], comment, Quiet(issue, moves + 1));
      assert [] + ([Post(comment, true)] + Quiet(issue, moves + 1)) == Program(call);
    case Submit(blobs, tree, commit, ref) => MarkedBetween(Plain(blobs + [tree]), commit, Plain([ref]));
    case _ =>
  }

  /** One side effect: the request, what it asks of the backend, and how much of that was sent. */
  datatype Effect = Effect(ask: Brokers.Ask, call: Call, sent: nat)

  predicate Sendable(e: Effect) {
    e.sent <= |Program(e.call)| && (e.ask.operation.Read? ==> e.call.Reading?)
  }

  ghost predicate AllSendable(effects: seq<Effect>) {
    forall i :: 0 <= i < |effects| ==> Sendable(effects[i])
  }

  function Asks(effects: seq<Effect>): seq<Brokers.Ask> {
    seq(|effects|, i requires 0 <= i < |effects| => effects[i].ask)
  }

  function World(remote: Remote, effects: seq<Effect>): Remote
    requires forall i :: 0 <= i < |effects| ==> effects[i].sent <= |Program(effects[i].call)|
  {
    if effects == [] then remote
    else
      var last := effects[|effects| - 1];
      Ran(World(remote, effects[..|effects| - 1]), last.ask.key, Program(last.call)[..last.sent])
  }

  lemma {:induction false} OthersUncarried(remote: Remote, key: Text, writes: seq<RemoteWrite>, other: Text)
    requires other != key
    ensures Carriers(Ran(remote, key, writes), other) <= Carriers(remote, other)
  {
    if writes != [] {
      OthersUncarried(remote, key, writes[..|writes| - 1], other);
    }
  }

  predicate SomeMarked(writes: seq<RemoteWrite>) {
    exists i :: 0 <= i < |writes| && writes[i].marked
  }

  /** From a world without the marker: no marked write leaves none, and one leaves at most one. */
  lemma {:induction false} CarriedOnce(remote: Remote, key: Text, writes: seq<RemoteWrite>)
    requires Carriers(remote, key) == {} && AtMostOneMarked(writes)
    ensures |Carriers(Ran(remote, key, writes), key)| <= if SomeMarked(writes) then 1 else 0
  {
    if writes != [] {
      var init, last := writes[..|writes| - 1], writes[|writes| - 1];
      var before := Ran(remote, key, init);
      CarriedOnce(remote, key, init);
      if last.marked {
        assert !SomeMarked(init) by {
          forall i | 0 <= i < |init| ensures !init[i].marked {
            assert writes[i] == init[i];
          }
        }
        assert Carriers(before, key) == {};
        assert Carriers(Sent(before, key, last), key) <= {last.id};
        Subset(Carriers(Sent(before, key, last), key), {last.id});
        assert writes[|init|].marked;
      } else {
        Subset(Carriers(Sent(before, key, last), key), Carriers(before, key));
        if SomeMarked(init) {
          var i :| 0 <= i < |init| && init[i].marked;
          assert writes[i].marked;
        }
      }
    }
  }

  lemma {:induction false} Subset<T>(a: set<T>, b: set<T>)
    requires a <= b
    ensures |a| <= |b|
  {
    assert b == a + (b - a);
  }

  /** Every write ran at most once, each program stopping anywhere: still at most one item
      carries any key's marker. */
  lemma {:induction false} OneCarrierPerKey(remote: Remote, effects: seq<Effect>, key: Text)
    requires AllSendable(effects) && Brokers.OnceEach(Asks(effects)) && Carriers(remote, key) == {}
    ensures |Carriers(World(remote, effects), key)| <= 1
    ensures (forall i :: 0 <= i < |effects| && effects[i].ask.operation.Write? ==> effects[i].ask.key != key) ==>
      Carriers(World(remote, effects), key) == {}
    decreases effects
  {
    if effects != [] {
      var init, last := effects[..|effects| - 1], effects[|effects| - 1];
      InitOnce(effects);
      OneCarrierPerKey(remote, init, key);
      var before, sent := World(remote, init), Program(last.call)[..last.sent];
      ProgramsMarkOnce(last.call);
      if last.ask.operation.Read? {
        assert sent == [];
      } else if last.ask.key != key {
        OthersUncarried(before, last.ask.key, sent, key);
        Subset(Carriers(World(remote, effects), key), Carriers(before, key));
      } else {
        LastIsFirst(effects);
        CarriedOnce(before, key, sent);
      }
    }
  }

  lemma InitOnce(effects: seq<Effect>)
    requires effects != [] && AllSendable(effects) && Brokers.OnceEach(Asks(effects))
    ensures AllSendable(effects[..|effects| - 1]) && Brokers.OnceEach(Asks(effects[..|effects| - 1]))
  {
    var init := effects[..|effects| - 1];
    forall i, j | 0 <= i < j < |Asks(init)| && Asks(init)[i].operation.Write? && Asks(init)[j].operation.Write?
      ensures Asks(init)[i].key != Asks(init)[j].key
    {
      assert Asks(init)[i] == Asks(effects)[i] && Asks(init)[j] == Asks(effects)[j];
    }
  }

  lemma LastIsFirst(effects: seq<Effect>)
    requires effects != [] && Brokers.OnceEach(Asks(effects)) && effects[|effects| - 1].ask.operation.Write?
    ensures forall i :: 0 <= i < |effects| - 1 && effects[i].ask.operation.Write? ==> effects[i].ask.key != effects[|effects| - 1].ask.key
  {
    forall i | 0 <= i < |effects| - 1 && effects[i].ask.operation.Write?
      ensures effects[i].ask.key != effects[|effects| - 1].ask.key
    {
      assert Asks(effects)[i] == effects[i].ask && Asks(effects)[|effects| - 1] == effects[|effects| - 1].ask;
    }
  }

  // ---------- proof by marker ----------

  /** `_unique`. */
  function Unique(matches: seq<Id>): Proof {
    if matches == [] then Absent else if |matches| > 1 then Clashing else Present
  }

  /** The items of a complete listing, in its order. */
  ghost predicate Lists(listing: seq<Id>, remote: Remote) {
    Distinct(listing) && forall i :: i in listing ==> i in remote
  }

  function Matches(listing: seq<Id>, remote: Remote, key: Text): seq<Id> {
    if listing == [] then []
    else
      var rest := Matches(listing[1..], remote, key);
      if listing[0] in remote && key in remote[listing[0]] then [listing[0]] + rest else rest
  }

  lemma {:induction false} MatchesAreCarriers(listing: seq<Id>, remote: Remote, key: Text)
    requires Lists(listing, remote)
    ensures forall i :: i in Matches(listing, remote, key) <==> i in listing && i in Carriers(remote, key)
  {
    if listing != [] {
      MatchesAreCarriers(listing[1..], remote, key);
      assert listing == [listing[0]] + listing[1..];
    }
  }

  lemma {:induction false} MatchesDistinct(listing: seq<Id>, remote: Remote, key: Text)
    requires Lists(listing, remote)
    ensures Distinct(Matches(listing, remote, key))
  {
    if listing != [] {
      var rest := Matches(listing[1..], remote, key);
      MatchesDistinct(listing[1..], remote, key);
      MatchesAreCarriers(listing[1..], remote, key);
      forall i | i in rest ensures i != listing[0] {
        var k :| 0 <= k < |listing[1..]| && listing[1..][k] == i;
        assert listing[k + 1] == i;
      }
      PrependDistinct(listing[0], rest);
    }
  }

  lemma PrependDistinct<T>(first: T, rest: seq<T>)
    requires Distinct(rest) && first !in rest
    ensures Distinct([first] + rest)
  {
  }

  /** A complete listing proves an effect absent if no item in it carries the marker, clashing if two
      do, and present if exactly one does. */
  lemma {:induction false} MarkerProves(listing: seq<Id>, remote: Remote, key: Text)
    requires Lists(listing, remote)
    ensures var proof := Unique(Matches(listing, remote, key));
      && (proof.Absent? <==> forall i :: i in listing ==> key !in remote[i])
      && (proof.Clashing? <==> exists i, j :: i in listing && j in listing && i != j && key in remote[i] && key in remote[j])
      && !proof.Unknown?
  {
    var found := Matches(listing, remote, key);
    MatchesAreCarriers(listing, remote, key);
    MatchesDistinct(listing, remote, key);
    if |found| > 1 {
      assert found[0] in found && found[1] in found && found[0] != found[1];
    }
    if found != [] {
      assert found[0] in found;
    }
    if i, j :| i in listing && j in listing && i != j && key in remote[i] && key in remote[j] {
      assert i in found && j in found;
    }
  }

  /** After any run of controller writes a complete listing proves a write present or absent,
      never a conflict; present exactly when the listing holds the item that carries it. */
  lemma {:induction false} ControllerWritesNeverClash(remote: Remote, effects: seq<Effect>, listing: seq<Id>, key: Text)
    requires AllSendable(effects) && Brokers.OnceEach(Asks(effects)) && Carriers(remote, key) == {}
    requires Lists(listing, World(remote, effects))
    ensures var proof := Unique(Matches(listing, World(remote, effects), key));
      && !proof.Clashing?
      && (proof.Present? <==> exists i :: i in listing && i in Carriers(World(remote, effects), key))
  {
    var after := World(remote, effects);
    var found := Matches(listing, after, key);
    OneCarrierPerKey(remote, effects, key);
    MatchesAreCarriers(listing, after, key);
    MatchesDistinct(listing, after, key);
    if |found| > 1 {
      assert found[0] in found && found[1] in found;
      assert {found[0], found[1]} <= Carriers(after, key);
      Subset({found[0], found[1]}, Carriers(after, key));
    }
    if found != [] {
      assert found[0] in found;
    }
  }

  // ---------- `resolve_pending` ----------

  datatype Counts = Counts(present: nat, absent: nat, clashing: nat, unknown: nat)

  function Count(c: Counts, p: Proof): Counts {
    match p
    case Present => c.(present := c.present + 1)
    case Absent => c.(absent := c.absent + 1)
    case Clashing => c.(clashing := c.clashing + 1)
    case Unknown => c.(unknown := c.unknown + 1)
  }

  /** What the verifier answers for a journalled row, with the result of a present effect. */
  datatype Verdict = Verdict(proof: Proof, result: Text)

  function SettledRequest(row: Request, v: Verdict): Request {
    match v.proof
    case Present => row.(state := RequestState.Succeeded, response := Some(OkResponse(v.result)))
    case Unknown => row
    case _ => row.(state := RequestState.Failed, response := Some(Denied))
  }

  function SettledOperation(row: Operation, v: Verdict): Operation {
    match v.proof
    case Present => row.(state := OperationState.Succeeded)
    case Unknown => row
    case _ => row.(state := OperationState.DeadLetter)
  }

  predicate Distinct<T(==)>(items: seq<T>) {
    forall i, j :: 0 <= i < j < |items| ==> items[i] != items[j]
  }

  function ResolveRequest(db: Database, key: Text, v: Verdict): Database {
    match v.proof
    case Present => After(db, Journals.Finish(db, key, RequestState.Succeeded, OkResponse(v.result)))
    case Unknown => db
    case _ => After(db, Journals.Finish(db, key, RequestState.Failed, Denied))
  }

  function ResolveOperation(db: Database, id: Id, v: Verdict): Database {
    match v.proof
    case Present => After(db, Journals.FinishOperation(db, id, OperationState.Succeeded))
    case Unknown => db
    case _ => After(db, Journals.FinishOperation(db, id, OperationState.DeadLetter))
  }

  /** The first loop: the pending broker rows, in the order they are listed. */
  function RequestsResolved(db: Database, rows: seq<Text>, broker: map<Text, Verdict>, counts: Counts): (Database, Counts)
    requires forall k :: k in rows ==> k in broker
    decreases rows
  {
    if rows == [] then (db, counts)
    else RequestsResolved(ResolveRequest(db, rows[0], broker[rows[0]]), rows[1..], broker, Count(counts, broker[rows[0]].proof))
  }

  /** The second: the pending reconciliations. */
  function OperationsResolved(db: Database, rows: seq<Id>, reconcile: map<Id, Verdict>, counts: Counts): (Database, Counts)
    requires forall o :: o in rows ==> o in reconcile
    decreases rows
  {
    if rows == [] then (db, counts)
    else
      var verdict := reconcile[rows[0]];
      OperationsResolved(ResolveOperation(db, rows[0], verdict), rows[1..], reconcile, Count(counts, verdict.proof))
  }

  method ResolveRequests(store: Store, rows: seq<Text>, broker: map<Text, Verdict>, start: Counts) returns (counts: Counts)
    requires store.Valid() && forall k :: k in rows ==> k in broker
    modifies store
    ensures store.Valid() && (store.db, counts) == RequestsResolved(old(store.db), rows, broker, start)
  {
    counts := start;
    for i := 0 to |rows|
      invariant store.Valid()
      invariant RequestsResolved(old(store.db), rows, broker, start) == RequestsResolved(store.db, rows[i..], broker, counts)
    {
      var key := rows[i];
      assert rows[i..][0] == key && rows[i..][1..] == rows[i + 1..];
      var verdict := broker[key];
      counts := Count(counts, verdict.proof);
      if verdict.proof.Present? {
        var settled := store.FinishRequest(key, RequestState.Succeeded, OkResponse(verdict.result));
      } else if verdict.proof.Absent? || verdict.proof.Clashing? {
        var settled := store.FinishRequest(key, RequestState.Failed, Denied);
      }
    }
  }

  method ResolveOperations(store: Store, rows: seq<Id>, reconcile: map<Id, Verdict>, start: Counts) returns (counts: Counts)
    requires store.Valid() && forall o :: o in rows ==> o in reconcile
    modifies store
    ensures store.Valid() && (store.db, counts) == OperationsResolved(old(store.db), rows, reconcile, start)
  {
    counts := start;
    for i := 0 to |rows|
      invariant store.Valid()
      invariant OperationsResolved(old(store.db), rows, reconcile, start) == OperationsResolved(store.db, rows[i..], reconcile, counts)
    {
      var id := rows[i];
      assert rows[i..][0] == id && rows[i..][1..] == rows[i + 1..];
      var verdict := reconcile[id];
      counts := Count(counts, verdict.proof);
      if verdict.proof.Present? {
        var settled := store.FinishReconcile(id, OperationState.Succeeded);
      } else if verdict.proof.Absent? || verdict.proof.Clashing? {
        var settled := store.FinishReconcile(id, OperationState.DeadLetter);
      }
    }
  }

  /** `resolve_pending`, with the verifier's answers. */
  method ResolvePending(store: Store, requests: seq<Text>, operations: seq<Id>, broker: map<Text, Verdict>, reconcile: map<Id, Verdict>)
    returns (counts: Counts)
    requires store.Valid() && (forall k :: k in requests ==> k in broker) && (forall o :: o in operations ==> o in reconcile)
    modifies store
    ensures store.Valid() && (store.db, counts) == PendingResolved(old(store.db), requests, operations, broker, reconcile)
  {
    counts := ResolveRequests(store, requests, broker, Counts(0, 0, 0, 0));
    counts := ResolveOperations(store, operations, reconcile, counts);
  }

  function PendingResolved(db: Database, requests: seq<Text>, operations: seq<Id>, broker: map<Text, Verdict>, reconcile: map<Id, Verdict>)
    : (Database, Counts)
    requires (forall k :: k in requests ==> k in broker) && (forall o :: o in operations ==> o in reconcile)
  {
    var first := RequestsResolved(db, requests, broker, Counts(0, 0, 0, 0));
    OperationsResolved(first.0, operations, reconcile, first.1)
  }

  /** The rows of exactly the listed keys were settled by their verdicts. */
  ghost predicate SettledRows(before: map<Text, Request>, after: map<Text, Request>, rows: seq<Text>, broker: map<Text, Verdict>) {
    && after.Keys == before.Keys
    && forall k :: k in before ==> after[k] == if k in rows && k in broker then SettledRequest(before[k], broker[k]) else before[k]
  }

  ghost predicate SettledJobs(before: map<Id, Operation>, after: map<Id, Operation>, rows: seq<Id>, reconcile: map<Id, Verdict>) {
    && after.Keys == before.Keys
    && forall o :: o in before ==> after[o] == if o in rows && o in reconcile then SettledOperation(before[o], reconcile[o]) else before[o]
  }

  lemma TailDistinct<T>(rows: seq<T>)
    requires Distinct(rows) && rows != []
    ensures Distinct(rows[1..]) && rows[0] !in rows[1..] && forall k :: k in rows <==> k == rows[0] || k in rows[1..]
  {
  }

  lemma RequestStep(db: Database, key: Text, v: Verdict)
    requires key in db.requests
    ensures ResolveRequest(db, key, v).requests == db.requests[key := SettledRequest(db.requests[key], v)]
    ensures ResolveRequest(db, key, v).operations == db.operations
  {
    assert db.requests[key := db.requests[key]] == db.requests;
  }

  lemma OperationStep(db: Database, id: Id, v: Verdict)
    requires id in db.operations && db.operations[id].state.VerifyPending?
    ensures ResolveOperation(db, id, v) == db.(operations := db.operations[id := SettledOperation(db.operations[id], v)])
  {
  }

  lemma RowsThrough(before: map<Text, Request>, after: map<Text, Request>, rows: seq<Text>, broker: map<Text, Verdict>)
    requires rows != [] && Distinct(rows) && rows[0] in before && rows[0] in broker
    requires SettledRows(before[rows[0] := SettledRequest(before[rows[0]], broker[rows[0]])], after, rows[1..], broker)
    ensures SettledRows(before, after, rows, broker)
  {
  }

  lemma JobsThrough(before: map<Id, Operation>, after: map<Id, Operation>, rows: seq<Id>, reconcile: map<Id, Verdict>)
    requires rows != [] && Distinct(rows) && rows[0] in before && rows[0] in reconcile
    requires SettledJobs(before[rows[0] := SettledOperation(before[rows[0]], reconcile[rows[0]])], after, rows[1..], reconcile)
    ensures SettledJobs(before, after, rows, reconcile)
  {
  }

  lemma {:induction false} RequestsSettle(db: Database, rows: seq<Text>, broker: map<Text, Verdict>, counts: Counts)
    requires Distinct(rows) && forall k :: k in rows ==> k in broker && k in db.requests
    ensures SettledRows(db.requests, RequestsResolved(db, rows, broker, counts).0.requests, rows, broker)
    ensures RequestsResolved(db, rows, broker, counts).0.operations == db.operations
    decreases rows
  {
    if rows != [] {
      var middle, next := ResolveRequest(db, rows[0], broker[rows[0]]), Count(counts, broker[rows[0]].proof);
      TailDistinct(rows);
      RequestStep(db, rows[0], broker[rows[0]]);
      RequestsSettle(middle, rows[1..], broker, next);
      RowsThrough(db.requests, RequestsResolved(middle, rows[1..], broker, next).0.requests, rows, broker);
    }
  }

  lemma {:induction false} OperationsSettle(db: Database, rows: seq<Id>, reconcile: map<Id, Verdict>, counts: Counts)
    requires Distinct(rows) && forall o :: o in rows ==> o in reconcile && o in db.operations && db.operations[o].state.VerifyPending?
    ensures SettledJobs(db.operations, OperationsResolved(db, rows, reconcile, counts).0.operations, rows, reconcile)
    ensures OperationsResolved(db, rows, reconcile, counts).0.requests == db.requests
    decreases rows
  {
    if rows != [] {
      var middle, next := ResolveOperation(db, rows[0], reconcile[rows[0]]), Count(counts, reconcile[rows[0]].proof);
      TailDistinct(rows);
      OperationStep(db, rows[0], reconcile[rows[0]]);
      OperationsSettle(middle, rows[1..], reconcile, next);
      JobsThrough(db.operations, OperationsResolved(middle, rows[1..], reconcile, next).0.operations, rows, reconcile);
    }
  }

  /** The rows that got this proof. */
  ghost function Proved<T>(rows: seq<T>, verdicts: map<T, Verdict>, proof: Proof): set<T> {
    set k | k in rows && k in verdicts && verdicts[k].proof == proof
  }

  ghost function Proofs<T>(rows: seq<T>, verdicts: map<T, Verdict>, proof: Proof): nat {
    |Proved(rows, verdicts, proof)|
  }

  lemma FirstProved<T>(rows: seq<T>, verdicts: map<T, Verdict>, proof: Proof)
    requires rows != [] && Distinct(rows) && rows[0] in verdicts
    ensures rows[0] !in Proved(rows[1..], verdicts, proof)
    ensures Proved(rows, verdicts, proof) == Proved(rows[1..], verdicts, proof) + if verdicts[rows[0]].proof == proof then {rows[0]} else {}
  {
    TailDistinct(rows);
  }

  lemma FirstProof<T>(rows: seq<T>, verdicts: map<T, Verdict>, proof: Proof)
    requires rows != [] && Distinct(rows) && rows[0] in verdicts
    ensures Proofs(rows, verdicts, proof) == Proofs(rows[1..], verdicts, proof) + if verdicts[rows[0]].proof == proof then 1 else 0
  {
    FirstProved(rows, verdicts, proof);
  }

  /** Each row is counted once, under its own proof. */
  ghost predicate Tallies<T>(before: Counts, after: Counts, rows: seq<T>, verdicts: map<T, Verdict>) {
    && after.present == before.present + Proofs(rows, verdicts, Present)
    && after.absent == before.absent + Proofs(rows, verdicts, Absent)
    && after.clashing == before.clashing + Proofs(rows, verdicts, Clashing)
    && after.unknown == before.unknown + Proofs(rows, verdicts, Unknown)
  }

  lemma TalliesOn<T>(before: Counts, after: Counts, rows: seq<T>, verdicts: map<T, Verdict>)
    requires rows != [] && Distinct(rows) && rows[0] in verdicts
    requires Tallies(Count(before, verdicts[rows[0]].proof), after, rows[1..], verdicts)
    ensures Tallies(before, after, rows, verdicts)
  {
    FirstProof(rows, verdicts, Present);
    FirstProof(rows, verdicts, Absent);
    FirstProof(rows, verdicts, Clashing);
    FirstProof(rows, verdicts, Unknown);
  }

  lemma {:induction false} RequestsCounted(db: Database, rows: seq<Text>, broker: map<Text, Verdict>, counts: Counts)
    requires Distinct(rows) && forall k :: k in rows ==> k in broker
    ensures Tallies(counts, RequestsResolved(db, rows, broker, counts).1, rows, broker)
    decreases rows
  {
    if rows != [] {
      var middle, next := ResolveRequest(db, rows[0], broker[rows[0]]), Count(counts, broker[rows[0]].proof);
      TailDistinct(rows);
      RequestsCounted(middle, rows[1..], broker, next);
      TalliesOn(counts, RequestsResolved(middle, rows[1..], broker, next).1, rows, broker);
    }
  }

  lemma {:induction false} OperationsCounted(db: Database, rows: seq<Id>, reconcile: map<Id, Verdict>, counts: Counts)
    requires Distinct(rows) && forall o :: o in rows ==> o in reconcile
    ensures Tallies(counts, OperationsResolved(db, rows, reconcile, counts).1, rows, reconcile)
    decreases rows
  {
    if rows != [] {
      var middle, next := ResolveOperation(db, rows[0], reconcile[rows[0]]), Count(counts, reconcile[rows[0]].proof);
      TailDistinct(rows);
      OperationsCounted(middle, rows[1..], reconcile, next);
      TalliesOn(counts, OperationsResolved(middle, rows[1..], reconcile, next).1, rows, reconcile);
    }
  }

  /** The listing queries return exactly the pending rows, and the verifier answers for each. */
  ghost predicate PendingRequests(requests: map<Text, Request>, rows: seq<Text>, broker: map<Text, Verdict>) {
    && Distinct(rows) && (forall k :: k in rows ==> k in broker)
    && forall k :: k in rows <==> k in requests && requests[k].state.VerifyPending?
  }

  ghost predicate PendingOperations(operations: map<Id, Operation>, rows: seq<Id>, reconcile: map<Id, Verdict>) {
    && Distinct(rows) && (forall o :: o in rows ==> o in reconcile)
    && forall o :: o in rows <==> o in operations && operations[o].state.VerifyPending?
  }

  /** Among journalled requests: pending are exactly those that were and whose proof is unknown;
      a pending one succeeded if proved present and failed if proved absent or clashing; and
      every other row is as it was. */
  ghost predicate RequestsExact(before: map<Text, Request>, after: map<Text, Request>, rows: seq<Text>, broker: map<Text, Verdict>) {
    && after.Keys == before.Keys
    && (forall k :: k in before && k !in rows ==> after[k] == before[k] && !after[k].state.VerifyPending?)
    && forall k :: k in rows && k in before && k in broker ==>
      match broker[k].proof
      case Present => after[k] == before[k].(state := RequestState.Succeeded, response := Some(OkResponse(broker[k].result)))
      case Absent | Clashing => after[k] == before[k].(state := RequestState.Failed, response := Some(Denied))
      case Unknown => after[k] == before[k] && after[k].state.VerifyPending?
  }

  ghost predicate OperationsExact(before: map<Id, Operation>, after: map<Id, Operation>, rows: seq<Id>, reconcile: map<Id, Verdict>) {
    && after.Keys == before.Keys
    && (forall o :: o in before && o !in rows ==> after[o] == before[o] && !after[o].state.VerifyPending?)
    && forall o :: o in rows && o in before && o in reconcile ==>
      match reconcile[o].proof
      case Present => after[o] == before[o].(state := OperationState.Succeeded)
      case Absent | Clashing => after[o] == before[o].(state := OperationState.DeadLetter)
      case Unknown => after[o] == before[o] && after[o].state.VerifyPending?
  }

  lemma SettlingRequestsIsExact(before: map<Text, Request>, after: map<Text, Request>, rows: seq<Text>, broker: map<Text, Verdict>)
    requires PendingRequests(before, rows, broker) && SettledRows(before, after, rows, broker)
    ensures RequestsExact(before, after, rows, broker)
  {
  }

  lemma SettlingOperationsIsExact(before: map<Id, Operation>, after: map<Id, Operation>, rows: seq<Id>, reconcile: map<Id, Verdict>)
    requires PendingOperations(before, rows, reconcile) && SettledJobs(before, after, rows, reconcile)
    ensures OperationsExact(before, after, rows, reconcile)
  {
  }

  lemma RequestsExactly(db: Database, rows: seq<Text>, broker: map<Text, Verdict>)
    returns (after: Database, counts: Counts)
    requires PendingRequests(db.requests, rows, broker)
    ensures (after, counts) == RequestsResolved(db, rows, broker, Counts(0, 0, 0, 0))
    ensures RequestsExact(db.requests, after.requests, rows, broker)
    ensures after.operations == db.operations && Tallies(Counts(0, 0, 0, 0), counts, rows, broker)
  {
    var none := Counts(0, 0, 0, 0);
    var resolved := RequestsResolved(db, rows, broker, none);
    after, counts := resolved.0, resolved.1;
    RequestsSettle(db, rows, broker, none);
    RequestsCounted(db, rows, broker, none);
    SettlingRequestsIsExact(db.requests, after.requests, rows, broker);
  }

  lemma OperationsExactly(db: Database, rows: seq<Id>, reconcile: map<Id, Verdict>, counted: Counts)
    returns (after: Database, counts: Counts)
    requires PendingOperations(db.operations, rows, reconcile)
    ensures (after, counts) == OperationsResolved(db, rows, reconcile, counted)
    ensures OperationsExact(db.operations, after.operations, rows, reconcile)
    ensures after.requests == db.requests && Tallies(counted, counts, rows, reconcile)
  {
    var resolved := OperationsResolved(db, rows, reconcile, counted);
    after, counts := resolved.0, resolved.1;
    OperationsSettle(db, rows, reconcile, counted);
    OperationsCounted(db, rows, reconcile, counted);
    SettlingOperationsIsExact(db.operations, after.operations, rows, reconcile);
  }

  /** One resolution leaves every journalled request and every journalled operation exactly as
      its verdict says, and counts each row it examined once, under its verdict. */
  lemma ResolvingIsExact(db: Database, requests: seq<Text>, operations: seq<Id>, broker: map<Text, Verdict>, reconcile: map<Id, Verdict>)
    requires PendingRequests(db.requests, requests, broker) && PendingOperations(db.operations, operations, reconcile)
    ensures var counts := PendingResolved(db, requests, operations, broker, reconcile).1;
      && counts.present == Proofs(requests, broker, Present) + Proofs(operations, reconcile, Present)
      && counts.absent == Proofs(requests, broker, Absent) + Proofs(operations, reconcile, Absent)
      && counts.clashing == Proofs(requests, broker, Clashing) + Proofs(operations, reconcile, Clashing)
      && counts.unknown == Proofs(requests, broker, Unknown) + Proofs(operations, reconcile, Unknown)
    ensures var after := PendingResolved(db, requests, operations, broker, reconcile).0;
      && RequestsExact(db.requests, after.requests, requests, broker)
      && OperationsExact(db.operations, after.operations, operations, reconcile)
  {
    var middle, counted := RequestsExactly(db, requests, broker);
    var after, counts := OperationsExactly(middle, operations, reconcile, counted);
  }
}
