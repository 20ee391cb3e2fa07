/** Idempotent dispatch: the broker runs a journalled request's side effect at most once,
    whatever fails and wherever it crashes. */
module Brokers {
  import opened Outcomes
  import opened Tables
  import opened Stores
  import Sessions
  import Journals

  datatype Ask = Ask(sid: Id, key: Text, operation: Verb, arguments: Text)

  /** A call into the backend: it answers, or raises one of the kinds `handle` tells apart. */
  datatype Reply = Answers(result: Text) | Denies | Refuses | TimesOut | Breaks | Dies

  /** A store call outside the model's own refusals: fine, an unexpected error that leaves the
      database alone, or the end of the process before the call. */
  datatype Trouble = Fine | Raises | Crashes

  /** Everything `handle` does not decide itself. */
  datatype World = World(
    now: Time, valid: bool, facts: Reply, authorized: bool, execution: Reply,
    atSession: Trouble, atPrior: Trouble, atReserve: Trouble, atMark: Trouble, atFinish: Trouble, atAudit: Trouble, atCleanup: Trouble)

  /** What is left: the database, the side effects started so far in order, and the answer,
      which a crash withholds. */
  datatype End = End(db: Database, log: seq<Ask>, answer: Option<Response>)

  /** The `except Exception` branch. */
  function Unexpected(db: Database, log: seq<Ask>, a: Ask, applying: bool, w: World): End {
    if !applying || a.operation.Read? then
      if w.atCleanup.Crashes? then End(db, log, None)
      else if w.atCleanup.Raises? then End(db, log, Some(Retryable))
      else End(After(db, Journals.AbandonRead(db, a.key)), log, Some(Retryable))
    else Closing(db, log, a, RequestState.VerifyPending, Indeterminate, w)
  }

  /** Record the response in the journal if that is possible at all, and return it. */
  function Closing(db: Database, log: seq<Ask>, a: Ask, state: RequestState, response: Response, w: World): End {
    if w.atCleanup.Crashes? then End(db, log, None)
    else if w.atCleanup.Raises? then End(db, log, Some(response))
    else End(After(db, Journals.Finish(db, a.key, state, response)), log, Some(response))
  }

  function Applied(db: Database, log: seq<Ask>, a: Ask, w: World): End {
    var ran := log + [a];
    match w.execution
    case Dies => End(db, ran, None)
    case Denies => Closing(db, ran, a, RequestState.Failed, Denied, w)
    case Refuses => End(db, ran, Some(Conflict))
    case TimesOut => Closing(db, ran, a, RequestState.VerifyPending, Indeterminate, w)
    case Breaks => Unexpected(db, ran, a, true, w)
    case Answers(result) =>
      if w.atFinish.Crashes? then End(db, ran, None)
      else if w.atFinish.Raises? then Unexpected(db, ran, a, true, w)
      else
        var done := After(db, Journals.Finish(db, a.key, RequestState.Succeeded, OkResponse(result)));
        if w.atAudit.Crashes? then End(done, ran, None)
        else if w.atAudit.Raises? then Unexpected(done, ran, a, true, w)
        else End(done, ran, Some(OkResponse(result)))
  }

  function Marked(db: Database, log: seq<Ask>, a: Ask, w: World): End {
    if w.atMark.Crashes? then End(db, log, None)
    else if w.atMark.Raises? then Unexpected(db, log, a, false, w)
    else
      var tx := Journals.MarkApplying(db, a.key);
      if tx.Rollback? then End(db, log, Some(Conflict)) else Applied(tx.db, log, a, w)
  }

  function Reserved(db: Database, log: seq<Ask>, a: Ask, w: World): End {
    if w.atReserve.Crashes? then End(db, log, None)
    else if w.atReserve.Raises? then Unexpected(db, log, a, false, w)
    else
      var tx := Journals.Reserve(db, a.sid, a.key, a.operation, a.arguments);
      if tx.Rollback? then
        if tx.error.StateError? then End(db, log, Some(Conflict)) else Unexpected(db, log, a, false, w)
      else if tx.value.Some? then End(db, log, tx.value)
      else Marked(tx.db, log, a, w)
  }

  /** After the prior lookup: remote facts for the operations that need them, then policy. */
  function Authorized(db: Database, log: seq<Ask>, a: Ask, w: World): End {
    match w.facts
    case Dies => End(db, log, None)
    case Denies => End(db, log, Some(Denied))
    case Refuses => End(db, log, Some(Conflict))
    case TimesOut => End(db, log, Some(Retryable))
    case Breaks => Unexpected(db, log, a, false, w)
    case Answers(_) => if w.authorized then Reserved(db, log, a, w) else End(db, log, Some(Denied))
  }

  function Looked(db: Database, log: seq<Ask>, a: Ask, w: World): End {
    if w.atPrior.Crashes? then End(db, log, None)
    else if w.atPrior.Raises? then Unexpected(db, log, a, false, w)
    else
      var prior := Journals.Prior(db, a.sid, a.key, a.operation, a.arguments);
      if prior.Raised? then End(db, log, Some(Conflict))
      else if prior.value.Some? then End(db, log, prior.value)
      else Authorized(db, log, a, w)
  }

  function Handled(db: Database, log: seq<Ask>, a: Ask, w: World): End {
    if w.atSession.Crashes? then End(db, log, None)
    else if w.atSession.Raises? then Unexpected(db, log, a, false, w)
    else if !Sessions.Live(db, a.sid, w.now) then End(db, log, Some(Conflict))
    else if !w.valid then End(db, log, Some(Denied))
    else Looked(db, log, a, w)
  }

  // ---------- `handle` ----------

  method Close(store: Store, a: Ask, state: RequestState, response: Response, w: World, ghost log: seq<Ask>)
    returns (answer: Option<Response>)
    requires store.Valid() && (state.VerifyPending? || state.Failed?)
    modifies store
    ensures store.Valid() && End(store.db, log, answer) == Closing(old(store.db), log, a, state, response, w)
  {
    if w.atCleanup.Crashes? {
      return None;
    }
    if w.atCleanup.Fine? {
      var finished := store.FinishRequest(a.key, state, response);
    }
    return Some(response);
  }

  method Surprise(store: Store, a: Ask, applying: bool, w: World, ghost log: seq<Ask>) returns (answer: Option<Response>)
    requires store.Valid()
    modifies store
    ensures store.Valid() && End(store.db, log, answer) == Unexpected(old(store.db), log, a, applying, w)
  {
    if applying && !a.operation.Read? {
      answer := Close(store, a, RequestState.VerifyPending, Indeterminate, w, log);
      return;
    }
    if w.atCleanup.Crashes? {
      return None;
    }
    if w.atCleanup.Fine? {
      var dropped := store.AbandonReadRequest(a.key);
    }
    return Some(Retryable);
  }

  /** From the side effect on: `applying` is set. */
  method Apply(store: Store, a: Ask, w: World, log: seq<Ask>) returns (answer: Option<Response>, ran: seq<Ask>)
    requires store.Valid()
    modifies store
    ensures store.Valid() && End(store.db, ran, answer) == Applied(old(store.db), log, a, w)
  {
    ran := log + [a];
    match w.execution
    case Dies => answer := None;
    case Denies => answer := Close(store, a, RequestState.Failed, Denied, w, ran);
    case Refuses => answer := Some(Conflict);
    case TimesOut => answer := Close(store, a, RequestState.VerifyPending, Indeterminate, w, ran);
    case Breaks => answer := Surprise(store, a, true, w, ran);
    case Answers(result) =>
      if w.atFinish.Crashes? {
        return None, ran;
      }
      if w.atFinish.Raises? {
        answer := Surprise(store, a, true, w, ran);
        return;
      }
      var finished := store.FinishRequest(a.key, RequestState.Succeeded, OkResponse(result));
      if w.atAudit.Crashes? {
        return None, ran;
      }
      if w.atAudit.Raises? {
        answer := Surprise(store, a, true, w, ran);
        return;
      }
      answer := Some(OkResponse(result));
  }

  /** The journal's two steps before the side effect. */
  method Journal(store: Store, a: Ask, w: World, log: seq<Ask>) returns (answer: Option<Response>, ran: seq<Ask>)
    requires store.Valid()
    modifies store
    ensures store.Valid() && End(store.db, ran, answer) == Reserved(old(store.db), log, a, w)
  {
    ran := log;
    if w.atReserve.Crashes? {
      return None, ran;
    }
    if w.atReserve.Raises? {
      answer := Surprise(store, a, false, w, ran);
      return;
    }
    var prior := store.ReserveRequest(a.sid, a.key, a.operation, a.arguments);
    if prior.Raised? {
      if prior.error.StateError? {
        return Some(Conflict), ran;
      }
      answer := Surprise(store, a, false, w, ran);
      return;
    }
    if prior.value.Some? {
      return prior.value, ran;
    }
    if w.atMark.Crashes? {
      return None, ran;
    }
    if w.atMark.Raises? {
      answer := Surprise(store, a, false, w, ran);
      return;
    }
    var marked := store.MarkRequestApplying(a.key);
    if marked.Raised? {
      return Some(Conflict), ran;
    }
    answer, ran := Apply(store, a, w, log);
  }

  /** `handle`, for a well-formed request; `log` collects the side effects it starts. */
  method Handle(store: Store, a: Ask, w: World, log: seq<Ask>) returns (answer: Option<Response>, ran: seq<Ask>)
    requires store.Valid()
    modifies store
    ensures store.Valid() && End(store.db, ran, answer) == Handled(old(store.db), log, a, w)
  {
    ran := log;
    if w.atSession.Crashes? {
      return None, ran;
    }
    if w.atSession.Raises? {
      answer := Surprise(store, a, false, w, ran);
      return;
    }
    if !Sessions.Live(store.db, a.sid, w.now) {
      return Some(Conflict), ran;
    }
    if !w.valid {
      return Some(Denied), ran;
    }
    if w.atPrior.Crashes? {
      return None, ran;
    }
    if w.atPrior.Raises? {
      answer := Surprise(store, a, false, w, ran);
      return;
    }
    var prior := store.PriorRequest(a.sid, a.key, a.operation, a.arguments);
    if prior.Raised? {
      return Some(Conflict), ran;
    }
    if prior.value.Some? {
      return prior.value, ran;
    }
    match w.facts
    case Dies => answer := None;
    case Denies => answer := Some(Denied);
    case Refuses => answer := Some(Conflict);
    case TimesOut => answer := Some(Retryable);
    case Breaks => answer := Surprise(store, a, false, w, ran);
    case Answers(_) =>
      if !w.authorized {
        return Some(Denied), ran;
      }
      answer, ran := Journal(store, a, w, log);
  }

  // ---------- at most once ----------

  ghost predicate OnceEach(log: seq<Ask>) {
    forall i, j :: 0 <= i < j < |log| && log[i].operation.Write? && log[j].operation.Write? ==> log[i].key != log[j].key
  }

  /** Every side effect started for a write is journalled past `reserved`, with its own arguments. */
  ghost predicate Journalled(db: Database, log: seq<Ask>) {
    forall i :: 0 <= i < |log| && log[i].operation.Write? ==>
      && log[i].key in db.requests && !db.requests[log[i].key].state.Reserved?
      && Journals.SameRequest(db.requests[log[i].key], log[i].sid, log[i].operation, log[i].arguments)
  }

  /** Only a succeeded row holds an ok response. */
  ghost predicate OkMeansDone(db: Database) {
    forall k :: k in db.requests && db.requests[k].response.Some? && db.requests[k].response.value.OkResponse? ==>
      db.requests[k].state.Succeeded?
  }

  ghost predicate Sound(db: Database, log: seq<Ask>) {
    OnceEach(log) && Journalled(db, log) && OkMeansDone(db)
  }

  /** How one request may change the journal: no write's row disappears or changes its
      identity, none goes back to reserved, and a succeeded write's row stays as it is. */
  ghost predicate Keeps(db: Database, after: Database) {
    forall k :: k in db.requests && db.requests[k].operation.Write? ==>
      && k in after.requests
      && after.requests[k] == db.requests[k].(state := after.requests[k].state, response := after.requests[k].response)
      && (after.requests[k].state.Reserved? ==> db.requests[k].state.Reserved?)
      && (db.requests[k].state.Succeeded? ==> after.requests[k] == db.requests[k])
  }

  lemma RanOnce(log: seq<Ask>, a: Ask)
    requires OnceEach(log) && forall i :: 0 <= i < |log| && log[i].operation.Write? ==> log[i].key != a.key
    ensures OnceEach(log + [a])
  {
  }

  predicate HoldsOk(row: Request) {
    row.response.Some? && row.response.value.OkResponse?
  }

  /** A row of the request, past `reserved`; an ok response only when it succeeded. */
  predicate OwnRow(row: Request, a: Ask) {
    Journals.SameRequest(row, a.sid, a.operation, a.arguments) && !row.state.Reserved? && (HoldsOk(row) ==> row.state.Succeeded?)
  }

  /** The journal differs at the request's key at most, where it holds the request's own row,
      or nothing if the request was a read. */
  ghost predicate Touched(before: map<Text, Request>, after: map<Text, Request>, a: Ask) {
    && after - {a.key} == before - {a.key}
    && (if a.key in after then OwnRow(after[a.key], a) else a.operation.Read?)
  }

  /** What holds once the side effect has been started: the row is the request's, and an ok
      answer is the one it holds. */
  ghost predicate RanTo(db: Database, end: End, log: seq<Ask>, a: Ask) {
    && end.log == log + [a] && Touched(db.requests, end.db.requests, a)
    && (end.answer.Some? && end.answer.value.OkResponse? ==>
          a.key in end.db.requests && end.db.requests[a.key].state.Succeeded? && end.db.requests[a.key].response == end.answer)
  }

  lemma PutTouches(before: map<Text, Request>, current: map<Text, Request>, a: Ask, row: Request)
    requires Touched(before, current, a) && OwnRow(row, a)
    ensures Touched(before, current[a.key := row], a)
  {
  }

  lemma DropTouches(before: map<Text, Request>, current: map<Text, Request>, a: Ask)
    requires Touched(before, current, a) && a.operation.Read?
    ensures Touched(before, current - {a.key}, a)
  {
  }

  lemma ClosingRan(db: Database, current: Database, ran: seq<Ask>, log: seq<Ask>, a: Ask, state: RequestState, response: Response, w: World)
    requires ran == log + [a] && Touched(db.requests, current.requests, a) && a.key in current.requests
    requires (state.VerifyPending? || state.Failed?) && !response.OkResponse?
    ensures RanTo(db, Closing(current, ran, a, state, response, w), log, a)
  {
    PutTouches(db.requests, current.requests, a, current.requests[a.key].(state := state, response := Some(response)));
  }

  lemma UnexpectedRan(db: Database, current: Database, ran: seq<Ask>, log: seq<Ask>, a: Ask, w: World)
    requires ran == log + [a] && Touched(db.requests, current.requests, a) && a.key in current.requests
    ensures RanTo(db, Unexpected(current, ran, a, true, w), log, a)
  {
    if a.operation.Read? {
      DropTouches(db.requests, current.requests, a);
    } else {
      ClosingRan(db, current, ran, log, a, RequestState.VerifyPending, Indeterminate, w);
    }
  }

  lemma FinishedRan(db: Database, log: seq<Ask>, a: Ask, w: World, result: Text)
    requires a.key in db.requests && OwnRow(db.requests[a.key], a) && w.execution == Answers(result)
    ensures RanTo(db, Applied(db, log, a, w), log, a)
  {
    var ran := log + [a];
    UnexpectedRan(db, db, ran, log, a, w);
    var done := After(db, Journals.Finish(db, a.key, RequestState.Succeeded, OkResponse(result)));
    PutTouches(db.requests, db.requests, a, db.requests[a.key].(state := RequestState.Succeeded, response := Some(OkResponse(result))));
    UnexpectedRan(db, done, ran, log, a, w);
  }

  lemma {:induction false} AppliedRan(db: Database, log: seq<Ask>, a: Ask, w: World)
    requires a.key in db.requests && OwnRow(db.requests[a.key], a)
    ensures RanTo(db, Applied(db, log, a, w), log, a)
  {
    var ran := log + [a];
    match w.execution
    case Dies =>
    case Denies => ClosingRan(db, db, ran, log, a, RequestState.Failed, Denied, w);
    case Refuses =>
    case TimesOut => ClosingRan(db, db, ran, log, a, RequestState.VerifyPending, Indeterminate, w);
    case Breaks => UnexpectedRan(db, db, ran, log, a, w);
    case Answers(result) => FinishedRan(db, log, a, w, result);
  }

  function NewRow(a: Ask): Request {
    Request(a.sid, a.operation, a.arguments, RequestState.Reserved, None)
  }

  /** Without a side effect: the journal is as it was, or holds the request as `reserved`, or
      lost a read's row. */
  ghost predicate IdleJournal(before: map<Text, Request>, after: map<Text, Request>, a: Ask) {
    || after == before
    || (a.key !in before && after == before[a.key := NewRow(a)])
    || (a.key in before && before[a.key].operation.Read? && after == before - {a.key})
  }

  /** An ok answer without a side effect is the one journalled before. */
  ghost predicate Idle(db: Database, end: End, log: seq<Ask>, a: Ask) {
    && end.log == log && IdleJournal(db.requests, end.db.requests, a)
    && (end.answer.Some? && end.answer.value.OkResponse? ==>
          && a.key in db.requests && Journals.SameRequest(db.requests[a.key], a.sid, a.operation, a.arguments)
          && db.requests[a.key].response == end.answer && end.db.requests == db.requests)
  }

  lemma UnexpectedIdle(db: Database, current: Database, log: seq<Ask>, a: Ask, w: World)
    requires current.requests == db.requests || (a.key !in db.requests && current.requests == db.requests[a.key := NewRow(a)])
    ensures Idle(db, Unexpected(current, log, a, false, w), log, a)
  {
  }

  /** Either nothing ran, or this request ran from a row it had just inserted itself. */
  ghost predicate Dispatched(db: Database, end: End, log: seq<Ask>, a: Ask) {
    || Idle(db, end, log, a)
    || (a.key !in db.requests && RanTo(db, end, log, a))
  }

  lemma TouchedFurther(before: map<Text, Request>, middle: map<Text, Request>, after: map<Text, Request>, a: Ask)
    requires middle - {a.key} == before - {a.key} && Touched(middle, after, a)
    ensures Touched(before, after, a)
  {
  }

  lemma MarkedDispatches(db: Database, reserved: Database, log: seq<Ask>, a: Ask, w: World)
    requires a.key !in db.requests && reserved.requests == db.requests[a.key := NewRow(a)]
    ensures Dispatched(db, Marked(reserved, log, a, w), log, a)
  {
    UnexpectedIdle(db, reserved, log, a, w);
    var applying := Journals.MarkApplying(reserved, a.key).db;
    AppliedRan(applying, log, a, w);
    assert applying.requests - {a.key} == db.requests - {a.key};
    TouchedFurther(db.requests, applying.requests, Applied(applying, log, a, w).db.requests, a);
  }

  lemma {:induction false} ReservedDispatches(db: Database, log: seq<Ask>, a: Ask, w: World)
    ensures Dispatched(db, Reserved(db, log, a, w), log, a)
  {
    UnexpectedIdle(db, db, log, a, w);
    var tx := Journals.Reserve(db, a.sid, a.key, a.operation, a.arguments);
    if tx.Commit? && tx.value.None? {
      MarkedDispatches(db, tx.db, log, a, w);
    }
  }

  lemma AuthorizedDispatches(db: Database, log: seq<Ask>, a: Ask, w: World)
    ensures Dispatched(db, Authorized(db, log, a, w), log, a)
  {
    UnexpectedIdle(db, db, log, a, w);
    ReservedDispatches(db, log, a, w);
  }

  /** The broker runs a request's side effect only from a row it has just inserted for it. */
  lemma {:induction false} HandledDispatches(db: Database, log: seq<Ask>, a: Ask, w: World)
    ensures Dispatched(db, Handled(db, log, a, w), log, a)
  {
    UnexpectedIdle(db, db, log, a, w);
    AuthorizedDispatches(db, log, a, w);
  }

  /** Whatever fails, every write has run at most once and only as journalled, and no
      finished write is disturbed. */
  lemma {:induction false} HandledKeepsSound(db: Database, log: seq<Ask>, a: Ask, w: World)
    requires Sound(db, log)
    ensures Sound(Handled(db, log, a, w).db, Handled(db, log, a, w).log) && Keeps(db, Handled(db, log, a, w).db)
  {
    HandledDispatches(db, log, a, w);
    var end := Handled(db, log, a, w);
    if Idle(db, end, log, a) {
      IdleKeepsSound(db, end, log, a);
    } else {
      RanKeepsSound(db, end, log, a);
    }
  }

  lemma IdleKeepsSound(db: Database, end: End, log: seq<Ask>, a: Ask)
    requires Sound(db, log) && Idle(db, end, log, a)
    ensures Sound(end.db, end.log) && Keeps(db, end.db)
  {
  }

  lemma Elsewhere(before: map<Text, Request>, after: map<Text, Request>, key: Text)
    requires after - {key} == before - {key}
    ensures forall k :: k != key ==> (k in after <==> k in before)
    ensures forall k :: k != key && k in before ==> after[k] == before[k]
  {
    forall k | k != key ensures (k in after <==> k in before) && (k in before ==> after[k] == before[k]) {
      assert k in after - {key} <==> k in after;
      assert k in before - {key} <==> k in before;
      assert k in before ==> (after - {key})[k] == after[k] && (before - {key})[k] == before[k];
    }
  }

  lemma RanKeepsSound(db: Database, end: End, log: seq<Ask>, a: Ask)
    requires Sound(db, log) && a.key !in db.requests && RanTo(db, end, log, a)
    ensures Sound(end.db, end.log) && Keeps(db, end.db)
  {
    Elsewhere(db.requests, end.db.requests, a.key);
    forall i | 0 <= i < |log| && log[i].operation.Write? ensures log[i].key != a.key {
    }
    RanOnce(log, a);
  }

  /** The row of a write that succeeded with `result`. */
  ghost predicate Done(db: Database, a: Ask, result: Text) {
    && a.key in db.requests && Journals.SameRequest(db.requests[a.key], a.sid, a.operation, a.arguments)
    && db.requests[a.key].state.Succeeded? && db.requests[a.key].response == Some(OkResponse(result))
  }

  /** An ok answer is journalled before it is given. */
  lemma {:induction false} OkIsDone(db: Database, log: seq<Ask>, a: Ask, w: World, result: Text)
    requires Sound(db, log) && Handled(db, log, a, w).answer == Some(OkResponse(result))
    ensures Done(Handled(db, log, a, w).db, a, result)
  {
    HandledDispatches(db, log, a, w);
  }

  /** The same request again, from a live session: the same answer, and nothing runs. */
  lemma {:induction false} DoneAnswersAgain(db: Database, log: seq<Ask>, a: Ask, w: World, result: Text)
    requires Done(db, a, result) && Sessions.Live(db, a.sid, w.now) && w.valid && w.atSession.Fine? && w.atPrior.Fine?
    ensures Handled(db, log, a, w) == End(db, log, Some(OkResponse(result)))
  {
  }

  // ---------- over any sequence of requests ----------

  /** A request with its world, or a pending write resolved by proof: present with a result,
      or proved to have no single effect. */
  datatype Event = Asks(a: Ask, w: World) | Resolves(key: Text, present: Option<Text>)

  function Resolution(db: Database, key: Text, present: Option<Text>): Database {
    if key in db.requests && db.requests[key].state.VerifyPending? then
      After(db, if present.Some? then Journals.Finish(db, key, RequestState.Succeeded, OkResponse(present.value))
                else Journals.Finish(db, key, RequestState.Failed, Denied))
    else db
  }

  datatype State = State(db: Database, log: seq<Ask>)

  function Serve(s: State, e: Event): State {
    match e
    case Asks(a, w) => State(Handled(s.db, s.log, a, w).db, Handled(s.db, s.log, a, w).log)
    case Resolves(key, present) => State(Resolution(s.db, key, present), s.log)
  }

  function Served(s: State, events: seq<Event>): State {
    if events == [] then s else Serve(Served(s, events[..|events| - 1]), events[|events| - 1])
  }

  lemma FinishKeepsSound(db: Database, log: seq<Ask>, key: Text, state: RequestState, response: Response)
    requires Sound(db, log) && key in db.requests && db.requests[key].state.VerifyPending?
    requires (state.Succeeded? || state.Failed?) && (response.OkResponse? ==> state.Succeeded?)
    ensures var after := After(db, Journals.Finish(db, key, state, response)); Sound(after, log) && Keeps(db, after)
  {
  }

  lemma ResolutionKeepsSound(db: Database, log: seq<Ask>, key: Text, present: Option<Text>)
    requires Sound(db, log)
    ensures Sound(Resolution(db, key, present), log) && Keeps(db, Resolution(db, key, present))
  {
    if key in db.requests && db.requests[key].state.VerifyPending? {
      if present.Some? {
        FinishKeepsSound(db, log, key, RequestState.Succeeded, OkResponse(present.value));
      } else {
        FinishKeepsSound(db, log, key, RequestState.Failed, Denied);
      }
    }
  }

  lemma ServeKeepsSound(s: State, e: Event)
    requires Sound(s.db, s.log)
    ensures Sound(Serve(s, e).db, Serve(s, e).log) && Keeps(s.db, Serve(s, e).db)
  {
    match e
    case Asks(a, w) => HandledKeepsSound(s.db, s.log, a, w);
    case Resolves(key, present) => ResolutionKeepsSound(s.db, s.log, key, present);
  }

  /** Over any sequence of requests, failing or crashing at any call, each write runs at most
      once and with the arguments journalled under its key. */
  lemma {:induction false} WritesRunAtMostOnce(s: State, events: seq<Event>)
    requires Sound(s.db, s.log)
    ensures Sound(Served(s, events).db, Served(s, events).log)
    ensures Keeps(s.db, Served(s, events).db)
    decreases events
  {
    if events != [] {
      var before := Served(s, events[..|events| - 1]);
      WritesRunAtMostOnce(s, events[..|events| - 1]);
      ServeKeepsSound(before, events[|events| - 1]);
      KeepsThrough(s.db, before.db, Served(s, events).db);
    }
  }

  lemma KeepsThrough(a: Database, b: Database, c: Database)
    requires Keeps(a, b) && Keeps(b, c)
    ensures Keeps(a, c)
  {
  }

  /** Once a write was answered ok, the same request in a live session is answered the same,
      for ever, and never runs again. */
  lemma {:induction false} OkAnswersStand(s: State, a: Ask, w: World, result: Text, events: seq<Event>, again: World)
    requires Sound(s.db, s.log) && a.operation.Write? && Handled(s.db, s.log, a, w).answer == Some(OkResponse(result))
    requires var after := Served(Serve(s, Asks(a, w)), events); Sessions.Live(after.db, a.sid, again.now)
    requires again.valid && again.atSession.Fine? && again.atPrior.Fine?
    ensures var after := Served(Serve(s, Asks(a, w)), events);
      Handled(after.db, after.log, a, again) == End(after.db, after.log, Some(OkResponse(result)))
  {
    OkIsDone(s.db, s.log, a, w, result);
    HandledKeepsSound(s.db, s.log, a, w);
    WritesRunAtMostOnce(Serve(s, Asks(a, w)), events);
    var after := Served(Serve(s, Asks(a, w)), events);
    assert Done(after.db, a, result);
    DoneAnswersAgain(after.db, after.log, a, again, result);
  }

  /** A fresh request reaches its side effect. */
  predicate Starts(db: Database, a: Ask, w: World) {
    && Sessions.Live(db, a.sid, w.now) && w.valid && w.facts.Answers? && w.authorized
    && w.atSession.Fine? && w.atPrior.Fine? && w.atReserve.Fine? && w.atMark.Fine?
  }

  /** What leaves a started request applying: the process dies in the side effect; the store
      refuses in it; it ends badly in any other way and the journal cannot be written either;
      or it ends well and its result is not written: by a crash, or by an error that the journal
      cannot record. */
  predicate Sticks(w: World) {
    match w.execution
    case Dies => true
    case Refuses => true
    case Denies => !w.atCleanup.Fine?
    case TimesOut => !w.atCleanup.Fine?
    case Breaks => !w.atCleanup.Fine?
    case Answers(_) => w.atFinish.Crashes? || (w.atFinish.Raises? && !w.atCleanup.Fine?)
  }

  // ---------- what a request leaves and answers ----------

  function RowOf(a: Ask, state: RequestState, response: Option<Response>): Request {
    Request(a.sid, a.operation, a.arguments, state, response)
  }

  /** What is left of a request under a fresh key: its row, if any, and the answer, if any. */
  datatype Left = Left(row: Option<Request>, answer: Option<Response>)

  /** An answer, unless the process dies before it. */
  function Unless(crash: Trouble, answer: Response): Option<Response> {
    if crash.Crashes? then None else Some(answer)
  }

  /** An ending that is recorded as `state` if the journal can still be written, and otherwise
      leaves the row as it was; the answer is the same either way. */
  function Recorded(a: Ask, w: World, before: Request, state: RequestState, answer: Response): Left {
    if w.atCleanup.Fine? then Left(Some(RowOf(a, state, Some(answer))), Some(answer))
    else Left(Some(before), Unless(w.atCleanup, answer))
  }

  /** An unexpected error: a write may have happened, so it is left for verification; a read is
      dropped, so that it can be tried again. */
  function Upset(a: Ask, w: World, before: Request): Left {
    if a.operation.Write? then Recorded(a, w, before, RequestState.VerifyPending, Indeterminate)
    else if w.atCleanup.Fine? then Left(None, Some(Retryable))
    else Left(Some(before), Unless(w.atCleanup, Retryable))
  }

  /** The table of endings of a started request. A denial is the only one journalled as a
      failure; whatever may have happened remotely is left for verification. */
  function Ending(a: Ask, w: World): Left {
    var applying := RowOf(a, RequestState.Applying, None);
    match w.execution
    case Dies => Left(Some(applying), None)
    case Refuses => Left(Some(applying), Some(Conflict))
    case Denies => Recorded(a, w, applying, RequestState.Failed, Denied)
    case TimesOut => Recorded(a, w, applying, RequestState.VerifyPending, Indeterminate)
    case Breaks => Upset(a, w, applying)
    case Answers(result) =>
      var done := RowOf(a, RequestState.Succeeded, Some(OkResponse(result)));
      if w.atFinish.Crashes? then Left(Some(applying), None)
      else if w.atFinish.Raises? then Upset(a, w, applying)
      else if w.atAudit.Raises? then Upset(a, w, done)
      else Left(Some(done), Unless(w.atAudit, OkResponse(result)))
  }

  /** The database with this row under the request's fresh key. */
  function Holding(db: Database, a: Ask, row: Option<Request>): Database {
    if row.None? then db else db.(requests := db.requests[a.key := row.value])
  }

  ghost predicate EndsAs(db: Database, end: End, a: Ask, left: Left) {
    end.db == Holding(db, a, left.row) && end.answer == left.answer
  }

  predicate Own(a: Ask, row: Request) {
    row.session == a.sid && row.operation == a.operation && row.arguments == a.arguments
  }

  lemma HoldingTwice(db: Database, a: Ask, before: Request, row: Request)
    ensures Holding(Holding(db, a, Some(before)), a, Some(row)) == Holding(db, a, Some(row))
  {
    assert db.requests[a.key := before][a.key := row] == db.requests[a.key := row];
  }

  lemma ClosingEnds(db: Database, log: seq<Ask>, a: Ask, w: World, before: Request, state: RequestState, answer: Response)
    requires Own(a, before) && (state.VerifyPending? || state.Failed?)
    ensures EndsAs(db, Closing(Holding(db, a, Some(before)), log, a, state, answer, w), a, Recorded(a, w, before, state, answer))
  {
    HoldingTwice(db, a, before, before.(state := state, response := Some(answer)));
  }

  lemma UnexpectedEnds(db: Database, log: seq<Ask>, a: Ask, w: World, before: Request)
    requires a.key !in db.requests && Own(a, before)
    ensures EndsAs(db, Unexpected(Holding(db, a, Some(before)), log, a, true, w), a, Upset(a, w, before))
  {
    if a.operation.Write? {
      ClosingEnds(db, log, a, w, before, RequestState.VerifyPending, Indeterminate);
    } else {
      assert db.requests[a.key := before] - {a.key} == db.requests;
    }
  }

  lemma FinishedRow(db: Database, a: Ask, result: Text)
    ensures var applying := Holding(db, a, Some(RowOf(a, RequestState.Applying, None)));
      After(applying, Journals.Finish(applying, a.key, RequestState.Succeeded, OkResponse(result)))
      == Holding(db, a, Some(RowOf(a, RequestState.Succeeded, Some(OkResponse(result)))))
  {
    HoldingTwice(db, a, RowOf(a, RequestState.Applying, None), RowOf(a, RequestState.Succeeded, Some(OkResponse(result))));
  }

  lemma AppliedEnds(db: Database, log: seq<Ask>, a: Ask, w: World)
    requires a.key !in db.requests
    ensures EndsAs(db, Applied(Holding(db, a, Some(RowOf(a, RequestState.Applying, None))), log, a, w), a, Ending(a, w))
  {
    var applying := RowOf(a, RequestState.Applying, None);
    UnexpectedEnds(db, log + [a], a, w, applying);
    match w.execution
    case Dies =>
    case Refuses =>
    case Denies => ClosingEnds(db, log + [a], a, w, applying, RequestState.Failed, Denied);
    case TimesOut => ClosingEnds(db, log + [a], a, w, applying, RequestState.VerifyPending, Indeterminate);
    case Breaks =>
    case Answers(result) =>
      FinishedRow(db, a, result);
      UnexpectedEnds(db, log + [a], a, w, RowOf(a, RequestState.Succeeded, Some(OkResponse(result))));
  }

  lemma AppliedLogs(db: Database, log: seq<Ask>, a: Ask, w: World)
    ensures Applied(db, log, a, w).log == log + [a]
  {
  }

  lemma StartedApplies(db: Database, log: seq<Ask>, a: Ask, w: World)
    requires a.key !in db.requests && Starts(db, a, w)
    ensures Handled(db, log, a, w) == Applied(Holding(db, a, Some(RowOf(a, RequestState.Applying, None))), log, a, w)
  {
    HoldingTwice(db, a, NewRow(a), RowOf(a, RequestState.Applying, None));
  }

  /** Under a fresh key, a request that reaches its side effect ends as the table says. */
  lemma {:induction false} StartedEnds(db: Database, log: seq<Ask>, a: Ask, w: World)
    requires a.key !in db.requests && Starts(db, a, w)
    ensures EndsAs(db, Handled(db, log, a, w), a, Ending(a, w)) && Handled(db, log, a, w).log == log + [a]
  {
    StartedApplies(db, log, a, w);
    AppliedEnds(db, log, a, w);
    AppliedLogs(Holding(db, a, Some(RowOf(a, RequestState.Applying, None))), log, a, w);
  }

  /** What stands between a fresh request and its side effect: each gate lets it through, or stops
      it with an answer, or with none. */
  datatype Gate = Open | Shut(answer: Option<Response>)

  function Storing(t: Trouble, w: World): Gate {
    match t
    case Fine => Open
    case Raises => Shut(Unless(w.atCleanup, Retryable))
    case Crashes => Shut(None)
  }

  function Requiring(holds: bool, answer: Response): Gate {
    if holds then Open else Shut(Some(answer))
  }

  function Asking(facts: Reply, w: World): Gate {
    match facts
    case Answers(_) => Open
    case Denies => Shut(Some(Denied))
    case Refuses => Shut(Some(Conflict))
    case TimesOut => Shut(Some(Retryable))
    case Breaks => Shut(Unless(w.atCleanup, Retryable))
    case Dies => Shut(None)
  }

  /** In the order they are met. */
  function Gates(db: Database, a: Ask, w: World): seq<Gate> {
    [Storing(w.atSession, w), Requiring(Sessions.Live(db, a.sid, w.now), Conflict), Requiring(w.valid, Denied), Storing(w.atPrior, w),
     Asking(w.facts, w), Requiring(w.authorized, Denied), Storing(w.atReserve, w), Storing(w.atMark, w)]
  }

  predicate FirstShut(gates: seq<Gate>, i: nat) {
    i < |gates| && gates[i].Shut? && forall j :: 0 <= j < i ==> gates[j].Open?
  }

  const MARKING: nat := 7

  /** Stopped at the last gate, a request has journalled itself; only a read takes that back. */
  function Reservation(a: Ask, w: World, i: nat): Option<Request> {
    if i == MARKING && (a.operation.Write? || w.atMark.Crashes? || !w.atCleanup.Fine?) then Some(NewRow(a)) else None
  }

  lemma StoppedEnds(db: Database, log: seq<Ask>, a: Ask, w: World, i: nat)
    requires a.key !in db.requests && FirstShut(Gates(db, a, w), i)
    ensures EndsAs(db, Handled(db, log, a, w), a, Left(Reservation(a, w, i), Gates(db, a, w)[i].answer))
    ensures Handled(db, log, a, w).log == log
  {
    var g := Gates(db, a, w);
    assert g[0] == Storing(w.atSession, w) && g[1] == Requiring(Sessions.Live(db, a.sid, w.now), Conflict);
    assert g[2] == Requiring(w.valid, Denied);
    assert g[3] == Storing(w.atPrior, w) && g[4] == Asking(w.facts, w) && g[5] == Requiring(w.authorized, Denied);
    assert g[6] == Storing(w.atReserve, w) && g[7] == Storing(w.atMark, w);
    assert db.requests[a.key := NewRow(a)] - {a.key} == db.requests;
  }

  lemma AllOpenStarts(db: Database, a: Ask, w: World)
    ensures (forall i :: 0 <= i < |Gates(db, a, w)| ==> Gates(db, a, w)[i].Open?) ==> Starts(db, a, w)
  {
    var g := Gates(db, a, w);
    assert g[0] == Storing(w.atSession, w) && g[1] == Requiring(Sessions.Live(db, a.sid, w.now), Conflict);
    assert g[2] == Requiring(w.valid, Denied);
    assert g[3] == Storing(w.atPrior, w) && g[4] == Asking(w.facts, w) && g[5] == Requiring(w.authorized, Denied);
    assert g[6] == Storing(w.atReserve, w) && g[7] == Storing(w.atMark, w);
  }

  lemma SomeGateIsShut(db: Database, a: Ask, w: World) returns (i: nat)
    requires !Starts(db, a, w)
    ensures FirstShut(Gates(db, a, w), i)
  {
    var g := Gates(db, a, w);
    AllOpenStarts(db, a, w);
    i := 0;
    while i < |g| && g[i].Open?
      invariant i <= |g| && forall j :: 0 <= j < i ==> g[j].Open?
    {
      i := i + 1;
    }
  }

  /** Without the side effect the first gate that is shut gives the answer; nothing is journalled
      before the last gate, and no ok is answered. */
  lemma {:induction false} UnstartedEnds(db: Database, log: seq<Ask>, a: Ask, w: World)
    requires a.key !in db.requests && !Starts(db, a, w)
    ensures exists i: nat ::
      && FirstShut(Gates(db, a, w), i)
      && EndsAs(db, Handled(db, log, a, w), a, Left(Reservation(a, w, i), Gates(db, a, w)[i].answer))
    ensures Handled(db, log, a, w).log == log
  {
    var i := SomeGateIsShut(db, a, w);
    StoppedEnds(db, log, a, w, i);
  }

  /** A row exists: the same request is answered from it, any other is a conflict, and nothing runs. */
  lemma {:induction false} JournalledAnswers(db: Database, log: seq<Ask>, a: Ask, w: World)
    requires a.key in db.requests && Sessions.Live(db, a.sid, w.now) && w.valid && w.atSession.Fine? && w.atPrior.Fine?
    ensures var row := db.requests[a.key];
      Handled(db, log, a, w) == End(db, log,
        Some(if row.session == a.sid && row.operation == a.operation && row.arguments == a.arguments
             then if row.response.Some? then row.response.value else Indeterminate
             else Conflict))
  {
  }

  predicate InState(requests: map<Text, Request>, key: Text, state: RequestState) {
    key in requests && requests[key].state == state
  }

  /** The remote effect may have happened, and the journal could record that. */
  predicate Unproved(w: World) {
    && w.atCleanup.Fine?
    && (|| w.execution.TimesOut? || w.execution.Breaks?
        || (w.execution.Answers? && (w.atFinish.Raises? || (w.atFinish.Fine? && w.atAudit.Raises?))))
  }

  predicate Completed(w: World) {
    w.execution.Answers? && w.atFinish.Fine? && !(w.atAudit.Raises? && w.atCleanup.Fine?)
  }

  lemma EndingSays(a: Ask, w: World)
    ensures var row := Ending(a, w).row;
      && (row.Some? && row.value.state.Applying? <==> Sticks(w))
      && (Sticks(w) ==> row == Some(RowOf(a, RequestState.Applying, None)))
      && (a.operation.Write? ==>
            && row.Some?
            && (row.value.state.Failed? <==> w.execution.Denies? && w.atCleanup.Fine?)
            && (row.value.state.VerifyPending? <==> Unproved(w)) && (row.value.state.Succeeded? <==> Completed(w)))
  {
  }

  lemma EndsAsIn(db: Database, end: End, a: Ask, left: Left, state: RequestState)
    requires a.key !in db.requests && EndsAs(db, end, a, left)
    ensures InState(end.db.requests, a.key, state) <==> left.row.Some? && left.row.value.state == state
  {
  }

  lemma StartedIn(db: Database, log: seq<Ask>, a: Ask, w: World, state: RequestState)
    requires a.key !in db.requests && Starts(db, a, w)
    ensures InState(Handled(db, log, a, w).db.requests, a.key, state) <==> Ending(a, w).row.Some? && Ending(a, w).row.value.state == state
  {
    StartedEnds(db, log, a, w);
    EndsAsIn(db, Handled(db, log, a, w), a, Ending(a, w), state);
  }

  lemma UnstartedIn(db: Database, log: seq<Ask>, a: Ask, w: World, state: RequestState)
    requires a.key !in db.requests && !Starts(db, a, w) && !state.Reserved?
    ensures !InState(Handled(db, log, a, w).db.requests, a.key, state)
  {
    var i := SomeGateIsShut(db, a, w);
    StoppedEnds(db, log, a, w, i);
  }

  /** Under a fresh key the row is left applying iff the side effect was started and stuck. What
      the audit does decides nothing. */
  lemma {:induction false} StaysApplyingIff(db: Database, log: seq<Ask>, a: Ask, w: World)
    requires a.key !in db.requests
    ensures InState(Handled(db, log, a, w).db.requests, a.key, RequestState.Applying) <==> Starts(db, a, w) && Sticks(w)
  {
    if Starts(db, a, w) {
      StartedIn(db, log, a, w, RequestState.Applying);
      EndingSays(a, w);
    } else {
      UnstartedIn(db, log, a, w, RequestState.Applying);
    }
  }

  /** A write is journalled as failed if and only if the backend denied it, and as pending if and
      only if it may have happened: it timed out or broke, or its result was not journalled, or not
      audited. */
  lemma {:induction false} WritesFailIff(db: Database, log: seq<Ask>, a: Ask, w: World)
    requires a.key !in db.requests && a.operation.Write?
    ensures var after := Handled(db, log, a, w).db.requests;
      && (InState(after, a.key, RequestState.Failed) <==> Starts(db, a, w) && w.execution.Denies? && w.atCleanup.Fine?)
      && (InState(after, a.key, RequestState.VerifyPending) <==> Starts(db, a, w) && Unproved(w))
      && (InState(after, a.key, RequestState.Succeeded) <==> Starts(db, a, w) && Completed(w))
  {
    forall state: RequestState | !state.Reserved?
      ensures InState(Handled(db, log, a, w).db.requests, a.key, state)
        <==> Starts(db, a, w) && Ending(a, w).row.Some? && Ending(a, w).row.value.state == state
    {
      if Starts(db, a, w) {
        StartedIn(db, log, a, w, state);
      } else {
        UnstartedIn(db, log, a, w, state);
      }
    }
    EndingSays(a, w);
  }

  /** No request changes the journalled row of an earlier write. */
  lemma DispatchLeavesWrites(db: Database, end: End, log: seq<Ask>, a: Ask, key: Text)
    requires Dispatched(db, end, log, a) && key in db.requests && db.requests[key].operation.Write?
    ensures key in end.db.requests && end.db.requests[key] == db.requests[key]
  {
    if end.db.requests - {a.key} == db.requests - {a.key} {
      Elsewhere(db.requests, end.db.requests, a.key);
    }
  }

  lemma AskLeavesWrites(s: State, a: Ask, w: World, key: Text)
    requires key in s.db.requests && s.db.requests[key].operation.Write?
    ensures var after := Handled(s.db, s.log, a, w).db.requests; key in after && after[key] == s.db.requests[key]
  {
    HandledDispatches(s.db, s.log, a, w);
    DispatchLeavesWrites(s.db, Handled(s.db, s.log, a, w), s.log, a, key);
  }

  lemma ResolutionLeavesApplying(db: Database, other: Text, present: Option<Text>, key: Text)
    requires key in db.requests && db.requests[key].state.Applying?
    ensures var after := Resolution(db, other, present).requests; key in after && after[key] == db.requests[key]
  {
  }

  lemma ServeLeavesApplying(s: State, e: Event, key: Text)
    requires key in s.db.requests && s.db.requests[key].operation.Write? && s.db.requests[key].state.Applying?
    ensures key in Serve(s, e).db.requests && Serve(s, e).db.requests[key] == s.db.requests[key]
  {
    match e
    case Asks(a, w) => AskLeavesWrites(s, a, w, key);
    case Resolves(other, present) => ResolutionLeavesApplying(s.db, other, present, key);
  }

  /** Nothing ever moves a write left applying: no later request and no resolution by proof. */
  lemma {:induction false} ApplyingIsForever(s: State, events: seq<Event>, key: Text)
    requires key in s.db.requests && s.db.requests[key].operation.Write? && s.db.requests[key].state.Applying?
    ensures var after := Served(s, events).db.requests; key in after && after[key] == s.db.requests[key]
    decreases events
  {
    if events != [] {
      ApplyingIsForever(s, events[..|events| - 1], key);
      ServeLeavesApplying(Served(s, events[..|events| - 1]), events[|events| - 1], key);
    }
  }

  /** Not so for a read: an unexpected error on a later identical request drops its row, and
      the one after that runs again. */
  lemma ReadAnswersMayChange(db: Database, log: seq<Ask>, a: Ask, result: Text, other: Text, now: Time)
    requires a.operation.Read? && Done(db, a, result) && Sessions.Live(db, a.sid, now) && other != result
    ensures var upset := World(now, true, Answers(0), true, Answers(other), Fine, Raises, Fine, Fine, Fine, Fine, Fine);
      var middle := Handled(db, log, a, upset);
      var calm := upset.(atPrior := Fine);
      Handled(middle.db, middle.log, a, calm).answer == Some(OkResponse(other))
  {
  }
}
