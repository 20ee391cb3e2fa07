/** Polling over whole runs: whatever the service does between the polls of a source, and
    however many polls break off, no event of the source is missed. */
module RunPolls {
  import opened Outcomes
  import opened Tables
  import opened Polling
  import opened Runs
  import Deliveries
  import Feeds
  import RunBoard
  import Wakes

  /** Any transaction but one that publishes a snapshot of the source outside a poll, or opens
      its checkpoint at another time than the configured one. */
  predicate Aside(db: Database, c: Command, source: Name, initial: Time) {
    match c
    case OfFeed(f) =>
      && (f.OpenCheckpoint? && f.source == source ==> f.initial == initial)
      && (f.FinishSnapshot? && f.complete ==> f.id in db.snapshots ==> db.snapshots[f.id].source != source)
    case _ => true
  }

  /** The source's watermark stands, and no event is forgotten. */
  ghost predicate Stands(db: Database, after: Database, source: Name, initial: Time) {
    && FeedOf(after, source, initial).watermark == FeedOf(db, source, initial).watermark
    && FeedOf(db, source, initial).known <= FeedOf(after, source, initial).known
  }

  predicate SameFeeds(db: Database, after: Database) {
    && after.checkpoints == db.checkpoints && after.snapshots == db.snapshots && after.staged == db.staged
    && db.observed.Keys <= after.observed.Keys
  }

  lemma DeliveryKeepsFeeds(db: Database, c: DeliveryCommand)
    ensures SameFeeds(db, DeliveryStep(db, c))
  {
    DeliveryFrame(db, c);
    match c
    case LeaseDelivery(owner, now, seconds, ceiling) => LeaseKeepsObserved(db, owner, now, seconds, ceiling);
    case EnqueueDelivery(id, role, events, key, at) => EnqueueKeepsObserved(db, id, role, events, key, at);
    case FinishDelivery(id, owner, outcome, at) => FinishKeepsObserved(db, id, owner, outcome, at);
    case _ =>
  }

  lemma LeaseKeepsObserved(db: Database, owner: Name, now: Time, seconds: int, ceiling: int)
    ensures After(db, Deliveries.Lease(db, owner, now, seconds, ceiling)).observed == db.observed
  {
  }

  lemma EnqueueKeepsObserved(db: Database, id: Id, role: Name, events: set<EventId>, key: DeliveryKey, at: Time)
    ensures After(db, Deliveries.Enqueue(db, id, role, events, key, at)).observed == db.observed
  {
  }

  lemma FinishKeepsObserved(db: Database, id: Id, owner: Name, outcome: Deliveries.Result, at: Time)
    ensures After(db, Deliveries.Finish(db, id, owner, outcome, at)).observed == db.observed
  {
  }

  lemma RetryKeepsFeeds(db: Database, delivery: Option<Id>, eligible: Option<Time>)
    requires Wakes.RetryIfBound(db, delivery, eligible).Commit?
    ensures SameFeeds(db, Wakes.RetryIfBound(db, delivery, eligible).db)
  {
  }

  lemma RecoveryKeepsFeeds(db: Database, c: RecoveryCommand)
    ensures SameFeeds(db, RecoveryStep(db, c))
  {
    if RecoveryStep(db, c) != db {
      match c
      case RecoverOrphanSession(sid, delivery, eligible) =>
        RunBoard.OrphanParts(db, sid, delivery, eligible);
        RetryKeepsFeeds(Wakes.ReleaseFor(db, sid).db, delivery, eligible);
      case RecoverPreparedWake(w, at) =>
        RunBoard.PreparedParts(db, w, at);
        RetryKeepsFeeds(Wakes.ReleaseFor(db, db.wakes[w].session).db, db.wakes[w].delivery, Some(at));
    }
  }

  lemma PublishingStands(db: Database, id: Id, complete: bool, watermark: Option<Time>, source: Name, initial: Time)
    requires Collected(db) && Aside(db, OfFeed(FinishSnapshot(id, complete, watermark)), source, initial)
    ensures var after := After(db, Feeds.Finish(db, id, complete, watermark)); Stands(db, after, source, initial) && Collected(after)
  {
  }

  lemma OpeningStands(db: Database, which: Name, at: Time, source: Name, initial: Time)
    requires Collected(db) && (which == source ==> at == initial)
    ensures Stands(db, Feeds.Opened(db, which, at), source, initial) && Collected(Feeds.Opened(db, which, at))
  {
  }

  lemma BeginningStands(db: Database, id: Id, begun: Name, source: Name, initial: Time)
    requires Collected(db)
    ensures var after := After(db, Feeds.Begin(db, id, begun)); Stands(db, after, source, initial) && Collected(after)
  {
  }

  lemma StagingStands(db: Database, id: Id, seen: Observation, source: Name, initial: Time)
    requires Collected(db)
    ensures var after := After(db, Feeds.Stage(db, id, seen)); Stands(db, after, source, initial) && Collected(after)
  {
  }

  lemma FeedStands(db: Database, c: FeedCommand, source: Name, initial: Time)
    requires Collected(db) && Aside(db, OfFeed(c), source, initial)
    ensures Stands(db, FeedStep(db, c), source, initial) && Collected(FeedStep(db, c))
  {
    match c
    case OpenCheckpoint(s, at) => OpeningStands(db, s, at, source, initial);
    case BeginSnapshot(id, s) => BeginningStands(db, id, s, source, initial);
    case StageObservation(id, seen) => StagingStands(db, id, seen, source, initial);
    case FinishSnapshot(id, complete, watermark) => PublishingStands(db, id, complete, watermark, source, initial);
  }

  lemma SameFeedsStand(db: Database, after: Database, source: Name, initial: Time)
    requires Collected(db) && SameFeeds(db, after)
    ensures Stands(db, after, source, initial) && Collected(after)
  {
  }

  /** No other transaction of the store moves the source's watermark or forgets an event. */
  lemma StepStands(db: Database, c: Command, source: Name, initial: Time)
    requires Collected(db) && Aside(db, c, source, initial)
    ensures Stands(db, Step(db, c), source, initial) && Collected(Step(db, c))
  {
    var after := Step(db, c);
    match c
    case OfFeed(f) => FeedStands(db, f, source, initial);
    case OfDelivery(d) => DeliveryKeepsFeeds(db, d); SameFeedsStand(db, after, source, initial);
    case OfRecovery(r) => RecoveryKeepsFeeds(db, r); SameFeedsStand(db, after, source, initial);
    case OfSession(x) => SessionFrame(db, x); SameFeedsStand(db, after, source, initial);
    case OfBudget(x) => BudgetFrame(db, x); SameFeedsStand(db, after, source, initial);
    case OfWake(x) => WakeFrame(db, x); SameFeedsStand(db, after, source, initial);
    case OfJournal(x) => JournalFrame(db, x); SameFeedsStand(db, after, source, initial);
  }

  /** A transaction of any part of the service; a whole call that polls some source; or the
      last transaction of a poll of this source that began when the run was in its `began`-th
      state, and may have overlapped with other polls of it since. */
  datatype Turn =
    | Transaction(command: Command)
    | Polls(of: Name, poll: Poll, result: PollResult)
    | Publishes(snapshot: Id, poll: Poll, began: nat)

  /** The snapshot holds what the poll's pages held. */
  ghost predicate Holding(db: Database, source: Name, id: Id, items: seq<Seen>) {
    && id in db.snapshots && db.snapshots[id] == Snapshot(source, Collecting) && source in db.checkpoints
    && StagedNames(db.staged, id) == Named(source, items)
  }

  /** The state in which the turn read the source's watermark. */
  function BeganAt(turn: Turn, i: nat): nat {
    if turn.Publishes? then turn.began else i
  }

  function MarkOf(db: Database, source: Name, initial: Time): Time {
    FeedOf(db, source, initial).watermark
  }

  ghost predicate Turned(db: Database, after: Database, turn: Turn, base: Time, source: Name, initial: Time) {
    match turn
    case Transaction(c) => Aside(db, c, source, initial) && after == Step(db, c)
    case Polls(of, poll, r) => Promised(db, after, of, poll.items, poll.whole, initial, r)
    case Publishes(id, poll, _) =>
      && poll.whole && Holding(db, source, id, poll.items)
      && after == Step(db, OfFeed(FinishSnapshot(id, true, Some(Latest(base, poll.items)))))
  }

  /** The states a run goes through, one more than its turns. */
  ghost predicate Goes(states: seq<Database>, turns: seq<Turn>, source: Name, initial: Time) {
    && |states| == |turns| + 1
    && (forall i :: 0 <= i < |turns| ==> BeganAt(turns[i], i) <= i)
    && forall i :: 0 <= i < |turns| ==>
      Turned(states[i], states[i + 1], turns[i], MarkOf(states[BeganAt(turns[i], i)], source, initial), source, initial)
  }

  /** A poll of the source was answered for the watermark it read less the overlap, by a source that
      shows nothing later than the overlap. */
  ghost predicate Answered(turn: Turn, base: Time, source: Name, all: set<Seen>, overlap: int) {
    turn.Publishes? || (turn.Polls? && turn.of == source) ==>
      Answers(turn.poll, base - overlap) && Prompt(turn.poll, all, overlap)
  }

  ghost predicate AllAnswered(states: seq<Database>, turns: seq<Turn>, source: Name, initial: Time, all: set<Seen>, overlap: int)
    requires Goes(states, turns, source, initial)
  {
    forall i :: 0 <= i < |turns| ==>
      Answered(turns[i], MarkOf(states[BeganAt(turns[i], i)], source, initial), source, all, overlap)
  }

  /** One turn: no event is forgotten, the watermark does not fall below the one it read, and
      what was known up to that one is known up to the new one. */
  ghost predicate Carries(db: Database, after: Database, base: Time, source: Name, initial: Time, all: set<Seen>, overlap: int,
                          since: Time) {
    var next := FeedOf(after, source, initial);
    && base <= next.watermark && db.observed.Keys <= next.known && Collected(after)
    && (Covered(Feed(base, db.observed.Keys), source, all, since, base - overlap) ==>
          Covered(next, source, all, since, next.watermark - overlap))
  }

  lemma StandingCarries(db: Database, after: Database, source: Name, initial: Time, all: set<Seen>, overlap: int, since: Time)
    requires Stands(db, after, source, initial) && Collected(after)
    ensures Carries(db, after, MarkOf(db, source, initial), source, initial, all, overlap, since)
  {
  }

  /** Polling another source leaves this one's watermark. */
  lemma OtherPollStands(db: Database, after: Database, of: Name, items: seq<Seen>, whole: bool, initial: Time, r: PollResult, source: Name)
    requires of != source && Promised(db, after, of, items, whole, initial, r)
    ensures Stands(db, after, source, initial) && Collected(after)
  {
  }

  lemma PolledCarries(db: Database, after: Database, base: Time, poll: Poll, source: Name, initial: Time, all: set<Seen>, overlap: int,
                      since: Time)
    requires 0 <= overlap && Answers(poll, base - overlap) && Prompt(poll, all, overlap) && Collected(after)
    requires FeedOf(after, source, initial) == Polled(Feed(base, db.observed.Keys), source, poll.items, poll.whole)
    ensures Carries(db, after, base, source, initial, all, overlap, since)
  {
    var feed := Feed(base, db.observed.Keys);
    LatestIsLatest(base, poll.items);
    if Covered(feed, source, all, since, base - overlap) {
      PolledCovers(feed, source, poll, all, overlap, since);
    }
  }

  lemma PublishedCarries(db: Database, after: Database, turn: Turn, base: Time, source: Name, initial: Time, all: set<Seen>, overlap: int,
                         since: Time)
    requires 0 <= overlap && Collected(db) && turn.Publishes? && Turned(db, after, turn, base, source, initial)
    requires Answered(turn, base, source, all, overlap)
    ensures Carries(db, after, base, source, initial, all, overlap, since)
  {
    Completing(db, source, turn.snapshot, Latest(base, turn.poll.items));
    StillCollected(db, after);
    PolledCarries(db, after, base, turn.poll, source, initial, all, overlap, since);
  }

  lemma TurnCarries(db: Database, after: Database, turn: Turn, base: Time, source: Name, initial: Time, all: set<Seen>, overlap: int,
                    since: Time)
    requires 0 <= overlap && Collected(db) && Turned(db, after, turn, base, source, initial)
    requires Answered(turn, base, source, all, overlap) && (turn.Publishes? || base == MarkOf(db, source, initial))
    ensures Carries(db, after, base, source, initial, all, overlap, since)
  {
    match turn
    case Transaction(c) =>
      StepStands(db, c, source, initial);
      StandingCarries(db, after, source, initial, all, overlap, since);
    case Polls(of, poll, r) =>
      if of == source {
        PolledCarries(db, after, base, poll, source, initial, all, overlap, since);
      } else {
        OtherPollStands(db, after, of, poll.items, poll.whole, initial, r, source);
        StandingCarries(db, after, source, initial, all, overlap, since);
      }
    case Publishes(_, _, _) => PublishedCarries(db, after, turn, base, source, initial, all, overlap, since);
  }

  /** State `i` of the run: every event since `since` is known up to each watermark there has been,
      less the overlap, and none of them was below the first. */
  ghost predicate Gapless(states: seq<Database>, i: nat, source: Name, initial: Time, all: set<Seen>, overlap: int)
    requires i < |states|
  {
    var first := MarkOf(states[0], source, initial);
    && Collected(states[i]) && states[0].observed.Keys <= states[i].observed.Keys
    && forall j :: 0 <= j <= i ==>
      && first <= MarkOf(states[j], source, initial)
      && Covered(FeedOf(states[i], source, initial), source, all, first - overlap, MarkOf(states[j], source, initial) - overlap)
  }

  lemma GaplessNext(states: seq<Database>, i: nat, b: nat, source: Name, initial: Time, all: set<Seen>, overlap: int)
    requires b <= i && i + 1 < |states| && Gapless(states, i, source, initial, all, overlap)
    requires Carries(states[i], states[i + 1], MarkOf(states[b], source, initial), source, initial, all, overlap,
                     MarkOf(states[0], source, initial) - overlap)
    ensures Gapless(states, i + 1, source, initial, all, overlap)
  {
  }

  /** The watermark the turn left is not below the one it read. */
  ghost predicate Rises(states: seq<Database>, turns: seq<Turn>, i: nat, source: Name, initial: Time)
    requires i < |turns| && BeganAt(turns[i], i) <= i && |states| == |turns| + 1
  {
    MarkOf(states[BeganAt(turns[i], i)], source, initial) <= MarkOf(states[i + 1], source, initial)
  }

  lemma TurnIsGapless(states: seq<Database>, turns: seq<Turn>, i: nat, source: Name, initial: Time, all: set<Seen>, overlap: int)
    requires 0 <= overlap && i < |turns| && Goes(states, turns, source, initial)
    requires AllAnswered(states, turns, source, initial, all, overlap) && Gapless(states, i, source, initial, all, overlap)
    ensures Gapless(states, i + 1, source, initial, all, overlap) && Rises(states, turns, i, source, initial)
  {
    var since := MarkOf(states[0], source, initial) - overlap;
    var b := BeganAt(turns[i], i);
    TurnCarries(states[i], states[i + 1], turns[i], MarkOf(states[b], source, initial), source, initial, all, overlap, since);
    GaplessNext(states, i, b, source, initial, all, overlap);
  }

  lemma {:induction false} GaplessUpTo(states: seq<Database>, turns: seq<Turn>, i: nat, source: Name, initial: Time, all: set<Seen>,
                                       overlap: int)
    requires 0 <= overlap && i <= |turns| && Goes(states, turns, source, initial) && Collected(states[0])
    requires AllAnswered(states, turns, source, initial, all, overlap)
    ensures Gapless(states, i, source, initial, all, overlap)
  {
    if i > 0 {
      GaplessUpTo(states, turns, i - 1, source, initial, all, overlap);
      TurnIsGapless(states, turns, i - 1, source, initial, all, overlap);
    }
  }

  // ---------- the stored overlap ----------

  /** Every checkpoint has the overlap it was made with: nothing ever writes it. */
  predicate Overlapping(db: Database) {
    forall s :: s in db.checkpoints ==> db.checkpoints[s].overlap == Feeds.OVERLAP_SECONDS
  }

  lemma FeedKeepsOverlaps(db: Database, c: FeedCommand)
    requires Overlapping(db)
    ensures Overlapping(FeedStep(db, c))
  {
  }

  lemma StepKeepsOverlaps(db: Database, c: Command)
    requires Overlapping(db)
    ensures Overlapping(Step(db, c))
  {
    match c
    case OfFeed(f) => FeedKeepsOverlaps(db, f);
    case OfDelivery(d) => DeliveryKeepsFeeds(db, d);
    case OfRecovery(x) => RecoveryKeepsFeeds(db, x);
    case OfSession(x) => SessionFrame(db, x);
    case OfBudget(x) => BudgetFrame(db, x);
    case OfWake(x) => WakeFrame(db, x);
    case OfJournal(x) => JournalFrame(db, x);
  }

  lemma PollKeepsOverlaps(db: Database, after: Database, of: Name, items: seq<Seen>, whole: bool, initial: Time, r: PollResult)
    requires Overlapping(db) && Promised(db, after, of, items, whole, initial, r)
    ensures Overlapping(after)
  {
    forall s | s in after.checkpoints ensures after.checkpoints[s].overlap == Feeds.OVERLAP_SECONDS {
      if s != of {
        assert s in db.checkpoints;
      }
    }
  }

  lemma TurnKeepsOverlaps(db: Database, after: Database, turn: Turn, base: Time, source: Name, initial: Time)
    requires Overlapping(db) && Turned(db, after, turn, base, source, initial)
    ensures Overlapping(after)
  {
    match turn
    case Transaction(c) => StepKeepsOverlaps(db, c);
    case Polls(of, poll, r) => PollKeepsOverlaps(db, after, of, poll.items, poll.whole, initial, r);
    case Publishes(id, poll, _) => StepKeepsOverlaps(db, OfFeed(FinishSnapshot(id, true, Some(Latest(base, poll.items)))));
  }

  lemma OverlapsNext(states: seq<Database>, turns: seq<Turn>, i: nat, source: Name, initial: Time)
    requires Goes(states, turns, source, initial) && i < |turns| && Overlapping(states[i])
    ensures Overlapping(states[i + 1])
  {
    var base := MarkOf(states[BeganAt(turns[i], i)], source, initial);
    TurnKeepsOverlaps(states[i], states[i + 1], turns[i], base, source, initial);
  }

  lemma {:induction false} OverlapsStay(states: seq<Database>, turns: seq<Turn>, i: nat, source: Name, initial: Time)
    requires Goes(states, turns, source, initial) && i <= |turns| && Overlapping(states[0])
    ensures Overlapping(states[i])
  {
    if i > 0 {
      OverlapsStay(states, turns, i - 1, source, initial);
      OverlapsNext(states, turns, i - 1, source, initial);
    }
  }

  /** Every poll of the source was answered from the time it asked from, by a source that shows
      nothing later than the overlap. */
  ghost predicate Served(states: seq<Database>, turns: seq<Turn>, source: Name, initial: Time, all: set<Seen>)
    requires Goes(states, turns, source, initial)
  {
    forall i :: 0 <= i < |turns| && (turns[i].Publishes? || (turns[i].Polls? && turns[i].of == source)) ==>
      && Answers(turns[i].poll, AskedAt(states[BeganAt(turns[i], i)], source, initial))
      && Prompt(turns[i].poll, all, Feeds.OVERLAP_SECONDS)
  }

  lemma ServedIsAnswered(states: seq<Database>, turns: seq<Turn>, source: Name, initial: Time, all: set<Seen>)
    requires Goes(states, turns, source, initial) && Overlapping(states[0]) && Served(states, turns, source, initial, all)
    ensures AllAnswered(states, turns, source, initial, all, Feeds.OVERLAP_SECONDS)
  {
    forall i | 0 <= i < |turns|
      ensures Answered(turns[i], MarkOf(states[BeganAt(turns[i], i)], source, initial), source, all, Feeds.OVERLAP_SECONDS)
    {
      OverlapsStay(states, turns, BeganAt(turns[i], i), source, initial);
    }
  }

  /** From any state on, whatever the service does: every event of the source from the first
      watermark less the overlap up to the last watermark less the overlap is known, and none is
      ever forgotten. The watermark never falls, except that of two overlapping polls of the source
      the later to end may set it back, and then not below the one it had read. */
  lemma {:induction false} NoEventIsMissed(states: seq<Database>, turns: seq<Turn>, source: Name, initial: Time, all: set<Seen>)
    requires Goes(states, turns, source, initial) && Collected(states[0]) && Overlapping(states[0])
    requires Served(states, turns, source, initial, all)
    ensures Gapless(states, |turns|, source, initial, all, Feeds.OVERLAP_SECONDS)
    ensures forall i :: 0 <= i < |turns| ==> Rises(states, turns, i, source, initial)
  {
    ServedIsAnswered(states, turns, source, initial, all);
    GaplessUpTo(states, turns, |turns|, source, initial, all, Feeds.OVERLAP_SECONDS);
    forall i | 0 <= i < |turns| ensures Rises(states, turns, i, source, initial) {
      GaplessUpTo(states, turns, i, source, initial, all, Feeds.OVERLAP_SECONDS);
      TurnIsGapless(states, turns, i, source, initial, all, Feeds.OVERLAP_SECONDS);
    }
  }

  /** Two polls of the source that read the same watermark: when the second has ended before the
      first, the end of the first sets the watermark back exactly if it saw less recent events. */
  lemma {:induction false} LaterEndSetsBack(db: Database, source: Name, initial: Time, first: Id, early: seq<Seen>, second: Id,
                                            late: seq<Seen>)
    requires first != second && Holding(db, source, first, early) && Holding(db, source, second, late)
    ensures var base := MarkOf(db, source, initial);
      var middle := Step(db, OfFeed(FinishSnapshot(second, true, Some(Latest(base, late)))));
      var after := Step(middle, OfFeed(FinishSnapshot(first, true, Some(Latest(base, early)))));
      && Holding(middle, source, first, early)
      && (MarkOf(after, source, initial) < MarkOf(middle, source, initial) <==> Latest(base, early) < Latest(base, late))
  {
    var base := MarkOf(db, source, initial);
    Completing(db, source, second, Latest(base, late));
    var middle := Step(db, OfFeed(FinishSnapshot(second, true, Some(Latest(base, late)))));
    Completing(middle, source, first, Latest(base, early));
  }
}
