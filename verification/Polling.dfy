/** Polling one source: pages are staged one by one and published all at once, behind a
    watermark that only moves when the last page arrived. */
module Polling {
  import opened Outcomes
  import opened Tables
  import opened Identity
  import opened Stores
  import opened Feeds

  /** What `event_identity` reads off a source item: its external id, its version key and the
      rank of its timestamp text, absent when the item carries none. */
  datatype Seen = Seen(external: string, version: string, at: Option<Time>)

  /** `source` is the text of a source id. */
  function NameOf(source: Name, seen: Seen): EventId {
    EventName(source, seen.external, seen.version)
  }

  function Flat(pages: seq<seq<Seen>>): seq<Seen> {
    if pages == [] then [] else Flat(pages[..|pages| - 1]) + pages[|pages| - 1]
  }

  predicate Dated(items: seq<Seen>) {
    items == [] || (Dated(items[..|items| - 1]) && items[|items| - 1].at.Some?)
  }

  function Observe(source: Name, seen: Seen): Observation
    requires seen.at.Some?
  {
    Observation(source, seen.external, seen.version, seen.at.value)
  }

  function Named(source: Name, items: seq<Seen>): set<EventId> {
    set s | s in items :: NameOf(source, s)
  }

  /** The latest of a watermark and the items' times. */
  function Latest(watermark: Time, items: seq<Seen>): Time {
    if items == [] then watermark
    else
      var before, last := Latest(watermark, items[..|items| - 1]), items[|items| - 1].at;
      if last.Some? && last.value > before then last.value else before
  }

  /** What a source has told so far: its watermark and the events known from it. */
  datatype Feed = Feed(watermark: Time, known: set<EventId>)

  /** One poll: all of its items when every page came and every item is dated, otherwise nothing. */
  function Polled(feed: Feed, source: Name, items: seq<Seen>, whole: bool): Feed {
    if !whole then feed else Feed(Latest(feed.watermark, items), feed.known + Named(source, items))
  }

  datatype PollResult = PollResult(complete: bool, pages: nat, inserted: nat, watermark: Time)

  /** Staged rows belong to a snapshot. */
  ghost predicate Collected(db: Database) {
    forall k :: k in db.staged ==> k.snapshot in db.snapshots
  }

  /** One of the items is this event, with these facts. */
  ghost predicate Tells(source: Name, items: seq<Seen>, event: EventId, facts: Observation) {
    exists s :: s in items && event == NameOf(source, s) && s.at == Some(facts.occurred)
      && facts.source == source && facts.external == s.external && facts.version == s.version
  }

  /** The events a snapshot has staged. */
  function StagedNames(staged: map<StagedKey, Observation>, id: Id): set<EventId> {
    set k | k in staged && k.snapshot == id :: k.event
  }

  /** What is staged under `id` are the items, named and with their facts. */
  ghost predicate Stages(staged: map<StagedKey, Observation>, id: Id, source: Name, items: seq<Seen>) {
    && (forall k :: k in staged && k.snapshot == id ==> Tells(source, items, k.event, staged[k]))
    && StagedNames(staged, id) == Named(source, items)
  }

  lemma TellsMore(source: Name, items: seq<Seen>, seen: Seen, event: EventId, facts: Observation)
    requires Tells(source, items, event, facts)
    ensures Tells(source, items + [seen], event, facts)
  {
  }

  lemma NamedMore(source: Name, items: seq<Seen>, seen: Seen)
    ensures Named(source, items + [seen]) == Named(source, items) + {NameOf(source, seen)}
  {
  }

  lemma StageNames(before: map<StagedKey, Observation>, key: StagedKey, facts: Observation)
    ensures var after := if key in before then before else before[key := facts];
      StagedNames(after, key.snapshot) == StagedNames(before, key.snapshot) + {key.event}
  {
  }

  lemma StageNext(before: map<StagedKey, Observation>, id: Id, source: Name, items: seq<Seen>, seen: Seen)
    requires Stages(before, id, source, items) && seen.at.Some?
    ensures Stages(StageOne(before, id, source, seen), id, source, items + [seen])
  {
    var after := StageOne(before, id, source, seen);
    forall k | k in after && k.snapshot == id ensures Tells(source, items + [seen], k.event, after[k]) {
      if k in before {
        TellsMore(source, items, seen, k.event, after[k]);
      } else {
        assert seen in items + [seen];
      }
    }
    NamedMore(source, items, seen);
    StageNames(before, StagedKey(id, NameOf(source, seen)), Observe(source, seen));
  }

  /** The staged rows after the items were staged one by one; the first of a name wins. */
  function Staging(staged: map<StagedKey, Observation>, id: Id, source: Name, items: seq<Seen>): map<StagedKey, Observation>
    requires Dated(items)
  {
    if items == [] then staged
    else StageOne(Staging(staged, id, source, items[..|items| - 1]), id, source, items[|items| - 1])
  }

  function StageOne(staged: map<StagedKey, Observation>, id: Id, source: Name, seen: Seen): map<StagedKey, Observation>
    requires seen.at.Some?
  {
    var key := StagedKey(id, NameOf(source, seen));
    if key in staged then staged else staged[key := Observe(source, seen)]
  }

  lemma {:induction false} DatedEverywhere(items: seq<Seen>)
    ensures Dated(items) <==> forall i :: 0 <= i < |items| ==> items[i].at.Some?
  {
    if items != [] {
      DatedEverywhere(items[..|items| - 1]);
    }
  }

  /** An undated item among the pages stops the poll. */
  lemma UndatedFails(pages: seq<seq<Seen>>, p: nat, i: nat)
    requires p < |pages| && i < |pages[p]| && pages[p][i].at.None?
    ensures !Dated(Flat(pages))
  {
    FlatHolds(pages, p, i);
    DatedEverywhere(Flat(pages));
    var k :| 0 <= k < |Flat(pages)| && Flat(pages)[k] == pages[p][i];
  }

  lemma {:induction false} FlatHolds(pages: seq<seq<Seen>>, p: nat, i: nat)
    requires p < |pages| && i < |pages[p]|
    ensures pages[p][i] in Flat(pages)
  {
    var init := pages[..|pages| - 1];
    if p < |init| {
      FlatHolds(init, p, i);
      assert init[p] == pages[p];
    }
  }

  /** Nothing was staged under `id` before: afterwards exactly the items are. */
  lemma {:induction false} StagingStages(staged: map<StagedKey, Observation>, id: Id, source: Name, items: seq<Seen>)
    requires Dated(items) && forall k :: k in staged ==> k.snapshot != id
    ensures Stages(Staging(staged, id, source, items), id, source, items)
  {
    if items != [] {
      var init := items[..|items| - 1];
      StagingStages(staged, id, source, init);
      StageNext(Staging(staged, id, source, init), id, source, init, items[|items| - 1]);
      assert items == init + [items[|items| - 1]];
    }
  }

  lemma {:induction false} StagingKeepsCollected(staged: map<StagedKey, Observation>, id: Id, source: Name, items: seq<Seen>)
    requires Dated(items)
    ensures forall k :: k in Staging(staged, id, source, items) ==> k in staged || k.snapshot == id
  {
    if items != [] {
      StagingKeepsCollected(staged, id, source, items[..|items| - 1]);
    }
  }

  /** The source's row and the observed events, as a feed; a source never polled starts at
      `initial`. */
  function FeedOf(db: Database, source: Name, initial: Time): Feed {
    Feed(if source in db.checkpoints then db.checkpoints[source].watermark else initial, db.observed.Keys)
  }

  /** New rows are pending and carry the facts of one of the items. */
  ghost predicate Grew(before: map<EventId, ObservedEvent>, after: map<EventId, ObservedEvent>, source: Name, items: seq<Seen>) {
    && (forall e :: e in before ==> e in after && after[e] == before[e])
    && (forall e :: e in after && e !in before ==> after[e].enrichment.Pending? && Tells(source, items, e, after[e].facts))
  }

  lemma UnpublishedNames(db: Database, id: Id)
    ensures Unpublished(db, id) == StagedNames(db.staged, id) - db.observed.Keys
  {
  }

  lemma PublishedKeys(db: Database, id: Id)
    ensures Published(db, id).Keys == db.observed.Keys + Unpublished(db, id)
  {
  }

  lemma DisjointCount<T>(a: set<T>, b: set<T>)
    requires a !! b
    ensures |a + b| == |a| + |b|
  {
  }

  /** A published snapshot adds exactly the names it staged. */
  lemma PublishedNames(db: Database, id: Id)
    ensures Published(db, id).Keys == db.observed.Keys + StagedNames(db.staged, id)
    ensures |Published(db, id).Keys| == |db.observed.Keys| + |Unpublished(db, id)|
  {
    UnpublishedNames(db, id);
    PublishedKeys(db, id);
    DisjointCount(db.observed.Keys, Unpublished(db, id));
  }

  lemma PublishedGrew(db: Database, id: Id, source: Name, items: seq<Seen>)
    requires forall k :: k in db.staged && k.snapshot == id ==> Tells(source, items, k.event, db.staged[k])
    ensures Grew(db.observed, Published(db, id), source, items)
  {
  }

  /** The end of a poll that cannot be completed. */
  method GiveUp(store: Store, id: Id, pages: nat, watermark: Time) returns (r: PollResult)
    requires store.Valid() && id in store.db.snapshots && store.db.snapshots[id].state.Collecting?
    modifies store
    ensures store.Valid() && r == PollResult(false, pages, 0, watermark)
    ensures store.db == Closed(old(store.db), id, old(store.db).snapshots[id].source, Incomplete)
  {
    var none := store.FinishSnapshot(id, false, None);
    return PollResult(false, pages, 0, watermark);
  }

  /** `done` has been staged on top of `base`, and `maximum` is its latest time. */
  ghost predicate Staged(base: map<StagedKey, Observation>, staged: map<StagedKey, Observation>, id: Id, source: Name, done: seq<Seen>,
                         watermark: Time, maximum: Time) {
    Dated(done) && staged == Staging(base, id, source, done) && maximum == Latest(watermark, done)
  }

  lemma StagedNext(base: map<StagedKey, Observation>, staged: map<StagedKey, Observation>, id: Id, source: Name, done: seq<Seen>,
                   watermark: Time, maximum: Time, seen: Seen)
    requires Staged(base, staged, id, source, done, watermark, maximum) && seen.at.Some?
    ensures Staged(base, StageOne(staged, id, source, seen), id, source, done + [seen], watermark,
                   if seen.at.value > maximum then seen.at.value else maximum)
  {
  }

  method StageItem(store: Store, source: Name, id: Id, seen: Seen)
    requires store.Valid() && id in store.db.snapshots && store.db.snapshots[id] == Snapshot(source, Collecting) && seen.at.Some?
    modifies store
    ensures store.Valid() && store.db == old(store.db).(staged := StageOne(old(store.db).staged, id, source, seen))
  {
    var added := store.StageObservation(id, Observe(source, seen));
  }

  /** Stages one page: all of it, or up to its first undated item. */
  method StagePage(store: Store, source: Name, items: seq<Seen>, id: Id, start: Time, ghost before: seq<Seen>,
                   ghost base: map<StagedKey, Observation>, ghost watermark: Time)
    returns (maximum: Time, undated: Option<nat>, ghost done: seq<Seen>)
    requires store.Valid() && id in store.db.snapshots && store.db.snapshots[id] == Snapshot(source, Collecting)
    requires Staged(base, store.db.staged, id, source, before, watermark, start)
    modifies store
    ensures store.Valid() && store.db == old(store.db).(staged := store.db.staged)
    ensures Staged(base, store.db.staged, id, source, done, watermark, maximum)
    ensures undated.None? ==> done == before + items
    ensures undated.Some? ==> undated.value < |items| && items[undated.value].at.None?
  {
    maximum, done := start, before;
    for i := 0 to |items|
      invariant store.Valid() && store.db == old(store.db).(staged := store.db.staged)
      invariant done == before + items[..i] && Staged(base, store.db.staged, id, source, done, watermark, maximum)
    {
      var seen := items[i];
      if seen.at.None? {
        return maximum, Some(i), done;
      }
      StagedNext(base, store.db.staged, id, source, done, watermark, maximum, seen);
      StageItem(store, source, id, seen);
      if seen.at.value > maximum {
        maximum := seen.at.value;
      }
      done := done + [seen];
    }
    return maximum, None, done;
  }

  lemma PrefixCollected(db: Database, start: Database, id: Id, source: Name, items: seq<Seen>)
    requires Collected(start) && id in start.snapshots && db == start.(staged := db.staged)
    requires Dated(items) && db.staged == Staging(start.staged, id, source, items)
    ensures Collected(db)
  {
    StagingKeepsCollected(start.staged, id, source, items);
  }

  /** The first page that holds an undated item. */
  ghost predicate StopsAt(pages: seq<seq<Seen>>, p: nat) {
    p < |pages| && Dated(Flat(pages[..p])) && exists s :: s in pages[p] && s.at.None?
  }

  /** The fetch loop: every page, or up to the first undated item. */
  method CollectPages(store: Store, source: Name, pages: seq<seq<Seen>>, id: Id, watermark: Time)
    returns (maximum: Time, page: nat, dated: bool, ghost done: seq<Seen>)
    requires store.Valid() && id in store.db.snapshots && store.db.snapshots[id] == Snapshot(source, Collecting)
    modifies store
    ensures store.Valid() && store.db == old(store.db).(staged := store.db.staged)
    ensures Staged(old(store.db).staged, store.db.staged, id, source, done, watermark, maximum)
    ensures if dated then done == Flat(pages) else !Dated(Flat(pages))
    ensures page <= |pages| && if dated then page == |pages| else page > 0 && StopsAt(pages, page - 1)
  {
    ghost var base := store.db.staged;
    maximum, page, done := watermark, 0, [];
    while page < |pages|
      invariant 0 <= page <= |pages| && store.Valid() && store.db == old(store.db).(staged := store.db.staged)
      invariant done == Flat(pages[..page]) && Staged(base, store.db.staged, id, source, done, watermark, maximum)
    {
      var undated;
      maximum, undated, done := StagePage(store, source, pages[page], id, maximum, done, base, watermark);
      page := page + 1;
      if undated.Some? {
        UndatedFails(pages, page - 1, undated.value);
        assert pages[page - 1][undated.value] in pages[page - 1];
        return maximum, page, false, done;
      }
      assert pages[..page][..page - 1] == pages[..page - 1];
    }
    assert pages[..page] == pages;
    return maximum, page, true, done;
  }

  // ---------- what a poll does to the database ----------

  /** The database once the checkpoint is open and snapshot `id` collecting. */
  function Begun(db: Database, source: Name, id: Id, initial: Time): Database {
    var begun := Feeds.Opened(db, source, initial);
    begun.(snapshots := begun.snapshots[id := Snapshot(source, Collecting)])
  }

  lemma BegunStages(db: Database, source: Name, id: Id, initial: Time, items: seq<Seen>)
    requires Dated(items) && id !in db.snapshots && Collected(db)
    ensures Stages(Staging(Begun(db, source, id, initial).staged, id, source, items), id, source, items)
  {
    StagingStages(db.staged, id, source, items);
  }

  function Ended(db: Database, staged: map<StagedKey, Observation>, source: Name, id: Id, initial: Time): Database {
    Begun(db, source, id, initial).(staged := staged)
  }

  /** A complete snapshot publishes the names it staged, under the new watermark. */
  lemma Completing(mid: Database, source: Name, id: Id, maximum: Time)
    requires id in mid.snapshots && mid.snapshots[id] == Snapshot(source, Collecting) && source in mid.checkpoints
    ensures Feeds.Finish(mid, id, true, Some(maximum)).Commit?
    ensures var tx := Feeds.Finish(mid, id, true, Some(maximum));
      && source in tx.db.checkpoints && tx.db.checkpoints[source].overlap == mid.checkpoints[source].overlap
      && FeedOf(tx.db, source, 0) == Feed(maximum, mid.observed.Keys + StagedNames(mid.staged, id))
      && tx.db.observed == Published(mid, id) && tx.db.staged == mid.staged && tx.db.snapshots.Keys == mid.snapshots.Keys
      && tx.value == |tx.db.observed.Keys| - |mid.observed.Keys| && LeavesOthers(mid.checkpoints, tx.db.checkpoints, source)
  {
    PublishedNames(mid, id);
  }

  /** The checkpoints of all other sources are as they were. */
  ghost predicate LeavesOthers(before: map<Name, Checkpoint>, after: map<Name, Checkpoint>, source: Name) {
    forall other :: other != source ==> (other in after <==> other in before) && (other in before ==> after[other] == before[other])
  }

  /** What a poll of `items` promises, of the database before and after it. */
  ghost predicate Promised(db: Database, after: Database, source: Name, items: seq<Seen>, whole: bool, initial: Time, r: PollResult) {
    && Collected(after) && OnlyFeeds(db, after) && source in after.checkpoints
    && LeavesOthers(db.checkpoints, after.checkpoints, source)
    && after.checkpoints[source].overlap == Feeds.WithCheckpoint(db.checkpoints, source, initial)[source].overlap
    && FeedOf(after, source, initial) == Polled(FeedOf(db, source, initial), source, items, whole)
    && r.complete == whole && r.watermark == FeedOf(after, source, initial).watermark
    && r.inserted == |after.observed.Keys| - |db.observed.Keys|
    && Grew(db.observed, after.observed, source, items)
    && (!whole ==> after.checkpoints == Feeds.WithCheckpoint(db.checkpoints, source, initial))
  }

  lemma CompletedFeed(db: Database, mid: Database, after: Database, source: Name, id: Id, initial: Time, items: seq<Seen>)
    requires mid.observed == db.observed && StagedNames(mid.staged, id) == Named(source, items) && source in after.checkpoints
    requires FeedOf(after, source, 0) == Feed(Latest(FeedOf(db, source, initial).watermark, items),
                                              mid.observed.Keys + StagedNames(mid.staged, id))
    ensures FeedOf(after, source, initial) == Polled(FeedOf(db, source, initial), source, items, true)
  {
  }

  lemma CompletedPromised(db: Database, mid: Database, after: Database, source: Name, id: Id, initial: Time, items: seq<Seen>,
                          r: PollResult)
    requires OnlyFeeds(db, after) && Collected(after) && mid.observed == db.observed && after.observed == Published(mid, id)
    requires Stages(mid.staged, id, source, items) && source in after.checkpoints
    requires FeedOf(after, source, initial) == Polled(FeedOf(db, source, initial), source, items, true)
    requires r.complete && r.watermark == FeedOf(after, source, initial).watermark
    requires after.checkpoints[source].overlap == Feeds.WithCheckpoint(db.checkpoints, source, initial)[source].overlap
    requires r.inserted == |after.observed.Keys| - |db.observed.Keys| && LeavesOthers(db.checkpoints, after.checkpoints, source)
    ensures Promised(db, after, source, items, true, initial, r)
  {
    PublishedGrew(mid, id, source, items);
  }

  lemma AbortedPromised(db: Database, staged: map<StagedKey, Observation>, source: Name, id: Id, initial: Time, items: seq<Seen>,
                        r: PollResult)
    requires Collected(Ended(db, staged, source, id, initial))
    requires !r.complete && r.inserted == 0 && r.watermark == FeedOf(db, source, initial).watermark
    ensures Promised(db, Closed(Ended(db, staged, source, id, initial), id, source, Incomplete), source, items, false, initial, r)
  {
    EndedFacts(db, staged, source, id, initial);
    OpenedLeavesOthers(db.checkpoints, source, initial);
  }

  lemma EndedFacts(db: Database, staged: map<StagedKey, Observation>, source: Name, id: Id, initial: Time)
    ensures var mid := Ended(db, staged, source, id, initial);
      && OnlyFeeds(db, mid) && mid.observed == db.observed && mid.staged == staged && source in mid.checkpoints
      && id in mid.snapshots && mid.snapshots[id] == Snapshot(source, Collecting)
      && mid.checkpoints == Feeds.WithCheckpoint(db.checkpoints, source, initial)
  {
  }

  lemma OpenedLeavesOthers(rows: map<Name, Checkpoint>, source: Name, initial: Time)
    ensures LeavesOthers(rows, Feeds.WithCheckpoint(rows, source, initial), source)
  {
  }

  lemma StillCollected(mid: Database, after: Database)
    requires Collected(mid) && after.staged == mid.staged && after.snapshots.Keys == mid.snapshots.Keys
    ensures Collected(after)
  {
  }

  /** The last transaction of a poll whose pages all came. */
  method Complete(store: Store, source: Name, id: Id, initial: Time, pages: nat, maximum: Time, ghost items: seq<Seen>, ghost db: Database)
    returns (r: PollResult)
    requires store.Valid() && Collected(store.db) && store.db == Ended(db, store.db.staged, source, id, initial)
    requires Stages(store.db.staged, id, source, items) && maximum == Latest(FeedOf(db, source, initial).watermark, items)
    modifies store
    ensures store.Valid() && Promised(db, store.db, source, items, true, initial, r) && r.pages == pages
  {
    ghost var mid := store.db;
    EndedFacts(db, mid.staged, source, id, initial);
    OpenedLeavesOthers(db.checkpoints, source, initial);
    Completing(mid, source, id, maximum);
    var published := store.FinishSnapshot(id, true, Some(maximum));
    StillCollected(mid, store.db);
    CompletedFeed(db, mid, store.db, source, id, initial, items);
    r := PollResult(true, pages, published.value, maximum);
    CompletedPromised(db, mid, store.db, source, id, initial, items, r);
  }

  /** The fetch loop, from the begun snapshot: either everything is staged, or some item is
      undated and the rest was not looked at. */
  method Collect(store: Store, source: Name, pages: seq<seq<Seen>>, id: Id, initial: Time, ghost db: Database)
    returns (maximum: Time, page: nat, dated: bool)
    requires store.Valid() && Collected(db) && id !in db.snapshots && store.db == Begun(db, source, id, initial)
    modifies store
    ensures store.Valid() && store.db == Ended(db, store.db.staged, source, id, initial) && Collected(store.db)
    ensures dated == Dated(Flat(pages))
    ensures dated ==> Stages(store.db.staged, id, source, Flat(pages))
    ensures dated ==> maximum == Latest(FeedOf(db, source, initial).watermark, Flat(pages))
    ensures page <= |pages| && if dated then page == |pages| else page > 0 && StopsAt(pages, page - 1)
  {
    ghost var done;
    maximum, page, dated, done := CollectPages(store, source, pages, id, store.db.checkpoints[source].watermark);
    PrefixCollected(store.db, Begun(db, source, id, initial), id, source, done);
    if dated {
      BegunStages(db, source, id, initial, done);
    }
  }

  /** The last transaction of a poll that broke off. */
  method Abort(store: Store, source: Name, id: Id, initial: Time, pages: nat, watermark: Time, ghost items: seq<Seen>, ghost db: Database)
    returns (r: PollResult)
    requires store.Valid() && Collected(store.db) && id !in db.snapshots && store.db == Ended(db, store.db.staged, source, id, initial)
    requires watermark == FeedOf(db, source, initial).watermark
    modifies store
    ensures store.Valid() && Promised(db, store.db, source, items, false, initial, r) && r.pages == pages
  {
    ghost var staged := store.db.staged;
    r := GiveUp(store, id, pages, watermark);
    AbortedPromised(db, staged, source, id, initial, items, r);
  }

  lemma OpenedFeed(db: Database, after: Database, source: Name, initial: Time)
    requires after == Feeds.Opened(db, source, initial)
    ensures source in after.checkpoints && after.checkpoints[source].watermark == FeedOf(db, source, initial).watermark
    ensures after.snapshots == db.snapshots
  {
  }

  /** The time a poll of the source asks from: its watermark less its stored overlap. */
  function AskedAt(db: Database, source: Name, initial: Time): Time {
    if source in db.checkpoints then db.checkpoints[source].watermark - db.checkpoints[source].overlap
    else initial - Feeds.OVERLAP_SECONDS
  }

  /** The two transactions before the first fetch. */
  method Begin(store: Store, source: Name, id: Id, initial: Time) returns (watermark: Time, asked: Time)
    requires store.Valid() && id !in store.db.snapshots
    modifies store
    ensures store.Valid() && store.db == Begun(old(store.db), source, id, initial)
    ensures watermark == FeedOf(old(store.db), source, initial).watermark
    ensures asked == AskedAt(old(store.db), source, initial)
  {
    ghost var db := store.db;
    var checkpoint := store.OpenCheckpoint(source, initial);
    OpenedFeed(db, store.db, source, initial);
    var begun := store.BeginSnapshot(id, source);
    watermark, asked := checkpoint.watermark, Feeds.QueryTime(checkpoint);
  }

  /** `poll_source`; `failed` says that the fetch after the given pages raised, and `asked` is the
      time the source is queried from. */
  method PollSource(store: Store, source: Name, pages: seq<seq<Seen>>, failed: bool, id: Id, initial: Time)
    returns (r: PollResult, asked: Time)
    requires store.Valid() && Collected(store.db) && id !in store.db.snapshots && (failed || pages != [])
    modifies store
    ensures store.Valid()
    ensures Promised(old(store.db), store.db, source, Flat(pages), !failed && Dated(Flat(pages)), initial, r)
    ensures asked == AskedAt(old(store.db), source, initial)
    ensures if Dated(Flat(pages)) then r.pages == |pages| else 0 < r.pages <= |pages| && StopsAt(pages, r.pages - 1)
  {
    ghost var db := store.db;
    var watermark;
    watermark, asked := Begin(store, source, id, initial);
    var maximum, page, dated := Collect(store, source, pages, id, initial, db);
    if !dated || failed {
      r := Abort(store, source, id, initial, page, watermark, Flat(pages), db);
    } else {
      r := Complete(store, source, id, initial, page, maximum, Flat(pages), db);
    }
  }

  // ---------- what a source must answer ----------

  lemma {:induction false} LatestIsLatest(watermark: Time, items: seq<Seen>)
    ensures watermark <= Latest(watermark, items)
    ensures forall s :: s in items && s.at.Some? ==> s.at.value <= Latest(watermark, items)
    ensures Latest(watermark, items) == watermark || exists s :: s in items && s.at == Some(Latest(watermark, items))
  {
    if items != [] {
      var init := items[..|items| - 1];
      LatestIsLatest(watermark, init);
      assert items == init + [items[|items| - 1]];
    }
  }

  /** One poll as the world made it: what the source returned, whether all of it came, and
      everything the source had made visible by then. */
  datatype Poll = Poll(items: seq<Seen>, whole: bool, visible: set<Seen>)

  /** A whole answer holds every visible event since the queried time. */
  ghost predicate Answers(p: Poll, since: Time) {
    p.whole ==> forall s :: s in p.visible && s.at.Some? && since <= s.at.value ==> s in p.items
  }

  /** Nothing appears later than `overlap` behind the newest event shown. */
  ghost predicate Prompt(p: Poll, all: set<Seen>, overlap: int) {
    forall s, n :: s in all && n in p.items && s.at.Some? && n.at.Some? && s.at.value < n.at.value - overlap ==> s in p.visible
  }

  /** All events between the two times are known. */
  ghost predicate Covered(feed: Feed, source: Name, all: set<Seen>, since: Time, until: Time) {
    forall s :: s in all && s.at.Some? && since <= s.at.value < until ==> NameOf(source, s) in feed.known
  }

  lemma PolledCovers(feed: Feed, source: Name, p: Poll, all: set<Seen>, overlap: int, since: Time)
    requires 0 <= overlap && Answers(p, feed.watermark - overlap) && Prompt(p, all, overlap)
    requires Covered(feed, source, all, since, feed.watermark - overlap)
    ensures var next := Polled(feed, source, p.items, p.whole);
      && feed.watermark <= next.watermark && feed.known <= next.known
      && Covered(next, source, all, since, next.watermark - overlap)
  {
    var next := Polled(feed, source, p.items, p.whole);
    LatestIsLatest(feed.watermark, p.items);
    forall s | s in all && s.at.Some? && since <= s.at.value < next.watermark - overlap ensures NameOf(source, s) in next.known {
      if feed.watermark - overlap <= s.at.value {
        var n :| n in p.items && n.at == Some(next.watermark);
        assert s in p.visible;
        assert s in p.items;
        assert NameOf(source, s) in Named(source, p.items);
      }
    }
  }

  /** The overlap is what makes it so: with an event indexed later than that, a run of whole
      polls passes it by. */
  lemma LateEventIsMissed(overlap: int, source: Name) returns (first: Poll, second: Poll, late: Seen)
    requires 0 <= overlap
    ensures first.whole && second.whole && late in second.visible && late.at.Some?
    ensures var one := Polled(Feed(0, {}), source, first.items, true);
      var two := Polled(one, source, second.items, true);
      && Answers(first, 0 - overlap) && Answers(second, one.watermark - overlap)
      && -overlap <= late.at.value < two.watermark - overlap && NameOf(source, late) !in two.known
  {
    var timely := Seen("2", "b", Some(2 * overlap + 2));
    late := Seen("1", "a", Some(overlap + 1));
    first, second := Poll([timely], true, {timely}), Poll([timely], true, {timely, late});
    assert Latest(0, [timely]) == 2 * overlap + 2 by {
      assert [timely][..0] == [];
    }
    assert Latest(2 * overlap + 2, [timely]) == 2 * overlap + 2 by {
      assert [timely][..0] == [];
    }
    assert Named(source, [timely]) == {NameOf(source, timely)};
    assert NameOf(source, timely)[|source| + 1] == '2' && NameOf(source, late)[|source| + 1] == '1';
  }
}
