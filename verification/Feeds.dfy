/** Source checkpoints and snapshots: observations are staged page by page and published
    all at once. */
module Feeds {
  import opened Outcomes
  import opened Tables
  import opened Identity

  const OVERLAP_SECONDS := 300

  function WithCheckpoint(rows: map<Name, Checkpoint>, source: Name, initial: Time): map<Name, Checkpoint> {
    if source in rows then rows else rows[source := Checkpoint(initial, OVERLAP_SECONDS, None)]
  }

  /** `overlap_watermark`: where the next query starts. */
  function QueryTime(row: Checkpoint): Time {
    row.watermark - row.overlap
  }

  function Opened(db: Database, source: Name, initial: Time): (after: Database)
    ensures OnlyFeeds(db, after)
  {
    db.(checkpoints := WithCheckpoint(db.checkpoints, source, initial))
  }

  function Begin(db: Database, id: Id, source: Name): (tx: Tx<Id>)
    ensures tx.Commit? ==> OnlyFeeds(db, tx.db)
  {
    if id in db.snapshots then Rollback(IntegrityError)
    else Commit(db.(snapshots := db.snapshots[id := Snapshot(source, Collecting)]), id)
  }

  function Stage(db: Database, id: Id, seen: Observation): (tx: Tx<bool>)
    ensures tx.Commit? ==> OnlyFeeds(db, tx.db)
  {
    if id !in db.snapshots || !db.snapshots[id].state.Collecting? then Rollback(StateError(SnapshotUnknown))
    else if db.snapshots[id].source != seen.source then Rollback(StateError(SnapshotMismatch))
    else
      var key := StagedKey(id, EventName(seen.source, seen.external, seen.version));
      if key in db.staged then Commit(db, false)
      else Commit(db.(staged := db.staged[key := seen]), true)
  }

  /** Staged events of the snapshot that no earlier snapshot published. */
  function Unpublished(db: Database, id: Id): set<EventId> {
    set k | k in db.staged && k.snapshot == id && k.event !in db.observed :: k.event
  }

  function Published(db: Database, id: Id): map<EventId, ObservedEvent> {
    map e | e in db.observed.Keys + Unpublished(db, id) ::
      if e in db.observed then db.observed[e] else ObservedEvent(db.staged[StagedKey(id, e)], Enrichment.Pending)
  }

  function Closed(db: Database, id: Id, source: Name, state: SnapshotState): Database {
    db.(snapshots := db.snapshots[id := Snapshot(source, state)])
  }

  function Finish(db: Database, id: Id, complete: bool, watermark: Option<Time>): (tx: Tx<nat>)
    ensures tx.Commit? ==> OnlyFeeds(db, tx.db)
  {
    if id !in db.snapshots then Rollback(StateError(SnapshotUnknown))
    else if !db.snapshots[id].state.Collecting? then Rollback(StateError(SnapshotFinal))
    else
      var source := db.snapshots[id].source;
      if !complete then Commit(Closed(db, id, source, Incomplete), 0)
      else if watermark.None? then Rollback(StateError(InvalidArgument))
      else if source !in db.checkpoints then Rollback(StateError(CheckpointAbsent))
      else
        var row := db.checkpoints[source].(watermark := watermark.value, lastComplete := Some(id));
        Commit(Closed(db, id, source, Complete).(observed := Published(db, id),
                                                 checkpoints := db.checkpoints[source := row]),
               |Unpublished(db, id)|)
  }
}
