/** Double-entry conservation over whole runs. */
module RunLedger {
  import opened Outcomes
  import opened Tables
  import opened Runs
  import opened Ledgers
  import Sums
  import Budgets
  import Wakes
  import opened Sessions

  ghost predicate Sound(db: Database, actuals: Budgets.Actuals) {
    Budgets.Ledger(db, actuals) && DoubleEntry(db.buckets)
  }

  lemma FrameKeepsSound(db: Database, actuals: Budgets.Actuals, after: Database)
    requires Sound(db, actuals) && OnlyHolds(db, after)
    ensures Sound(after, actuals)
  {
    HoldKeepsLedger(db, actuals, after);
  }

  lemma SessionStepOnlyHolds(db: Database, c: SessionCommand)
    ensures OnlyHolds(db, SessionStep(db, c))
  {
  }

  /** A command that touches no session, reservation or bucket. */
  lemma FrameOnlyHolds(db: Database, after: Database)
    requires after.sessions == db.sessions && after.reservations == db.reservations && after.buckets == db.buckets
    ensures OnlyHolds(db, after)
  {
  }

  lemma BudgetStepKeepsSound(db: Database, actuals: Budgets.Actuals, c: BudgetCommand)
    requires Sound(db, actuals)
    ensures Sound(BudgetStep(db, c), Charge(db, actuals, OfBudget(c)))
  {
    match c
    case ReserveBudget(id, sid, now, epoch, requested, asks) =>
      if Budgets.Reserve(db, id, sid, now, epoch, requested, asks).Commit? {
        ReserveKeepsLedger(db, actuals, id, sid, now, epoch, requested, asks);
        ReserveKeepsDoubleEntry(db, id, sid, now, epoch, requested, asks);
      }
    case SettleBudget(id, actual) =>
      if Budgets.Settle(db, id, actual).Commit? {
        SettleKeepsLedger(db, actuals, id, actual);
        SettleKeepsDoubleEntry(db, id, actual);
      }
    case MarkBudgetUncertain(id) =>
      if Budgets.MarkUncertain(db, id).Commit? {
        MarkKeepsLedger(db, actuals, id);
      }
    case ReleaseBudget(id) =>
      if Budgets.Release(db, id).Commit? {
        ReleaseKeepsLedger(db, actuals, id);
        ReleaseKeepsDoubleEntry(db, id);
      }
  }

  lemma ReleaseForKeepsSound(db: Database, actuals: Budgets.Actuals, sid: Id)
    requires Sound(db, actuals) && Wakes.ReleaseFor(db, sid).Commit?
    ensures Sound(Wakes.ReleaseFor(db, sid).db, actuals)
  {
    if Wakes.ReservationsOf(db.reservations, sid) != {} {
      var r :| r in Wakes.ReservationsOf(db.reservations, sid) && Wakes.ReleaseFor(db, sid) == Budgets.Release(db, r);
      ReleaseKeepsLedger(db, actuals, r);
      ReleaseKeepsDoubleEntry(db, r);
    }
  }

  lemma OrphanAfterRelease(db: Database, sid: Id, delivery: Option<Id>, eligible: Option<Time>)
    requires Wakes.RecoverOrphan(db, sid, delivery, eligible).Commit?
    ensures Wakes.ReleaseFor(db, sid).Commit?
    ensures OnlyHolds(Wakes.ReleaseFor(db, sid).db, Wakes.RecoverOrphan(db, sid, delivery, eligible).db)
  {
  }

  lemma PreparedAfterRelease(db: Database, wakeId: Id, eligibleAt: Time)
    requires Wakes.RecoverPrepared(db, wakeId, eligibleAt).Commit?
    ensures wakeId in db.wakes && Wakes.ReleaseFor(db, db.wakes[wakeId].session).Commit?
    ensures OnlyHolds(Wakes.ReleaseFor(db, db.wakes[wakeId].session).db, Wakes.RecoverPrepared(db, wakeId, eligibleAt).db)
  {
  }

  lemma RecoveryStepKeepsSound(db: Database, actuals: Budgets.Actuals, c: RecoveryCommand)
    requires Sound(db, actuals)
    ensures Sound(RecoveryStep(db, c), actuals)
  {
    match c
    case RecoverOrphanSession(sid, delivery, eligible) =>
      if Wakes.RecoverOrphan(db, sid, delivery, eligible).Commit? {
        OrphanAfterRelease(db, sid, delivery, eligible);
        ReleaseForKeepsSound(db, actuals, sid);
        FrameKeepsSound(Wakes.ReleaseFor(db, sid).db, actuals, RecoveryStep(db, c));
      }
    case RecoverPreparedWake(wakeId, eligibleAt) =>
      if Wakes.RecoverPrepared(db, wakeId, eligibleAt).Commit? {
        PreparedAfterRelease(db, wakeId, eligibleAt);
        ReleaseForKeepsSound(db, actuals, db.wakes[wakeId].session);
        FrameKeepsSound(Wakes.ReleaseFor(db, db.wakes[wakeId].session).db, actuals, RecoveryStep(db, c));
      }
  }

  lemma StepKeepsSound(db: Database, actuals: Budgets.Actuals, c: Command)
    requires Sound(db, actuals)
    ensures Sound(Step(db, c), Charge(db, actuals, c))
  {
    match c
    case OfBudget(b) => BudgetStepKeepsSound(db, actuals, b);
    case OfRecovery(r) => RecoveryStepKeepsSound(db, actuals, r);
    case OfSession(s) => SessionStepOnlyHolds(db, s); FrameKeepsSound(db, actuals, Step(db, c));
    case OfDelivery(d) => DeliveryFrame(db, d); FrameOnlyHolds(db, Step(db, c)); FrameKeepsSound(db, actuals, Step(db, c));
    case OfWake(w) => WakeFrame(db, w); FrameOnlyHolds(db, Step(db, c)); FrameKeepsSound(db, actuals, Step(db, c));
    case OfFeed(f) => FeedFrame(db, f); FrameOnlyHolds(db, Step(db, c)); FrameKeepsSound(db, actuals, Step(db, c));
    case OfJournal(j) => JournalFrame(db, j); FrameOnlyHolds(db, Step(db, c)); FrameKeepsSound(db, actuals, Step(db, c));
  }

  lemma EmptyIsSound()
    ensures Sound(EMPTY, map[])
  {
  }

  /** In every reachable state each bucket's columns are the sums over its reservations and
      settlements, no bucket exceeds its limit by more than the overage it was charged, and
      the organization's and the roles' books agree. */
  lemma {:induction false} RunsBalance(commands: seq<Command>)
    ensures Sound(Run(START, commands).db, Run(START, commands).actuals)
  {
    if commands == [] {
      EmptyIsSound();
    } else {
      var before := Run(START, commands[..|commands| - 1]);
      RunsBalance(commands[..|commands| - 1]);
      StepKeepsSound(before.db, before.actuals, commands[|commands| - 1]);
    }
  }

  /** So no run ever meets the `does not cover the reservation` refusals. */
  lemma {:induction false} RunsNeverMeetCoverGuards(commands: seq<Command>, id: Id, actual: nat)
    requires var db := Run(START, commands).db; id in db.reservations && db.reservations[id].state.Active?
    ensures var db := Run(START, commands).db; Budgets.Settle(db, id, actual).Commit? && Budgets.Release(db, id).Commit?
  {
    RunsBalance(commands);
    var h := Run(START, commands);
    CoverGuardsUnreachable(h.db, h.actuals, id, actual);
  }

  /** Every settlement so far stayed within its reservation. */
  ghost predicate Honest(h: History) {
    forall r :: r in h.actuals && r in h.db.reservations ==> h.actuals[r] <= h.db.reservations[r].tokens
  }

  lemma HonestOwesNothing(h: History, key: BucketKey)
    requires Honest(h)
    ensures Budgets.Total(h.db, h.actuals, Budgets.Overage, key) == 0
  {
    Sums.SumZero(Budgets.Parts(h.db, h.actuals, Budgets.Overage, key));
  }

  ghost predicate NoneOver(buckets: map<BucketKey, Bucket>) {
    forall key :: key in buckets ==> buckets[key].consumed + buckets[key].reserved <= buckets[key].limit
  }

  lemma HonestStaysWithin(h: History)
    requires Sound(h.db, h.actuals) && Honest(h)
    ensures NoneOver(h.db.buckets)
  {
    forall key | key in h.db.buckets
      ensures h.db.buckets[key].consumed + h.db.buckets[key].reserved <= h.db.buckets[key].limit
    {
      HonestOwesNothing(h, key);
    }
  }

  lemma HonestIsCertain(h: History, id: Id, actual: nat)
    requires Sound(h.db, h.actuals) && Honest(h) && id in h.db.reservations && h.db.reservations[id].state.Active?
    requires actual <= h.db.reservations[id].tokens
    ensures Budgets.Settle(h.db, id, actual).Commit? && !Budgets.Settle(h.db, id, actual).value
  {
    var row := h.db.reservations[id];
    forall scope ensures Budgets.Total(h.db, h.actuals, Budgets.Overage, Budgets.KeyOf(h.db.sessions[row.session], scope, row.epoch)) == 0 {
      HonestOwesNothing(h, Budgets.KeyOf(h.db.sessions[row.session], scope, row.epoch));
    }
    HonestSettlementIsCertain(h.db, h.actuals, id, actual);
  }

  /** And as long as every settlement stays within its reservation, no bucket is ever over its
      limit: the next one is turned uncertain exactly if it exceeds its own reservation. */
  lemma {:induction false} UncertainOnlyByItself(commands: seq<Command>, id: Id, actual: nat)
    requires var h := Run(START, commands); Honest(h) && id in h.db.reservations && h.db.reservations[id].state.Active?
    ensures var db := Run(START, commands).db;
      && NoneOver(db.buckets) && Budgets.Settle(db, id, actual).Commit?
      && (Budgets.Settle(db, id, actual).value <==> actual > db.reservations[id].tokens)
  {
    var h := Run(START, commands);
    RunsBalance(commands);
    HonestStaysWithin(h);
    CoverGuardsUnreachable(h.db, h.actuals, id, actual);
    if actual <= h.db.reservations[id].tokens {
      HonestIsCertain(h, id, actual);
    }
  }
}
