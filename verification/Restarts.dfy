/** A whole restart recovery is a run of its own transactions: so the next boot starts from a
    state the system's runs already cover, however many crashes came before. */
module Restarts {
  import opened Outcomes
  import opened Tables
  import opened Runs
  import opened Recovery
  import opened WakeThreads
  import Policies
  import Wakes

  ghost function Repaired(db: Database, cs: seq<Command>): Database {
    if cs == [] then db else Step(Repaired(db, cs[..|cs| - 1]), cs[|cs| - 1])
  }

  predicate AllRepairs(cs: seq<Command>) {
    forall c :: c in cs ==> RepairCall(c)
  }

  lemma RepairedMore(db: Database, cs: seq<Command>, c: Command)
    ensures Repaired(db, cs + [c]) == Step(Repaired(db, cs), c)
  {
    assert (cs + [c])[..|cs|] == cs;
  }

  lemma {:induction false} RepairedConcat(db: Database, first: seq<Command>, second: seq<Command>)
    ensures Repaired(db, first + second) == Repaired(Repaired(db, first), second)
    decreases second
  {
    if second == [] {
      assert first + second == first;
    } else {
      var init, last := second[..|second| - 1], second[|second| - 1];
      assert first + second == (first + init) + [last];
      RepairedMore(db, first + init, last);
      RepairedConcat(db, first, init);
    }
  }

  function Signal(p: ProcessKey, proved: set<ProcessKey>): Command {
    OfWake(FinishProcess(p, if p in proved then ProcessState.Terminated else ProcessState.Uncertain))
  }

  lemma NoSignal(db: Database, proved: set<ProcessKey>)
    ensures Signalled(db, {}, proved) == db
  {
    assert Signalled(db, {}, proved).processes == db.processes;
  }

  lemma OneSignal(db: Database, done: set<ProcessKey>, proved: set<ProcessKey>, p: ProcessKey)
    requires p in db.processes && db.processes[p].state.Running? && p !in done
    ensures Step(Signalled(db, done, proved), Signal(p, proved)) == Signalled(db, done + {p}, proved)
  {
    SignalNext(db, done, proved, p);
    var before := Signalled(db, done, proved);
    var state := if p in proved then ProcessState.Terminated else ProcessState.Uncertain;
    var row := before.processes[p].(state := state);
    assert Wakes.EndProcess(before, p, state) == Commit(before.(processes := before.processes[p := row]), ());
  }

  /** Marking running processes, one by one. */
  lemma {:induction false} SignalsAreRepairs(db: Database, keys: set<ProcessKey>, proved: set<ProcessKey>) returns (cs: seq<Command>)
    requires forall p :: p in keys ==> p in db.processes && db.processes[p].state.Running?
    ensures AllRepairs(cs) && Repaired(db, cs) == Signalled(db, keys, proved)
    decreases keys
  {
    if keys == {} {
      cs := [];
      NoSignal(db, proved);
    } else {
      var p :| p in keys;
      cs := SignalsAreRepairs(db, keys - {p}, proved);
      OneSignal(db, keys - {p}, proved, p);
      assert keys - {p} + {p} == keys;
      RepairedMore(db, cs, Signal(p, proved));
      cs := cs + [Signal(p, proved)];
    }
  }

  lemma ClosingIsRepairs(db: Database, sid: Id, delivery: Option<Id>) returns (cs: seq<Command>)
    ensures AllRepairs(cs) && Repaired(db, cs) == CloseProved(db, sid, delivery)
  {
    cs := if delivery.Some? then [OfDelivery(ForceDeliveryUncertain(delivery.value))] else [];
    assert Repaired(db, cs) == Quarantine(db, delivery) by {
      if delivery.Some? {
        RepairedMore(db, [], cs[0]);
        assert [] + [cs[0]] == cs;
      }
    }
    var close := OfSession(ForceTerminateSession(sid, false));
    RepairedMore(db, cs, close);
    cs := cs + [close];
  }

  lemma TerminatingIsRepairs(db: Database, sid: Id, delivery: Option<Id>, proved: set<ProcessKey>) returns (cs: seq<Command>)
    ensures AllRepairs(cs) && Repaired(db, cs) == Recovery.Terminated(db, sid, delivery, proved)
  {
    var signals := SignalsAreRepairs(db, RunningOf(db, sid), proved);
    var signalled := Signalled(db, RunningOf(db, sid), proved);
    if AllProved(db, sid, proved) {
      var close := ClosingIsRepairs(signalled, sid, delivery);
      RepairedConcat(db, signals, close);
      cs := signals + close;
    } else {
      var quarantine := OfWake(QuarantineWake(sid));
      RepairedMore(db, signals, quarantine);
      cs := signals + [quarantine];
    }
  }

  lemma RoundIsRepairs(db: Database, w: Id, row: Wake, proved: set<ProcessKey>, at: Time) returns (cs: seq<Command>)
    ensures AllRepairs(cs) && Repaired(db, cs) == Recovered(db, w, row, proved, at)
  {
    if Unrecorded(db, row) {
      var c := OfRecovery(RecoverPreparedWake(w, at));
      RepairedMore(db, [], c);
      cs := [] + [c];
    } else {
      cs := TerminatingIsRepairs(db, row.session, row.delivery, proved);
    }
  }

  lemma {:induction false} OrphansAreRepairs(db: Database, orphans: seq<Id>, n: nat) returns (cs: seq<Command>)
    ensures AllRepairs(cs) && Repaired(db, cs) == OrphansRecovered(db, orphans, n).0
    decreases orphans
  {
    if orphans == [] || Wakes.RecoverOrphan(db, orphans[0], None, None).Rollback? {
      cs := [];
    } else {
      var c := OfRecovery(RecoverOrphanSession(orphans[0], None, None));
      RepairedMore(db, [], c);
      var rest := OrphansAreRepairs(Step(db, c), orphans[1..], n + 1);
      RepairedConcat(db, [] + [c], rest);
      cs := [] + [c] + rest;
    }
  }

  lemma {:induction false} RoundsAreRepairs(db: Database, ws: seq<Id>, rows: map<Id, Wake>, proved: set<ProcessKey>, at: Time, tally: Tally)
    returns (cs: seq<Command>)
    requires forall w :: w in ws ==> w in rows
    ensures AllRepairs(cs) && Repaired(db, cs) == WakesRecovered(db, ws, rows, proved, at, tally).0
    decreases ws
  {
    if ws == [] {
      cs := [];
    } else {
      cs := RoundIsRepairs(db, ws[0], rows[ws[0]], proved, at);
      var first := Recovery.Result(db, ws[0], rows[ws[0]], proved, at);
      if first.Ok? {
        var counted := Recovery.Counted(tally, first.value);
        var rest := RoundsAreRepairs(Recovered(db, ws[0], rows[ws[0]], proved, at), ws[1..], rows, proved, at, counted);
        RepairedConcat(db, cs, rest);
        cs := cs + rest;
      }
    }
  }

  /** All of `recover`, whether it raises or not, is a sequence of its own transactions. */
  lemma {:induction false} RestartIsRepairs(db: Database, orphans: seq<Id>, ws: seq<Id>, proved: set<ProcessKey>, at: Time)
    returns (cs: seq<Command>)
    requires forall w :: w in ws ==> w in db.wakes
    ensures AllRepairs(cs) && Repaired(db, cs) == Restarted(db, orphans, ws, proved, at).0
  {
    cs := OrphansAreRepairs(db, orphans, 0);
    var (middle, first) := OrphansRecovered(db, orphans, 0);
    if first.Ok? {
      var rest := RoundsAreRepairs(middle, ws, db.wakes, proved, at, Tally(first.value, 0));
      RepairedConcat(db, cs, rest);
      cs := cs + rest;
    }
  }

  /** Recovery's transactions extend any run that ended in a crash. */
  lemma {:induction false} RepairsExtend(events: seq<Event>, cs: seq<Command>, policy: Policies.Policy, ceiling: int)
    returns (longer: seq<Event>)
    requires Possible(events, policy, ceiling) && AllOver(Reached(events).threads) && AllRepairs(cs)
    ensures events <= longer && Possible(longer, policy, ceiling) && Reached(longer).threads == Reached(events).threads
    ensures Reached(longer).db == Repaired(Reached(events).db, cs) && Reached(longer).actuals == Reached(events).actuals
    decreases cs
  {
    if cs == [] {
      longer := events;
    } else {
      var init, c := cs[..|cs| - 1], cs[|cs| - 1];
      longer := RepairsExtend(events, init, policy, ceiling);
      assert c in cs;
      Grow(longer, Repairs(c), policy, ceiling);
      longer := longer + [Repairs(c)];
    }
  }

  /** A crash followed by a whole recovery, raising or not, is a run again: what holds of every
      run holds at the next crash, and at any number of crashes after it. */
  lemma {:induction false} RestartIsARun(events: seq<Event>, policy: Policies.Policy, ceiling: int, orphans: seq<Id>, ws: seq<Id>,
                                         proved: set<ProcessKey>, at: Time) returns (longer: seq<Event>)
    requires Possible(events, policy, ceiling) && forall w :: w in ws ==> w in Reached(events).db.wakes
    ensures events <= longer && Possible(longer, policy, ceiling) && AllOver(Reached(longer).threads)
    ensures Reached(longer).db == Restarted(Reached(events).db, orphans, ws, proved, at).0
    ensures Reached(longer).actuals == Reached(events).actuals
  {
    Grow(events, Crashes, policy, ceiling);
    var crashed := events + [Crashes];
    var cs := RestartIsRepairs(Reached(events).db, orphans, ws, proved, at);
    longer := RepairsExtend(crashed, cs, policy, ceiling);
  }
}
