/** What a workflow's events do over whole runs: signals only grow, and under lease discipline history does too. */
module Growth {
  import opened Schema
  import opened Replay
  import opened Engine
  import opened Integrity
  import opened Frames
  import opened Wakeup
  import opened Lease

  // ---- over one step ----

  lemma SignalsGrowStep(reg: Registry, s: State, e: Step, wf: Id)
    requires Valid(s) && Enabled(reg, s, e) && wf in Next(reg, s, e).db.workflows
    ensures Within(Signals(s.db, wf), Signals(Next(reg, s, e).db, wf))
  {
    if e.Cleanup? {
      CleanupKeepsEvents(s, e.ids, wf);
    } else {
      ValidStep(reg, s, e);
      SignalsKept(reg, s, e);
      GrowingSignals(s.db, Next(reg, s, e).db, wf);
    }
  }

  lemma GrowingSignals(db: Tables, after: Tables, wf: Id)
    requires SignalKeysUnique(db) && SignalKeysUnique(after)
    requires forall g :: g in db.signals ==> g in after.signals && after.signals[g] == db.signals[g]
    ensures Within(Signals(db, wf), Signals(after, wf))
  {
    forall k | k in Signals(db, wf)
      ensures k in Signals(after, wf) && Signals(after, wf)[k] == Signals(db, wf)[k]
    {
      var g := SignalIsDelivered(db, wf, k);
      DeliveredInSignals(after, wf, g);
    }
  }

  lemma HistoryGrowsStep(reg: Registry, s: State, e: Step, wf: Id)
    requires Valid(s) && LatestRunning(s) && Enabled(reg, s, e) && Leased(s, e) && wf in Next(reg, s, e).db.workflows
    ensures Within(History(s.db, wf), History(Next(reg, s, e).db, wf))
  {
    if e.Cleanup? {
      CleanupKeepsEvents(s, e.ids, wf);
    } else {
      ValidStep(reg, s, e);
      GrowsStep(reg, s, e);
      GrowingEvents(s.db, Next(reg, s, e).db, wf);
    }
  }

  // ---- over runs ----

  /** A workflow that is there after a run was there all along: ids are never used again. */
  lemma GoneStaysGone(reg: Registry, s: State, e: Step, wf: Id)
    requires Valid(s) && Enabled(reg, s, e) && wf < s.nextId && wf in Next(reg, s, e).db.workflows
    ensures wf in s.db.workflows
  {
    if !e.Cleanup? {
      StepEvolves(reg, s, e);
    }
  }

  lemma {:induction false} WasThere(reg: Registry, s: State, es: seq<Step>, wf: Id)
    requires Valid(s) && Runs(reg, s, es) && wf < s.nextId && wf in After(reg, s, es).db.workflows
    ensures wf in s.db.workflows
    decreases |es|
  {
    if es != [] {
      ValidStep(reg, s, es[0]);
      WasThere(reg, Next(reg, s, es[0]), es[1..], wf);
      GoneStaysGone(reg, s, es[0], wf);
    }
  }

  lemma {:induction false} WorkflowStays(reg: Registry, s: State, es: seq<Step>, wf: Id)
    requires Valid(s) && Runs(reg, s, es) && wf in s.db.workflows && wf in After(reg, s, es).db.workflows
    ensures WorkflowKept(s.db.workflows[wf], After(reg, s, es).db.workflows[wf])
    decreases |es|
  {
    if es != [] {
      var t := Next(reg, s, es[0]);
      ValidStep(reg, s, es[0]);
      WasThere(reg, t, es[1..], wf);
      if !es[0].Cleanup? {
        StepEvolves(reg, s, es[0]);
      }
      WorkflowStays(reg, t, es[1..], wf);
    }
  }

  lemma WithinTransitive(e: Events, f: Events, g: Events)
    requires Within(e, f) && Within(f, g)
    ensures Within(e, g)
  {
  }

  /** Delivered signals are never lost or changed while their workflow exists, whatever workers do. */
  lemma {:induction false} SignalsOnlyGrow(reg: Registry, s: State, es: seq<Step>, wf: Id)
    requires Valid(s) && Runs(reg, s, es)
    requires wf in s.db.workflows && wf in After(reg, s, es).db.workflows
    ensures Within(Signals(s.db, wf), Signals(After(reg, s, es).db, wf))
    decreases |es|
  {
    if es != [] {
      var t := Next(reg, s, es[0]);
      ValidStep(reg, s, es[0]);
      WasThere(reg, t, es[1..], wf);
      SignalsGrowStep(reg, s, es[0], wf);
      SignalsOnlyGrow(reg, t, es[1..], wf);
      WithinTransitive(Signals(s.db, wf), Signals(t.db, wf), Signals(After(reg, s, es).db, wf));
    }
  }

  /** Under lease discipline recorded outputs are never lost or changed while their workflow exists. */
  lemma {:induction false} HistoryOnlyGrows(reg: Registry, s: State, es: seq<Step>, wf: Id)
    requires Valid(s) && LatestRunning(s) && LeasedRuns(reg, s, es) && Runs(reg, s, es)
    requires wf in s.db.workflows && wf in After(reg, s, es).db.workflows
    ensures Within(History(s.db, wf), History(After(reg, s, es).db, wf))
    decreases |es|
  {
    if es != [] {
      var t := Next(reg, s, es[0]);
      ValidStep(reg, s, es[0]);
      LatestRunningStep(reg, s, es[0]);
      WasThere(reg, t, es[1..], wf);
      HistoryGrowsStep(reg, s, es[0], wf);
      HistoryOnlyGrows(reg, t, es[1..], wf);
      WithinTransitive(History(s.db, wf), History(t.db, wf), History(After(reg, s, es).db, wf));
    }
  }

  // ---- without the discipline ----

  /** A settlement keeps history exactly when its row is not recorded yet, or it records the same output again. */
  predicate Harmless(s: State, e: Step)
    requires Settles(e) && e.job in s.jobs
  {
    var a := TargetOf(s, e);
    a in s.db.activities && s.db.activities[a].status == Completed ==>
      e.CompleteJob? && s.jobs[e.job].result.Some? && s.jobs[e.job].result.value == Output(s.db.activities[a].output)
  }

  lemma HarmlessKeeps(reg: Registry, s: State, e: Step)
    requires Enabled(reg, s, e) && Settles(e) && Harmless(s, e)
    ensures forall a, wf :: Recorded(s.db, wf, a) ==>
      && Recorded(Next(reg, s, e).db, wf, a)
      && Next(reg, s, e).db.activities[a].key == s.db.activities[a].key
      && Next(reg, s, e).db.activities[a].output == s.db.activities[a].output
  {
    SettlementTouches(s, e);
  }

  lemma HarmfulChanges(reg: Registry, s: State, e: Step)
    requires Enabled(reg, s, e) && Settles(e) && !Harmless(s, e)
    requires s.db.activities[TargetOf(s, e)].wf in s.db.workflows && s.jobs[e.job].wf in s.db.workflows
    ensures var a, t := TargetOf(s, e), Next(reg, s, e);
      && t.db.activities[a].key == s.db.activities[a].key && t.db.activities[a].wf == s.db.activities[a].wf
      && (t.db.activities[a].status != Completed || t.db.activities[a].output != s.db.activities[a].output)
  {
  }

  lemma SettlementKeepsHistoryIff(reg: Registry, s: State, e: Step)
    requires Valid(s) && Enabled(reg, s, e) && Settles(e)
    ensures Harmless(s, e) <==>
      forall wf :: wf in s.db.workflows ==> Within(History(s.db, wf), History(Next(reg, s, e).db, wf))
  {
    var t := Next(reg, s, e);
    ValidStep(reg, s, e);
    if Harmless(s, e) {
      HarmlessKeeps(reg, s, e);
      forall wf | wf in s.db.workflows
        ensures Within(History(s.db, wf), History(t.db, wf))
      {
        forall k | k in History(s.db, wf)
          ensures k in History(t.db, wf) && History(t.db, wf)[k] == History(s.db, wf)[k]
        {
          var a := HistoryIsRecorded(s.db, wf, k);
          RecordedInHistory(t.db, wf, a);
        }
      }
    } else {
      var a := TargetOf(s, e);
      var wf := s.db.activities[a].wf;
      assert JobMatches(s.db, s.jobs[e.job]);
      HarmfulChanges(reg, s, e);
      RecordedInHistory(s.db, wf, a);
      LostOrChanged(s.db, t.db, wf, a);
    }
  }

  lemma LostOrChanged(db: Tables, after: Tables, wf: Id, a: Id)
    requires ActivityKeysUnique(db) && ActivityKeysUnique(after) && Recorded(db, wf, a)
    requires a in after.activities && after.activities[a].key == db.activities[a].key && after.activities[a].wf == wf
    requires after.activities[a].status != Completed || after.activities[a].output != db.activities[a].output
    ensures !Within(History(db, wf), History(after, wf))
  {
    var k := db.activities[a].key;
    RecordedInHistory(db, wf, a);
    if k in History(after, wf) {
      var b := HistoryIsRecorded(after, wf, k);
      assert b == a;
    }
  }
}
