/** Lease discipline: an activity claim is settled only while it is the latest claim on its row.
    The storage does not enforce it; what follows is what it buys. */
module Lease {
  import opened Schema
  import opened Replay
  import opened Engine
  import opened Integrity
  import opened Frames

  predicate Current(s: State, j: Job) {
    j.activity in s.db.activities && s.db.activities[j.activity].attempts == j.attempts
  }

  /** The step settles no activity claim that has been taken over. */
  predicate Leased(s: State, e: Step) {
    Settles(e) && e.job in s.jobs && s.jobs[e.job].activity in s.db.activities ==> Current(s, s.jobs[e.job])
  }

  ghost predicate LeasedRuns(reg: Registry, s: State, es: seq<Step>)
    decreases |es|
  {
    es != [] ==> Enabled(reg, s, es[0]) && Leased(s, es[0]) && LeasedRuns(reg, Next(reg, s, es[0]), es[1..])
  }

  lemma {:induction false} LeasedRunsAreRuns(reg: Registry, s: State, es: seq<Step>)
    requires LeasedRuns(reg, s, es)
    ensures Runs(reg, s, es)
    decreases |es|
  {
    if es != [] {
      LeasedRunsAreRuns(reg, Next(reg, s, es[0]), es[1..]);
    }
  }

  lemma {:induction false} InductionOverLeasedRuns(reg: Registry, s: State, es: seq<Step>, inv: State -> bool)
    requires LeasedRuns(reg, s, es) && Runs(reg, s, es) && inv(s)
    requires forall t: State, e: Step :: inv(t) && Enabled(reg, t, e) && Leased(t, e) ==> inv(Next(reg, t, e))
    ensures inv(After(reg, s, es))
    decreases |es|
  {
    if es != [] {
      InductionOverLeasedRuns(reg, Next(reg, s, es[0]), es[1..], inv);
    }
  }

  ghost predicate DistinctClaims(s: State) {
    forall c, d :: c in s.jobs && d in s.jobs && c != d && s.jobs[c].activity == s.jobs[d].activity ==>
      s.jobs[c].attempts != s.jobs[d].attempts
  }

  /** The latest claim on an activity, while unsettled, finds its row still running; claims have distinct attempt
      numbers. */
  ghost predicate LatestRunning(s: State) {
    && (forall c :: c in s.jobs && Current(s, s.jobs[c]) ==> s.db.activities[s.jobs[c].activity].status == Running)
    && DistinctClaims(s)
  }

  lemma ClaimJobLatest(s: State, a: Id)
    requires JobsMatch(s) && LatestRunning(s) && a in s.db.activities
    ensures LatestRunning(DoClaimJob(s, a))
  {
    forall c | c in s.jobs
      ensures JobMatches(s.db, s.jobs[c])
    {
    }
  }

  lemma SettledJobLatest(s: State, t: State, c: Id)
    requires LatestRunning(s) && c in s.jobs && t.jobs == s.jobs - {c}
    requires s.jobs[c].activity in s.db.activities ==> Current(s, s.jobs[c])
    requires t.db.activities.Keys == s.db.activities.Keys
    requires forall a :: a in s.db.activities ==>
      t.db.activities[a].attempts == s.db.activities[a].attempts
        && (a != s.jobs[c].activity ==> t.db.activities[a] == s.db.activities[a])
    ensures LatestRunning(t)
  {
  }

  lemma LatestRunningStep(reg: Registry, s: State, e: Step)
    requires RowIdsUsed(s.db, s.nextId) && JobsMatch(s) && LatestRunning(s) && Enabled(reg, s, e) && Leased(s, e)
    ensures LatestRunning(Next(reg, s, e))
  {
    if OnActivities(e) {
      JobStepLatest(s, e);
    } else if e.Cleanup? {
      KeptLatest(s, Apply(reg, s, e));
    } else {
      UntouchedLatest(reg, s, e);
    }
  }

  lemma JobStepLatest(s: State, e: Step)
    requires JobsMatch(s) && LatestRunning(s) && OnActivities(e) && JobEnabled(s, e) && Leased(s, e)
    ensures LatestRunning(ApplyJob(s, e))
  {
    if e.ClaimJob? {
      ClaimJobLatest(s, e.activity);
    } else if Settles(e) {
      SettlementLatest(s, e);
    } else {
      KeptLatest(s, ApplyJob(s, e));
    }
  }

  lemma SettlementLatest(s: State, e: Step)
    requires LatestRunning(s) && Settles(e) && JobEnabled(s, e) && Leased(s, e)
    ensures LatestRunning(ApplyJob(s, e))
  {
    SettlementTouches(s, e);
    SettledJobLatest(s, ApplyJob(s, e), e.job);
  }

  lemma KeptLatest(s: State, t: State)
    requires LatestRunning(s) && forall a :: a in t.db.activities ==>
      a in s.db.activities && t.db.activities[a] == s.db.activities[a]
    requires forall c :: c in t.jobs ==>
      c in s.jobs && t.jobs[c].activity == s.jobs[c].activity && t.jobs[c].attempts == s.jobs[c].attempts
    ensures LatestRunning(t)
  {
  }

  lemma UntouchedLatest(reg: Registry, s: State, e: Step)
    requires RowIdsUsed(s.db, s.nextId) && JobsMatch(s) && LatestRunning(s) && Enabled(reg, s, e) && !OnActivities(e)
    requires !e.Cleanup?
    ensures LatestRunning(Apply(reg, s, e))
  {
    ActivitiesUntouched(reg, s, e);
  }

  // ---- events only grow ----

  /** Completed and failed activities stay as they are, and so do signals. */
  ghost predicate Grows(db: Tables, after: Tables) {
    && (forall a :: a in db.activities && !Open(db.activities[a].status) ==>
          a in after.activities && after.activities[a] == db.activities[a])
    && (forall g :: g in db.signals ==> g in after.signals && after.signals[g] == db.signals[g])
  }

  lemma GrowsStep(reg: Registry, s: State, e: Step)
    requires RowIdsUsed(s.db, s.nextId) && LatestRunning(s) && Enabled(reg, s, e) && Leased(s, e) && !e.Cleanup?
    ensures Grows(s.db, Next(reg, s, e).db)
  {
    SignalsKept(reg, s, e);
    if Settles(e) {
      SettlementTouches(s, e);
      if TargetOf(s, e) in s.db.activities {
        LatestIsRunning(s, e.job);
      }
    } else if OnActivities(e) {
      ClaimsKeepDone(s, e);
    } else {
      ActivitiesUntouched(reg, s, e);
    }
  }

  /** A claim takes no row that is completed or failed. */
  lemma ClaimsKeepDone(s: State, e: Step)
    requires (e.ClaimJob? || e.JobReturns? || e.CrashJob?) && JobEnabled(s, e)
    ensures forall a :: a in s.db.activities && !Open(s.db.activities[a].status) ==>
      a in ApplyJob(s, e).db.activities && ApplyJob(s, e).db.activities[a] == s.db.activities[a]
  {
  }

  lemma LatestIsRunning(s: State, c: Id)
    requires LatestRunning(s) && c in s.jobs && Current(s, s.jobs[c])
    ensures s.db.activities[s.jobs[c].activity].status == Running
  {
  }

  lemma GrowingEvents(db: Tables, after: Tables, wf: Id)
    requires Consistent(db) && Consistent(after) && Grows(db, after)
    ensures Within(History(db, wf), History(after, wf)) && Within(Signals(db, wf), Signals(after, wf))
  {
    forall k | k in History(db, wf)
      ensures k in History(after, wf) && History(after, wf)[k] == History(db, wf)[k]
    {
      var a := HistoryIsRecorded(db, wf, k);
      RecordedInHistory(after, wf, a);
    }
    forall k | k in Signals(db, wf)
      ensures k in Signals(after, wf) && Signals(after, wf)[k] == Signals(db, wf)[k]
    {
      var g := SignalIsDelivered(db, wf, k);
      DeliveredInSignals(after, wf, g);
    }
  }
}
