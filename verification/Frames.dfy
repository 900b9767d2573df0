/** What each kind of step leaves alone. */
module Frames {
  import opened Schema
  import opened Transactions
  import opened Replay
  import opened Engine
  import opened Integrity

  /** The run a step works on, if any; a new claim counts as its own. */
  function RunOf(s: State, e: Step): Id {
    match e
    case LoadHistory(c) => c
    case LoadSignals(c) => c
    case Advance(c) => c
    case InsertStarted(c) => c
    case RefuseInsert(c) => c
    case FinishWorkflow(c) => c
    case RunBreaks(c, _) => c
    case CompleteRun(c) => c
    case RetryRun(c, _, _) => c
    case FailRun(c, _) => c
    case CrashRun(c) => c
    case _ => s.nextId
  }

  /** A worker's step on its own run, between the claim and the settlement. */
  predicate Works(e: Step) {
    || e.LoadHistory? || e.LoadSignals? || e.Advance? || e.InsertStarted? || e.RefuseInsert? || e.FinishWorkflow?
    || e.RunBreaks?
  }

  // ---- steps on runs ----

  /** Working on a run changes that run alone, a status when its handler returns, and an activity when it starts one. */
  lemma WorkFrame(reg: Registry, s: State, e: Step)
    requires Works(e) && RunEnabled(reg, s, e)
    ensures var t := ApplyRun(reg, s, e);
      && t.jobs == s.jobs && t.db.tasks == s.db.tasks && t.db.signals == s.db.signals && t.log == s.log
      && (!e.InsertStarted? ==> t.db.activities == s.db.activities)
      && (!e.FinishWorkflow? ==> t.db.workflows == s.db.workflows)
      && e.run in s.runs && e.run in t.runs && t.runs == s.runs[e.run := t.runs[e.run]]
      && RunKept(s.runs[e.run], t.runs[e.run])
  {
  }

  lemma FinishFrame(reg: Registry, s: State, e: Step)
    requires e.FinishWorkflow? && RunEnabled(reg, s, e)
    ensures var t := ApplyRun(reg, s, e);
      && t.db.workflows.Keys == s.db.workflows.Keys
      && forall w :: w in s.db.workflows ==>
           && SameLimits(s.db.workflows[w], t.db.workflows[w])
           && (t.db.workflows[w].status == s.db.workflows[w].status || t.db.workflows[w].status == Succeeded)
  {
  }

  predicate SameLimits(w: Workflow, v: Workflow) {
    w.attempts == v.attempts && w.maxAttempts == v.maxAttempts
  }

  /** Only rescheduling counts an attempt, and only failing changes a status, each of the claim's own workflow. */
  lemma SettledWorkflows(reg: Registry, s: State, e: Step)
    requires SettlesRun(e) && RunEnabled(reg, s, e)
    ensures forall w :: w in s.db.workflows ==>
      var before, after := s.db.workflows[w], ApplyRun(reg, s, e).db.workflows[w];
        && after.maxAttempts == before.maxAttempts && before.attempts <= after.attempts
        && (!e.RetryRun? ==> after.attempts == before.attempts)
        && (after.status == before.status || (e.FailRun? && s.runs[e.run].wf == w && s.runs[e.run].task in s.db.tasks))
  {
  }

  lemma RunWorkflows(reg: Registry, s: State, e: Step)
    requires OnRun(e) && RunEnabled(reg, s, e)
    ensures ApplyRun(reg, s, e).db.workflows.Keys == s.db.workflows.Keys
    ensures forall w :: w in s.db.workflows ==>
      var before, after := s.db.workflows[w], ApplyRun(reg, s, e).db.workflows[w];
        && after.maxAttempts == before.maxAttempts && before.attempts <= after.attempts
        && (!e.RetryRun? ==> after.attempts == before.attempts)
        && (after.status == before.status || (e.FinishWorkflow? && after.status == Succeeded)
            || (e.FailRun? && s.runs[e.run].wf == w && s.runs[e.run].task in s.db.tasks))
  {
    RunStepFrame(reg, s, e);
    if Works(e) {
      WorkFrame(reg, s, e);
      if e.FinishWorkflow? {
        FinishFrame(reg, s, e);
      }
    } else if SettlesRun(e) {
      SettledWorkflows(reg, s, e);
    } else if e.ClaimRun? {
      ClaimFrame(s, e.task);
    }
  }

  lemma InsertFrame(reg: Registry, s: State, e: Step)
    requires e.InsertStarted? && RunEnabled(reg, s, e)
    ensures var t := ApplyRun(reg, s, e);
      && (forall a :: a in s.db.activities && a != s.nextId ==>
           a in t.db.activities && t.db.activities[a] == s.db.activities[a])
      && (forall a :: a in t.db.activities && a !in s.db.activities ==>
            a == s.nextId && t.db.activities[a].status == Pending && t.db.activities[a].attempts == 0)
  {
  }

  /** The loads take what the tables hold; no other work touches a snapshot. */
  lemma WorkSnapshots(reg: Registry, s: State, e: Step)
    requires Works(e) && RunEnabled(reg, s, e) && e.run in ApplyRun(reg, s, e).runs
    ensures var r, t := s.runs[e.run], ApplyRun(reg, s, e); var q := t.runs[e.run];
      && (q.history == r.history || q.history == Some(History(t.db, r.wf)))
      && (q.signals == r.signals || q.signals == Some(Signals(t.db, r.wf)))
  {
  }

  lemma ClaimFrame(s: State, x: Id)
    requires x in s.db.tasks && s.db.tasks[x].wf in s.db.workflows
    ensures var t := DoClaimRun(s, x);
      && t.jobs == s.jobs && t.log == s.log
         && t.db == s.db.(tasks := s.db.tasks[x := ClaimedTask(s.db.tasks[x], s.now)])
      && s.nextId in t.runs && t.runs == s.runs[s.nextId := t.runs[s.nextId]] && Fresh(t.runs[s.nextId])
  {
  }

  /** A settlement drops its claim, and writes no task but its own. */
  lemma RunSettlementTouches(reg: Registry, s: State, e: Step)
    requires SettlesRun(e) && RunEnabled(reg, s, e)
    ensures var t := ApplyRun(reg, s, e);
      && t.runs == s.runs - {e.run} && t.jobs == s.jobs && t.log == s.log
      && t.db.activities == s.db.activities && t.db.signals == s.db.signals
      && t.db.tasks.Keys == s.db.tasks.Keys && t.db.workflows.Keys == s.db.workflows.Keys
      && forall x :: x in s.db.tasks && x != s.runs[e.run].task ==> t.db.tasks[x] == s.db.tasks[x]
  {
  }

  lemma RunStepFrame(reg: Registry, s: State, e: Step)
    requires OnRun(e) && RunEnabled(reg, s, e)
    ensures var t := ApplyRun(reg, s, e);
      && t.jobs == s.jobs && t.db.signals == s.db.signals && t.db.workflows.Keys == s.db.workflows.Keys
         && t.log == s.log
      && t.db.tasks.Keys == s.db.tasks.Keys && (!e.InsertStarted? ==> t.db.activities == s.db.activities)
      && (forall d :: d != RunOf(s, e) ==> (d in t.runs <==> d in s.runs) && (d in s.runs ==> t.runs[d] == s.runs[d]))
      && (!SettlesRun(e) ==> forall x :: x in s.db.tasks && !(e.ClaimRun? && e.task == x) ==>
           t.db.tasks[x] == s.db.tasks[x])
  {
    if Works(e) {
      WorkFrame(reg, s, e);
      if e.FinishWorkflow? {
        FinishFrame(reg, s, e);
      }
    } else if SettlesRun(e) {
      RunSettlementTouches(reg, s, e);
    } else if e.ClaimRun? {
      ClaimFrame(s, e.task);
    }
  }

  // ---- steps on activities ----

  lemma JobStepFrame(s: State, e: Step)
    requires OnActivities(e) && JobEnabled(s, e)
    ensures var t := ApplyJob(s, e);
      && t.runs == s.runs && t.db.signals == s.db.signals && t.db.workflows.Keys == s.db.workflows.Keys
      && t.db.activities.Keys == s.db.activities.Keys
      && (forall x :: x in s.db.tasks ==> x in t.db.tasks && t.db.tasks[x] == s.db.tasks[x])
      && (forall x :: x in t.db.tasks && x !in s.db.tasks ==>
            e.CompleteJob? && x == s.nextId && t.db.tasks[x].status == Pending)
  {
  }

  lemma JobWorkflows(s: State, e: Step)
    requires OnActivities(e) && JobEnabled(s, e)
    ensures ApplyJob(s, e).db.workflows.Keys == s.db.workflows.Keys
    ensures !e.FailJob? ==> ApplyJob(s, e).db.workflows == s.db.workflows
    ensures forall w :: w in s.db.workflows ==>
      var before, after := s.db.workflows[w], ApplyJob(s, e).db.workflows[w];
        && SameLimits(before, after)
        && (after.status == before.status
             || (e.FailJob? && s.jobs[e.job].wf == w && s.jobs[e.job].activity in s.db.activities))
  {
  }

  /** Only a claim or a rescheduling of an activity is counted. */
  lemma CountersKept(reg: Registry, s: State, e: Step)
    requires Enabled(reg, s, e) && !e.ClaimJob? && !e.RetryJob?
    ensures var l := Apply(reg, s, e).log; l.due == s.log.due && l.stuck == s.log.stuck && l.retried == s.log.retried
  {
    if OnRun(e) {
      RunStepFrame(reg, s, e);
    } else if OnActivities(e) {
      JobCounters(s, e);
    } else {
      OthersKeepClaims(reg, s, e);
    }
  }

  lemma JobCounters(s: State, e: Step)
    requires OnActivities(e) && JobEnabled(s, e) && !e.ClaimJob? && !e.RetryJob?
    ensures var l := ApplyJob(s, e).log; l.due == s.log.due && l.stuck == s.log.stuck && l.retried == s.log.retried
  {
  }

  function TargetOf(s: State, e: Step): Id
    requires Settles(e) && e.job in s.jobs
  {
    s.jobs[e.job].activity
  }

  /** A settlement drops its claim and writes no activity row but its own. */
  lemma SettlementTouches(s: State, e: Step)
    requires Settles(e) && JobEnabled(s, e)
    ensures var t := ApplyJob(s, e);
      && t.jobs == s.jobs - {e.job} && t.runs == s.runs && t.db.signals == s.db.signals
      && t.db.activities.Keys == s.db.activities.Keys
      && forall a :: a in s.db.activities ==>
           && t.db.activities[a].attempts == s.db.activities[a].attempts
           && (a != TargetOf(s, e) ==> t.db.activities[a] == s.db.activities[a])
  {
  }

  // ---- the other steps ----

  lemma OtherStepFrame(reg: Registry, s: State, e: Step)
    requires Enabled(reg, s, e) && !OnRun(e) && !OnActivities(e) && !e.Cleanup? && RowIdsUsed(s.db, s.nextId)
    ensures var t := Apply(reg, s, e);
      && t.runs == s.runs && t.jobs == s.jobs && t.db.activities == s.db.activities
      && (forall w :: w in s.db.workflows ==> w in t.db.workflows && t.db.workflows[w] == s.db.workflows[w])
      && (forall g :: g in s.db.signals ==> g in t.db.signals && t.db.signals[g] == s.db.signals[g])
      && (forall x :: x in s.db.tasks ==> x in t.db.tasks && t.db.tasks[x] == s.db.tasks[x])
      && (forall x :: x in t.db.tasks && x !in s.db.tasks ==>
            !e.Tick? && x == s.nextId + 1 && t.db.tasks[x].status == Pending
            && t.db.tasks[x].wf == if e.Enqueue? then s.nextId else e.wf)
  {
  }

  lemma OthersKeepClaims(reg: Registry, s: State, e: Step)
    requires Enabled(reg, s, e) && !OnRun(e) && !OnActivities(e)
    ensures var t := Apply(reg, s, e);
      t.runs == s.runs && t.jobs == s.jobs && (!e.Cleanup? ==> t.db.activities == s.db.activities)
      && t.log == s.log.(wake := t.log.wake)
  {
  }

  // ---- by what is left alone ----

  lemma ActivitiesUntouched(reg: Registry, s: State, e: Step)
    requires Enabled(reg, s, e) && !OnActivities(e) && !e.Cleanup?
    ensures Apply(reg, s, e).jobs == s.jobs
    ensures e.InsertStarted? || Apply(reg, s, e).db.activities == s.db.activities
    ensures forall a :: a in s.db.activities && a != s.nextId ==>
      a in Apply(reg, s, e).db.activities && Apply(reg, s, e).db.activities[a] == s.db.activities[a]
    ensures forall a :: a in Apply(reg, s, e).db.activities && a !in s.db.activities ==>
      a == s.nextId && Apply(reg, s, e).db.activities[a].status == Pending
        && Apply(reg, s, e).db.activities[a].attempts == 0
  {
    if OnRun(e) {
      RunStepFrame(reg, s, e);
      if e.InsertStarted? {
        InsertFrame(reg, s, e);
      }
    } else {
      OthersKeepClaims(reg, s, e);
    }
  }

  lemma SignalsKept(reg: Registry, s: State, e: Step)
    requires Enabled(reg, s, e) && !e.Cleanup? && RowIdsUsed(s.db, s.nextId)
    ensures forall g :: g in s.db.signals ==>
      g in Apply(reg, s, e).db.signals && Apply(reg, s, e).db.signals[g] == s.db.signals[g]
  {
    if OnRun(e) {
      RunStepFrame(reg, s, e);
    } else if OnActivities(e) {
      JobStepFrame(s, e);
    } else {
      OtherStepFrame(reg, s, e);
    }
  }

  lemma OnlyItsRun(reg: Registry, s: State, e: Step)
    requires Enabled(reg, s, e)
    ensures forall d :: d in Apply(reg, s, e).runs && d != RunOf(s, e) ==>
      d in s.runs && Apply(reg, s, e).runs[d] == s.runs[d]
    ensures e.InsertStarted? || e.Cleanup? || Apply(reg, s, e).db.activities.Keys == s.db.activities.Keys
  {
    if OnRun(e) {
      RunStepFrame(reg, s, e);
    } else if OnActivities(e) {
      JobStepFrame(s, e);
    } else {
      OthersKeepClaims(reg, s, e);
    }
  }

  /** Snapshots are only ever taken by the two loads, and a load takes what the tables hold. */
  lemma RunSnapshots(reg: Registry, s: State, e: Step, c: Id)
    requires Enabled(reg, s, e) && c in s.runs && c in Apply(reg, s, e).runs && c < s.nextId
    ensures var r, q := s.runs[c], Apply(reg, s, e).runs[c];
      && RunKept(r, q)
      && (q.history == r.history || q.history == Some(History(Apply(reg, s, e).db, r.wf)))
      && (q.signals == r.signals || q.signals == Some(Signals(Apply(reg, s, e).db, r.wf)))
  {
    if Works(e) {
      WorkFrame(reg, s, e);
      WorkSnapshots(reg, s, e);
    } else if OnRun(e) {
      RunStepFrame(reg, s, e);
    } else if OnActivities(e) {
      JobStepFrame(s, e);
    } else {
      OthersKeepClaims(reg, s, e);
    }
  }

  lemma NewRunHasSeenNothing(reg: Registry, s: State, e: Step, c: Id)
    requires Enabled(reg, s, e) && c !in s.runs && c in Apply(reg, s, e).runs
    ensures Fresh(Apply(reg, s, e).runs[c])
  {
    if Works(e) {
      WorkFrame(reg, s, e);
    } else if OnRun(e) {
      RunStepFrame(reg, s, e);
    } else if OnActivities(e) {
      JobStepFrame(s, e);
    } else {
      OthersKeepClaims(reg, s, e);
    }
  }

  /** Only claims and settlements of runs change tasks; everything else adds pending ones at most. */
  lemma TasksUntouched(reg: Registry, s: State, e: Step)
    requires Enabled(reg, s, e) && RowIdsUsed(s.db, s.nextId) && !e.ClaimRun? && !SettlesRun(e) && !e.Cleanup?
    ensures forall t :: t in s.db.tasks ==>
      t in Apply(reg, s, e).db.tasks && Apply(reg, s, e).db.tasks[t] == s.db.tasks[t]
    ensures forall t :: t in Apply(reg, s, e).db.tasks && t !in s.db.tasks ==>
      t >= s.nextId && Apply(reg, s, e).db.tasks[t].status == Pending
  {
    if OnRun(e) {
      RunStepFrame(reg, s, e);
    } else if OnActivities(e) {
      JobStepFrame(s, e);
    } else {
      OtherStepFrame(reg, s, e);
    }
  }

  lemma RunClaimsKept(reg: Registry, s: State, e: Step)
    requires Enabled(reg, s, e) && !e.ClaimRun? && !SettlesRun(e) && !e.CrashRun?
    ensures Apply(reg, s, e).runs.Keys == s.runs.Keys
    ensures forall c :: c in s.runs ==> RunKept(s.runs[c], Apply(reg, s, e).runs[c])
  {
    if OnRun(e) {
      WorkFrame(reg, s, e);
    } else if OnActivities(e) {
      JobStepFrame(s, e);
    } else {
      OthersKeepClaims(reg, s, e);
    }
  }

  lemma ClaimsKept(reg: Registry, s: State, e: Step)
    requires Enabled(reg, s, e) && !e.ClaimRun?
    ensures forall c :: c in Apply(reg, s, e).runs ==> c in s.runs && RunKept(s.runs[c], Apply(reg, s, e).runs[c])
  {
    if SettlesRun(e) {
      RunSettlementTouches(reg, s, e);
    } else if !e.CrashRun? {
      RunClaimsKept(reg, s, e);
    }
  }
}
