/** Workers that settle every claim in time: nothing is claimed past its lease and no claim is lost.
    Then running rows and unsettled claims match one to one, and lease discipline holds by itself. */
module Prompt {
  import opened Schema
  import opened Replay
  import opened Engine
  import opened Integrity
  import opened Frames
  import opened RunInvariants
  import opened Lease
  import opened Durable

  predicate Timely(s: State, e: Step) {
    && (e.ClaimRun? ==> e.task in s.db.tasks && s.db.tasks[e.task].status == Pending)
    && (e.ClaimJob? ==> e.activity in s.db.activities && s.db.activities[e.activity].status == Pending)
    && !e.CrashRun? && !e.CrashJob?
  }

  ghost predicate JobsPrompt(s: State) {
    && (forall c :: c in s.jobs && s.jobs[c].activity in s.db.activities ==>
          s.db.activities[s.jobs[c].activity].status == Running && Current(s, s.jobs[c]))
    && (forall c, d :: c in s.jobs && d in s.jobs && s.jobs[c].activity == s.jobs[d].activity ==> c == d)
    && (forall a :: a in s.db.activities && s.db.activities[a].status == Running ==> HasJob(s.jobs, a))
  }

  ghost predicate HasJob(jobs: map<Id, Job>, a: Id) {
    exists c :: c in jobs && jobs[c].activity == a
  }

  ghost predicate RunsPrompt(s: State) {
    && (forall c :: c in s.runs && s.runs[c].task in s.db.tasks ==> s.db.tasks[s.runs[c].task].status == Running)
    && (forall c, d :: c in s.runs && d in s.runs && s.runs[c].task == s.runs[d].task ==> c == d)
    && (forall t :: t in s.db.tasks && s.db.tasks[t].status == Running ==> HasRun(s.runs, t))
  }

  ghost predicate HasRun(runs: map<Id, Run>, t: Id) {
    exists c :: c in runs && runs[c].task == t
  }

  ghost predicate OneToOne(s: State) {
    JobsPrompt(s) && RunsPrompt(s)
  }

  lemma PromptIsLeased(s: State, e: Step)
    requires JobsPrompt(s)
    ensures Leased(s, e) && LatestRunning(s)
  {
  }

  // ---- jobs ----

  lemma ClaimJobPrompt(s: State, a: Id)
    requires RowIdsUsed(s.db, s.nextId) && JobsMatch(s) && JobsPrompt(s) && Timely(s, ClaimJob(a))
    ensures JobsPrompt(DoClaimJob(s, a))
  {
    var t := DoClaimJob(s, a);
    assert t.jobs[s.nextId].activity == a;
    forall b | b in t.db.activities && t.db.activities[b].status == Running
      ensures HasJob(t.jobs, b)
    {
      if b != a {
        var c :| c in s.jobs && s.jobs[c].activity == b;
        assert t.jobs[c].activity == b;
      }
    }
    forall c | c in s.jobs
      ensures s.jobs[c].activity != a && c != s.nextId
    {
    }
  }

  lemma JobReturnsPrompt(s: State, c: Id, result: JobResult)
    requires JobsPrompt(s) && c in s.jobs
    ensures JobsPrompt(DoJobReturns(s, c, result))
  {
    var t := DoJobReturns(s, c, result);
    forall b | b in t.db.activities && t.db.activities[b].status == Running
      ensures HasJob(t.jobs, b)
    {
      var d :| d in s.jobs && s.jobs[d].activity == b;
      assert t.jobs[d].activity == b;
    }
  }

  lemma SettlementPrompt(reg: Registry, s: State, e: Step)
    requires ForeignKeys(s.db) && JobsMatch(s) && JobsPrompt(s) && Enabled(reg, s, e) && Settles(e)
    ensures JobsPrompt(Apply(reg, s, e))
  {
    var t := Apply(reg, s, e);
    SettlementTouches(s, e);
    if TargetOf(s, e) in s.db.activities {
      SettledIsNotRunning(reg, s, e);
    }
    DroppedJobPrompt(s, t, e.job);
  }

  lemma DroppedJobPrompt(s: State, t: State, c: Id)
    requires JobsPrompt(s) && c in s.jobs && t.jobs == s.jobs - {c} && t.db.activities.Keys == s.db.activities.Keys
    requires forall a :: a in s.db.activities && a != s.jobs[c].activity ==> t.db.activities[a] == s.db.activities[a]
    requires s.jobs[c].activity in s.db.activities ==> t.db.activities[s.jobs[c].activity].status != Running
    ensures JobsPrompt(t)
  {
    forall b | b in t.db.activities && t.db.activities[b].status == Running
      ensures HasJob(t.jobs, b)
    {
      var d :| d in s.jobs && s.jobs[d].activity == b;
      assert t.jobs[d].activity == b;
    }
  }

  lemma SettledIsNotRunning(reg: Registry, s: State, e: Step)
    requires ForeignKeys(s.db) && JobsMatch(s) && Enabled(reg, s, e) && Settles(e) && TargetOf(s, e) in s.db.activities
    ensures Apply(reg, s, e).db.activities[TargetOf(s, e)].status != Running
  {
    assert JobMatches(s.db, s.jobs[e.job]);
  }

  lemma UntouchedJobsPrompt(s: State, t: State)
    requires JobsPrompt(s) && t.jobs == s.jobs && (forall c :: c in s.jobs ==> s.jobs[c].activity < s.nextId)
    requires forall a :: a in t.db.activities ==>
      if a in s.db.activities then t.db.activities[a] == s.db.activities[a]
        else a == s.nextId && t.db.activities[a].status == Pending
    ensures JobsPrompt(t)
  {
    forall b | b in t.db.activities && t.db.activities[b].status == Running
      ensures HasJob(t.jobs, b)
    {
      assert HasJob(s.jobs, b);
    }
  }

  lemma OtherJobsPrompt(reg: Registry, s: State, e: Step)
    requires RowIdsUsed(s.db, s.nextId) && JobsMatch(s) && JobsPrompt(s) && Enabled(reg, s, e) && !OnActivities(e)
    ensures JobsPrompt(Apply(reg, s, e))
  {
    if !e.Cleanup? {
      ActivitiesUntouched(reg, s, e);
    }
    UntouchedJobsPrompt(s, Apply(reg, s, e));
  }

  lemma JobsPromptStep(reg: Registry, s: State, e: Step)
    requires RowIdsUsed(s.db, s.nextId) && ForeignKeys(s.db) && JobsMatch(s) && JobsPrompt(s) && Enabled(reg, s, e)
    requires Timely(s, e)
    ensures JobsPrompt(Apply(reg, s, e))
  {
    if e.ClaimJob? {
      ClaimJobPrompt(s, e.activity);
    } else if e.JobReturns? {
      JobReturnsPrompt(s, e.job, e.result);
    } else if Settles(e) {
      SettlementPrompt(reg, s, e);
    } else {
      OtherJobsPrompt(reg, s, e);
    }
  }

  // ---- runs ----

  lemma SettledTaskIsNotRunning(reg: Registry, s: State, e: Step)
    requires Enabled(reg, s, e) && SettlesRun(e) && ForeignKeys(s.db) && RunMatches(s.db, s.runs[e.run])
    requires s.runs[e.run].task in s.db.tasks
    ensures Apply(reg, s, e).db.tasks[s.runs[e.run].task].status != Running
  {
  }

  lemma ClaimRunPrompt(s: State, x: Id)
    requires RunsMatch(s) && RowIdsUsed(s.db, s.nextId) && RunsPrompt(s) && Timely(s, ClaimRun(x))
    requires s.db.tasks[x].wf in s.db.workflows
    ensures RunsPrompt(DoClaimRun(s, x))
  {
    var t := DoClaimRun(s, x);
    assert t.runs[s.nextId].task == x;
    forall b | b in t.db.tasks && t.db.tasks[b].status == Running
      ensures HasRun(t.runs, b)
    {
      if b != x {
        var c :| c in s.runs && s.runs[c].task == b;
        assert t.runs[c].task == b;
      }
    }
    forall c | c in s.runs
      ensures s.runs[c].task != x && c != s.nextId
    {
    }
  }

  lemma RunSettlementPrompt(reg: Registry, s: State, e: Step)
    requires ForeignKeys(s.db) && RunsMatch(s) && RunsPrompt(s) && Enabled(reg, s, e) && SettlesRun(e)
    ensures RunsPrompt(Apply(reg, s, e))
  {
    var t := Apply(reg, s, e);
    RunSettlementTouches(reg, s, e);
    if s.runs[e.run].task in s.db.tasks {
      SettledTaskIsNotRunning(reg, s, e);
    }
    DroppedRunPrompt(s, t, e.run);
  }

  lemma DroppedRunPrompt(s: State, t: State, c: Id)
    requires RunsPrompt(s) && c in s.runs && t.runs == s.runs - {c} && t.db.tasks.Keys == s.db.tasks.Keys
    requires forall x :: x in s.db.tasks && x != s.runs[c].task ==> t.db.tasks[x] == s.db.tasks[x]
    requires s.runs[c].task in s.db.tasks ==> t.db.tasks[s.runs[c].task].status != Running
    ensures RunsPrompt(t)
  {
    forall b | b in t.db.tasks && t.db.tasks[b].status == Running
      ensures HasRun(t.runs, b)
    {
      var d :| d in s.runs && s.runs[d].task == b;
      assert t.runs[d].task == b;
    }
  }

  lemma UntouchedRunsPrompt(s: State, t: State)
    requires RunsPrompt(s) && (forall c :: c in s.runs ==> s.runs[c].task < s.nextId)
    requires t.runs.Keys == s.runs.Keys && forall c :: c in s.runs ==> RunKept(s.runs[c], t.runs[c])
    requires forall x :: x in t.db.tasks ==>
      if x in s.db.tasks then t.db.tasks[x] == s.db.tasks[x] else x >= s.nextId && t.db.tasks[x].status == Pending
    ensures RunsPrompt(t)
  {
    forall b | b in t.db.tasks && t.db.tasks[b].status == Running
      ensures HasRun(t.runs, b)
    {
      var d :| d in s.runs && s.runs[d].task == b;
      assert t.runs[d].task == b;
    }
  }

  lemma OtherRunsPrompt(reg: Registry, s: State, e: Step)
    requires RowIdsUsed(s.db, s.nextId) && RunsMatch(s) && RunsPrompt(s) && Enabled(reg, s, e)
    requires !e.ClaimRun? && !SettlesRun(e) && !e.CrashRun?
    ensures RunsPrompt(Apply(reg, s, e))
  {
    if !e.Cleanup? {
      TasksUntouched(reg, s, e);
    }
    RunClaimsKept(reg, s, e);
    UntouchedRunsPrompt(s, Apply(reg, s, e));
  }

  lemma RunsPromptStep(reg: Registry, s: State, e: Step)
    requires RowIdsUsed(s.db, s.nextId) && ForeignKeys(s.db) && RunsMatch(s) && RunsPrompt(s) && Enabled(reg, s, e)
    requires Timely(s, e)
    ensures RunsPrompt(Apply(reg, s, e))
  {
    if e.ClaimRun? {
      ClaimRunPrompt(s, e.task);
    } else if SettlesRun(e) {
      RunSettlementPrompt(reg, s, e);
    } else {
      OtherRunsPrompt(reg, s, e);
    }
  }

  // ---- together ----

  ghost predicate Orderly(reg: Registry, s: State) {
    Held(reg, s) && OneToOne(s)
  }

  lemma OneToOneStep(reg: Registry, s: State, e: Step)
    requires RowIdsUsed(s.db, s.nextId) && ForeignKeys(s.db) && RunsMatch(s) && JobsMatch(s) && OneToOne(s)
    requires Enabled(reg, s, e) && Timely(s, e)
    ensures OneToOne(Next(reg, s, e))
  {
    JobsPromptStep(reg, s, e);
    RunsPromptStep(reg, s, e);
  }

  lemma OrderlyStep(reg: Registry, s: State, e: Step)
    requires OwnKeys(reg) && Orderly(reg, s) && Enabled(reg, s, e) && Timely(s, e)
    ensures Leased(s, e) && Orderly(reg, Next(reg, s, e))
  {
    PromptIsLeased(s, e);
    HeldStep(reg, s, e);
    OneToOneStep(reg, s, e);
  }
}
