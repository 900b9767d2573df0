/** When rows are due: leases over whole runs, backoff, and wake-ups. */
module Schedule {
  import opened Schema
  import opened Transactions
  import opened Replay
  import opened Engine
  import opened Integrity
  import opened Frames
  import opened Wakeup
  import opened Postgres

  // ---- leases over runs ----

  lemma ClockRuns(reg: Registry, s: State, e: Step)
    requires Enabled(reg, s, e)
    ensures s.now <= Next(reg, s, e).now && (!e.Tick? ==> Next(reg, s, e).now == s.now)
  {
  }

  /** The step settles a claim on task x, with or without success. */
  predicate SettlesTask(s: State, e: Step, x: Id) {
    SettlesRun(e) && e.run in s.runs && s.runs[e.run].task == x
  }

  predicate SettlesActivity(s: State, e: Step, x: Id) {
    Settles(e) && e.job in s.jobs && s.jobs[e.job].activity == x
  }

  ghost predicate NoTaskSettled(reg: Registry, s: State, es: seq<Step>, x: Id)
    requires Runs(reg, s, es)
    decreases |es|
  {
    es != [] ==> !SettlesTask(s, es[0], x) && NoTaskSettled(reg, Next(reg, s, es[0]), es[1..], x)
  }

  ghost predicate NoActivitySettled(reg: Registry, s: State, es: seq<Step>, x: Id)
    requires Runs(reg, s, es)
    decreases |es|
  {
    es != [] ==> !SettlesActivity(s, es[0], x) && NoActivitySettled(reg, Next(reg, s, es[0]), es[1..], x)
  }

  /** Task x, if it still exists, is leased at least until then, and so it will be when it is claimed anew. */
  ghost predicate TaskLeased(s: State, x: Id, until: int) {
    x < s.nextId && (x in s.db.tasks ==>
      && s.db.tasks[x].status == Running && s.db.tasks[x].stuckAt != None && until <= s.db.tasks[x].stuckAt.value
      && until <= s.now + s.db.tasks[x].stuckTimeout)
  }

  ghost predicate ActivityLeased(s: State, x: Id, until: int) {
    x < s.nextId && (x in s.db.activities ==>
      && s.db.activities[x].status == Running && s.db.activities[x].stuckAt != None
      && until <= s.db.activities[x].stuckAt.value && until <= s.now + s.db.activities[x].stuckTimeout)
  }

  lemma TaskLeasedStep(reg: Registry, s: State, e: Step, x: Id, until: int)
    requires RowIdsUsed(s.db, s.nextId) && Enabled(reg, s, e) && TaskLeased(s, x, until) && !SettlesTask(s, e, x)
    ensures TaskLeased(Next(reg, s, e), x, until)
  {
    ClockRuns(reg, s, e);
    if SettlesRun(e) {
      RunSettlementTouches(reg, s, e);
    } else if e.ClaimRun? {
      ClaimFrame(s, e.task);
    } else if OnRun(e) {
      RunStepFrame(reg, s, e);
    } else if OnActivities(e) {
      JobStepFrame(s, e);
    } else if !e.Cleanup? {
      OtherStepFrame(reg, s, e);
    }
  }

  lemma ActivityLeasedStep(reg: Registry, s: State, e: Step, x: Id, until: int)
    requires RowIdsUsed(s.db, s.nextId) && Enabled(reg, s, e) && ActivityLeased(s, x, until)
    requires !SettlesActivity(s, e, x)
    ensures ActivityLeased(Next(reg, s, e), x, until)
  {
    ClockRuns(reg, s, e);
    if Settles(e) {
      SettlementTouches(s, e);
    } else if !OnActivities(e) && !e.Cleanup? {
      ActivitiesUntouched(reg, s, e);
    }
  }

  lemma {:induction false} TaskLeasedRuns(reg: Registry, s: State, es: seq<Step>, x: Id, until: int)
    requires Valid(s) && Runs(reg, s, es) && NoTaskSettled(reg, s, es, x) && TaskLeased(s, x, until)
    ensures TaskLeased(After(reg, s, es), x, until)
    decreases |es|
  {
    if es != [] {
      ValidStep(reg, s, es[0]);
      TaskLeasedStep(reg, s, es[0], x, until);
      TaskLeasedRuns(reg, Next(reg, s, es[0]), es[1..], x, until);
    }
  }

  lemma {:induction false} ActivityLeasedRuns(reg: Registry, s: State, es: seq<Step>, x: Id, until: int)
    requires Valid(s) && Runs(reg, s, es) && NoActivitySettled(reg, s, es, x) && ActivityLeased(s, x, until)
    ensures ActivityLeased(After(reg, s, es), x, until)
    decreases |es|
  {
    if es != [] {
      ValidStep(reg, s, es[0]);
      ActivityLeasedStep(reg, s, es[0], x, until);
      ActivityLeasedRuns(reg, Next(reg, s, es[0]), es[1..], x, until);
    }
  }

  /** Two claims of a task with no settlement of it in between lie at least its stuck timeout apart. */
  lemma TaskClaimsApart(reg: Registry, s: State, x: Id, es: seq<Step>)
    requires Valid(s) && Enabled(reg, s, ClaimRun(x))
    requires Runs(reg, Next(reg, s, ClaimRun(x)), es) && NoTaskSettled(reg, Next(reg, s, ClaimRun(x)), es, x)
    requires Enabled(reg, After(reg, Next(reg, s, ClaimRun(x)), es), ClaimRun(x))
    ensures s.now + s.db.tasks[x].stuckTimeout <= After(reg, Next(reg, s, ClaimRun(x)), es).now
  {
    ValidStep(reg, s, ClaimRun(x));
    TaskLeasedRuns(reg, Next(reg, s, ClaimRun(x)), es, x, s.now + s.db.tasks[x].stuckTimeout);
  }

  /** And so do two claims of an activity. */
  lemma ActivityClaimsApart(reg: Registry, s: State, x: Id, es: seq<Step>)
    requires Valid(s) && Enabled(reg, s, ClaimJob(x))
    requires Runs(reg, Next(reg, s, ClaimJob(x)), es) && NoActivitySettled(reg, Next(reg, s, ClaimJob(x)), es, x)
    requires Enabled(reg, After(reg, Next(reg, s, ClaimJob(x)), es), ClaimJob(x))
    ensures s.now + s.db.activities[x].stuckTimeout <= After(reg, Next(reg, s, ClaimJob(x)), es).now
  {
    ValidStep(reg, s, ClaimJob(x));
    ActivityLeasedRuns(reg, Next(reg, s, ClaimJob(x)), es, x, s.now + s.db.activities[x].stuckTimeout);
  }

  // ---- backoff ----

  /** A rescheduled task is ready again exactly when its backoff has passed. */
  lemma TaskBackoffIff(reg: Registry, s: State, c: Id, backoff: int, message: string, names: seq<string>, later: int)
    requires RunsMatch(s) && Enabled(reg, s, RetryRun(c, backoff, message)) && s.runs[c].wf in s.db.workflows
    requires names == [] || s.db.tasks[s.runs[c].task].name in names
    ensures s.runs[c].task in ReadyTasks(Next(reg, s, RetryRun(c, backoff, message)).db, names, later)
      <==> s.now + backoff <= later
  {
    var db, x := Next(reg, s, RetryRun(c, backoff, message)).db, s.runs[c].task;
    assert RunMatches(s.db, s.runs[c]);
    ReadyTasksIff(db, names, later, x);
  }

  lemma ActivityBackoffIff(reg: Registry, s: State, c: Id, backoff: int, message: string, names: seq<string>,
                           later: int)
    requires Enabled(reg, s, RetryJob(c, backoff, message)) && s.jobs[c].activity in s.db.activities
    requires names == [] || s.db.activities[s.jobs[c].activity].name in names
    ensures s.jobs[c].activity in ReadyActivities(Next(reg, s, RetryJob(c, backoff, message)).db, names, later)
      <==> s.now + backoff <= later
  {
    ReadyActivitiesIff(Next(reg, s, RetryJob(c, backoff, message)).db, names, later, s.jobs[c].activity);
  }

  // ---- wake-ups ----

  /** The task inserted with an event is ready as soon as the event has committed. */
  lemma EventWakesAtOnce(reg: Registry, s: State, e: Step, wf: Id, names: seq<string>)
    requires Valid(s) && Enabled(reg, s, e) && Wakes(s, e, wf) && wf in s.db.workflows
    requires names == [] || s.db.workflows[wf].name in names
    ensures var t := Next(reg, s, e);
      && wf in t.log.wake && t.log.wake[wf] !in s.db.tasks && t.log.wake[wf] in t.db.tasks
      && t.db.tasks[t.log.wake[wf]].wf == wf
      && t.log.wake[wf] in ReadyTasks(t.db, names, t.now)
  {
    var t := Next(reg, s, e);
    if e.CompleteJob? {
      CompleteJobEvents(s, e.job, wf);
      assert JobMatches(s.db, s.jobs[e.job]);
    } else {
      SendSignalEvents(s, wf, e.signal, e.name, e.input, wf);
    }
    ReadyTasksIff(t.db, names, t.now, t.log.wake[wf]);
  }

  /** The first task of a workflow is ready exactly from its schedule on. */
  lemma EnqueuedReadyIff(reg: Registry, s: State, e: Step, names: seq<string>, later: int)
    requires RowIdsUsed(s.db, s.nextId) && e.Enqueue? && !HasWorkflowKey(s.db, e.key)
    requires names == [] || e.name in names
    ensures s.nextId + 1 in ReadyTasks(Next(reg, s, e).db, names, later) <==> e.options.scheduledAt <= later
  {
    ReadyTasksIff(Next(reg, s, e).db, names, later, s.nextId + 1);
  }

  // ---- tasks are cut from their workflow ----

  ghost predicate Follow(db: Tables) {
    forall x :: x in db.tasks ==> db.tasks[x].wf in db.workflows && Follows(db.tasks[x], db.workflows[db.tasks[x].wf])
  }

  predicate Follows(t: Task, w: Workflow) {
    t.name == w.name && t.priority == w.priority && t.stuckTimeout == w.stuckTimeout
  }

  lemma NewTasksFollow(reg: Registry, s: State, e: Step, x: Id)
    requires RowIdsUsed(s.db, s.nextId) && Enabled(reg, s, e) && !e.Cleanup?
    requires x in Next(reg, s, e).db.tasks && x !in s.db.tasks
    ensures var after := Next(reg, s, e).db;
      after.tasks[x].wf in after.workflows && Follows(after.tasks[x], after.workflows[after.tasks[x].wf])
  {
    if OnRun(e) {
      RunStepFrame(reg, s, e);
    }
  }

  lemma FollowStep(reg: Registry, s: State, e: Step)
    requires RowIdsUsed(s.db, s.nextId) && Follow(s.db) && Enabled(reg, s, e)
    ensures Follow(Next(reg, s, e).db)
  {
    if !e.Cleanup? {
      StepEvolves(reg, s, e);
      forall x | x in Next(reg, s, e).db.tasks
        ensures var after := Next(reg, s, e).db;
          after.tasks[x].wf in after.workflows && Follows(after.tasks[x], after.workflows[after.tasks[x].wf])
      {
        if x !in s.db.tasks {
          NewTasksFollow(reg, s, e, x);
        }
      }
    }
  }

  ghost predicate Following(s: State) {
    Valid(s) && Follow(s.db)
  }

  lemma FollowingStep(reg: Registry, s: State, e: Step)
    requires Following(s) && Enabled(reg, s, e)
    ensures Following(Next(reg, s, e))
  {
    ValidStep(reg, s, e);
    FollowStep(reg, s, e);
  }

  /** In every reachable state every task has the name, the priority and the stuck timeout of its workflow. */
  lemma TasksFollowTheirWorkflow(reg: Registry, es: seq<Step>, x: Id)
    requires Runs(reg, INIT, es) && x in After(reg, INIT, es).db.tasks
    ensures var db := After(reg, INIT, es).db; var wf := db.tasks[x].wf;
      && wf in db.workflows && db.tasks[x].name == db.workflows[wf].name
      && db.tasks[x].priority == db.workflows[wf].priority && db.tasks[x].stuckTimeout == db.workflows[wf].stuckTimeout
  {
    forall t: State, e: Step | Following(t) && Enabled(reg, t, e)
      ensures Following(Next(reg, t, e))
    {
      FollowingStep(reg, t, e);
    }
    InductionOverRuns(reg, INIT, es, s => Following(s));
  }

  // ---- completion times ----

  predicate StampedWorkflow(w: Workflow, now: int) {
    && w.createdAt <= now
    && (w.status != Active ==> w.completedAt != None && w.createdAt <= w.completedAt.value <= now)
  }

  predicate StampedTask(t: Task, now: int) {
    && (t.status == Running ==> t.runAt != None && t.runAt.value <= now)
    && (t.status == Completed || t.status == Failed ==> t.completedAt != None && t.completedAt.value <= now)
  }

  predicate StampedActivity(a: Activity, now: int) {
    && (a.status == Running ==> a.runAt != None && a.runAt.value <= now)
    && (a.status == Completed || a.status == Failed ==> a.completedAt != None && a.completedAt.value <= now)
    && (a.status == Completed ==> a.error == None) && (a.status == Failed ==> a.error != None)
  }

  ghost predicate Stamped(s: State) {
    && (forall w :: w in s.db.workflows ==> StampedWorkflow(s.db.workflows[w], s.now))
    && (forall x :: x in s.db.tasks ==> StampedTask(s.db.tasks[x], s.now))
    && (forall a :: a in s.db.activities ==> StampedActivity(s.db.activities[a], s.now))
  }

  lemma RunStamps(reg: Registry, s: State, e: Step)
    requires OnRun(e) && RunEnabled(reg, s, e) && Stamped(s)
    ensures Stamped(ApplyRun(reg, s, e))
  {
    if e.InsertStarted? {
      InsertStamps(reg, s, e.run);
    } else if Works(e) {
      WorkStamps(reg, s, e);
    } else {
      SettlementStamps(reg, s, e);
    }
  }

  lemma InsertStamps(reg: Registry, s: State, c: Id)
    requires Advancing(reg, s, c) && MustInsert(reg, s.runs[c]) && Stamped(s)
    ensures Stamped(DoInsertStarted(reg, s, c))
  {
  }

  lemma WorkStamps(reg: Registry, s: State, e: Step)
    requires Works(e) && !e.InsertStarted? && RunEnabled(reg, s, e) && Stamped(s)
    ensures Stamped(ApplyRun(reg, s, e))
  {
    WorkFrame(reg, s, e);
    if e.FinishWorkflow? {
      assert ApplyRun(reg, s, e) == DoFinishWorkflow(s, e.run);
    }
  }

  lemma SettlementStamps(reg: Registry, s: State, e: Step)
    requires OnRun(e) && !Works(e) && RunEnabled(reg, s, e) && Stamped(s)
    ensures Stamped(ApplyRun(reg, s, e))
  {
  }

  lemma JobStamps(s: State, e: Step)
    requires OnActivities(e) && JobEnabled(s, e) && Stamped(s)
    ensures Stamped(ApplyJob(s, e))
  {
  }

  lemma OthersStamp(reg: Registry, s: State, e: Step)
    requires !OnRun(e) && !OnActivities(e) && Enabled(reg, s, e) && Stamped(s)
    ensures Stamped(Apply(reg, s, e))
  {
    if e.Enqueue? {
      EnqueueStamps(s, e.key, e.name, e.input, e.options);
    }
  }

  lemma EnqueueStamps(s: State, key: string, name: string, input: Value, options: Options)
    requires Stamped(s)
    ensures Stamped(DoEnqueue(s, key, name, input, options))
  {
  }

  lemma StampedStep(reg: Registry, s: State, e: Step)
    requires Stamped(s) && Enabled(reg, s, e)
    ensures Stamped(Next(reg, s, e))
  {
    if OnRun(e) {
      RunStamps(reg, s, e);
    } else if OnActivities(e) {
      JobStamps(s, e);
    } else {
      OthersStamp(reg, s, e);
    }
  }

  /** In every reachable state a workflow that has ended, and a task or an activity that is done, says when,
      not before it began and not in the future; a completed activity has no error and a failed one has. */
  lemma EndsAreStamped(reg: Registry, es: seq<Step>)
    requires Runs(reg, INIT, es)
    ensures var s := After(reg, INIT, es);
      && (forall w :: w in s.db.workflows && s.db.workflows[w].status != Active ==>
            s.db.workflows[w].completedAt != None
            && s.db.workflows[w].createdAt <= s.db.workflows[w].completedAt.value <= s.now)
      && (forall x :: x in s.db.tasks && !Open(s.db.tasks[x].status) ==>
            s.db.tasks[x].completedAt != None && s.db.tasks[x].completedAt.value <= s.now)
      && (forall a :: a in s.db.activities && !Open(s.db.activities[a].status) ==>
            s.db.activities[a].completedAt != None && s.db.activities[a].completedAt.value <= s.now
            && (s.db.activities[a].status == Completed <==> s.db.activities[a].error == None))
  {
    forall t: State, e: Step | Stamped(t) && Enabled(reg, t, e)
      ensures Stamped(Next(reg, t, e))
    {
      StampedStep(reg, t, e);
    }
    InductionOverRuns(reg, INIT, es, s => Stamped(s));
  }
}
