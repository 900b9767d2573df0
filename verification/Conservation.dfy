/** Wake-ups are conserved: one task per workflow, per delivered signal and per completed activity. */
module Conservation {
  import opened Schema
  import opened Transactions
  import opened Replay
  import opened Engine
  import opened Integrity
  import opened Frames
  import opened Wakeup
  import opened Lease

  function TasksOf(db: Tables, wf: Id): set<Id> {
    set t | t in db.tasks && db.tasks[t].wf == wf
  }

  function SignalsOf(db: Tables, wf: Id): set<Id> {
    set g | g in db.signals && Delivered(db, wf, g)
  }

  function RecordedOf(db: Tables, wf: Id): set<Id> {
    set a | a in db.activities && Recorded(db, wf, a)
  }

  ghost predicate Tally(db: Tables, wf: Id) {
    |TasksOf(db, wf)| == 1 + |SignalsOf(db, wf)| + |RecordedOf(db, wf)|
  }

  ghost predicate Tallied(db: Tables) {
    forall wf :: wf in db.workflows ==> Tally(db, wf)
  }

  lemma EnqueueTallies(s: State, key: string, name: string, input: Value, options: Options, wf: Id)
    requires RowIdsUsed(s.db, s.nextId) && ForeignKeys(s.db) && Tallied(s.db)
    requires wf in DoEnqueue(s, key, name, input, options).db.workflows
    ensures Tally(DoEnqueue(s, key, name, input, options).db, wf)
  {
    EnqueueNoEvents(s, key, name, input, options, wf);
    if wf in s.db.workflows {
      EnqueueSpares(s, key, name, input, options, wf);
    } else {
      EnqueueStarts(s, key, name, input, options, wf);
    }
  }

  lemma EnqueueNoEvents(s: State, key: string, name: string, input: Value, options: Options, wf: Id)
    ensures var after := DoEnqueue(s, key, name, input, options).db;
      SignalsOf(after, wf) == SignalsOf(s.db, wf) && RecordedOf(after, wf) == RecordedOf(s.db, wf)
  {
  }

  lemma EnqueueSpares(s: State, key: string, name: string, input: Value, options: Options, wf: Id)
    requires RowIdsUsed(s.db, s.nextId) && wf in s.db.workflows
    ensures TasksOf(DoEnqueue(s, key, name, input, options).db, wf) == TasksOf(s.db, wf)
  {
  }

  lemma EnqueueStarts(s: State, key: string, name: string, input: Value, options: Options, wf: Id)
    requires RowIdsUsed(s.db, s.nextId) && ForeignKeys(s.db)
    requires wf !in s.db.workflows && wf in DoEnqueue(s, key, name, input, options).db.workflows
    ensures TasksOf(DoEnqueue(s, key, name, input, options).db, wf) == {s.nextId + 1}
    ensures SignalsOf(s.db, wf) == {} && RecordedOf(s.db, wf) == {}
  {
  }

  lemma SendSignalTallies(s: State, v: Id, key: Key, name: string, input: Value, wf: Id)
    requires RowIdsUsed(s.db, s.nextId) && Tally(s.db, wf)
    ensures Tally(DoSendSignal(s, v, key, name, input).db, wf)
  {
    var db, after := s.db, DoSendSignal(s, v, key, name, input).db;
    assert RecordedOf(after, wf) == RecordedOf(db, wf);
    if after != db {
      SignalRows(s, v, key, name, input, wf);
    }
  }

  lemma SignalRows(s: State, v: Id, key: Key, name: string, input: Value, wf: Id)
    requires RowIdsUsed(s.db, s.nextId) && DoSendSignal(s, v, key, name, input).db != s.db
    ensures var after := DoSendSignal(s, v, key, name, input).db;
      && TasksOf(after, wf) == TasksOf(s.db, wf) + (if v == wf then {s.nextId + 1} else {})
      && SignalsOf(after, wf) == SignalsOf(s.db, wf) + (if v == wf then {s.nextId} else {})
  {
  }

  /** Completing the latest claim records its row, which was running, and adds one task. */
  lemma CompleteJobTallies(s: State, c: Id, wf: Id)
    requires RowIdsUsed(s.db, s.nextId) && ForeignKeys(s.db) && Tally(s.db, wf)
    requires JobEnabled(s, CompleteJob(c)) && JobMatches(s.db, s.jobs[c])
    requires s.jobs[c].activity in s.db.activities ==> s.db.activities[s.jobs[c].activity].status == Running
    ensures Tally(DoCompleteJob(s, c).db, wf)
  {
    if s.jobs[c].activity in s.db.activities {
      CompletionRows(s, c, wf);
    }
  }

  lemma CompletionRows(s: State, c: Id, wf: Id)
    requires RowIdsUsed(s.db, s.nextId) && ForeignKeys(s.db) && c in s.jobs && JobMatches(s.db, s.jobs[c])
    requires JobEnabled(s, CompleteJob(c)) && s.jobs[c].activity in s.db.activities
    requires s.db.activities[s.jobs[c].activity].status == Running
    ensures var j, after := s.jobs[c], DoCompleteJob(s, c).db;
      && TasksOf(after, wf) == TasksOf(s.db, wf) + (if j.wf == wf then {s.nextId} else {})
      && RecordedOf(after, wf) == RecordedOf(s.db, wf) + (if j.wf == wf then {j.activity} else {})
      && SignalsOf(after, wf) == SignalsOf(s.db, wf)
      && j.activity !in RecordedOf(s.db, wf) && s.nextId !in TasksOf(s.db, wf)
  {
  }

  lemma TaskRowsKept(reg: Registry, s: State, e: Step)
    requires RowIdsUsed(s.db, s.nextId) && Enabled(reg, s, e) && (OnRun(e) || OnJob(e) || e.Tick?)
    ensures Apply(reg, s, e).db.tasks.Keys == s.db.tasks.Keys
    ensures forall t :: t in s.db.tasks ==> Apply(reg, s, e).db.tasks[t].wf == s.db.tasks[t].wf
  {
    StepEvolves(reg, s, e);
    if OnRun(e) {
      RunStepFrame(reg, s, e);
    } else if OnJob(e) {
      JobStepFrame(s, e);
    }
  }

  /** Tables with the same tasks and the same events have the same tally. */
  lemma SameTally(db: Tables, after: Tables, wf: Id)
    requires Tally(db, wf) && Quiet(db, after, wf) && Grows(db, after)
    requires after.tasks.Keys == db.tasks.Keys && forall t :: t in db.tasks ==> after.tasks[t].wf == db.tasks[t].wf
    ensures Tally(after, wf)
  {
    assert TasksOf(after, wf) == TasksOf(db, wf);
    assert SignalsOf(after, wf) == SignalsOf(db, wf);
    assert RecordedOf(after, wf) == RecordedOf(db, wf);
  }

  lemma QuietStep(reg: Registry, s: State, e: Step, wf: Id)
    requires Enabled(reg, s, e) && (OnRun(e) || OnJob(e) || e.Tick?)
    ensures Quiet(s.db, Apply(reg, s, e).db, wf)
  {
    if OnRun(e) {
      RunStepEvents(reg, s, e, wf);
    } else if OnJob(e) {
      JobStepEvents(reg, s, e, wf);
    }
  }

  lemma OthersTally(reg: Registry, s: State, e: Step, wf: Id)
    requires RowIdsUsed(s.db, s.nextId) && LatestRunning(s) && Enabled(reg, s, e) && Leased(s, e)
    requires (OnRun(e) || OnJob(e) || e.Tick?) && Tally(s.db, wf)
    ensures Tally(Next(reg, s, e).db, wf)
  {
    var after := Next(reg, s, e).db;
    assert after == Apply(reg, s, e).db;
    TaskRowsKept(reg, s, e);
    GrowsStep(reg, s, e);
    QuietStep(reg, s, e, wf);
    SameTally(s.db, after, wf);
  }

  lemma CleanupTallies(db: Tables, ids: set<Id>, wf: Id)
    requires Tally(db, wf) && wf !in ids
    ensures Tally(DeleteWorkflows(db, ids), wf)
  {
    var after := DeleteWorkflows(db, ids);
    assert TasksOf(after, wf) == TasksOf(db, wf);
    assert SignalsOf(after, wf) == SignalsOf(db, wf);
    assert RecordedOf(after, wf) == RecordedOf(db, wf);
  }

  lemma OnlyEnqueueAddsWorkflows(reg: Registry, s: State, e: Step)
    requires Enabled(reg, s, e) && !e.Enqueue?
    ensures Next(reg, s, e).db.workflows.Keys <= s.db.workflows.Keys
  {
    if OnRun(e) {
      RunStepFrame(reg, s, e);
    } else if OnActivities(e) {
      JobStepFrame(s, e);
    }
  }

  lemma TallyStep(reg: Registry, s: State, e: Step, wf: Id)
    requires RowIdsUsed(s.db, s.nextId) && ForeignKeys(s.db) && JobsMatch(s) && LatestRunning(s) && Tallied(s.db)
    requires Enabled(reg, s, e) && Leased(s, e)
    requires wf in Next(reg, s, e).db.workflows
    ensures Tally(Next(reg, s, e).db, wf)
  {
    if e.Enqueue? {
      EnqueueTallies(s, e.key, e.name, e.input, e.options, wf);
    } else {
      OnlyEnqueueAddsWorkflows(reg, s, e);
      assert Tally(s.db, wf);
      if e.SendSignal? {
        SendSignalTallies(s, e.wf, e.signal, e.name, e.input, wf);
      } else if e.CompleteJob? {
        assert JobMatches(s.db, s.jobs[e.job]);
        if s.jobs[e.job].activity in s.db.activities {
          LatestIsRunning(s, e.job);
        }
        CompleteJobTallies(s, e.job, wf);
      } else if e.Cleanup? {
        CleanupTallies(s.db, e.ids, wf);
      } else {
        OthersTally(reg, s, e, wf);
      }
    }
  }

  ghost predicate Conserving(s: State) {
    Valid(s) && LatestRunning(s) && Tallied(s.db)
  }

  lemma InitConserves()
    ensures Conserving(INIT)
  {
  }

  lemma ConservingStep(reg: Registry, s: State, e: Step)
    requires Conserving(s) && Enabled(reg, s, e) && Leased(s, e)
    ensures Conserving(Next(reg, s, e))
  {
    ValidStep(reg, s, e);
    LatestRunningStep(reg, s, e);
    forall v | v in Next(reg, s, e).db.workflows
      ensures Tally(Next(reg, s, e).db, v)
    {
      TallyStep(reg, s, e, v);
    }
  }

  /** Under lease discipline every existing workflow has 1 + signals + completed activities task rows,
      across duplicate enqueues, duplicate signals, retries, crashes and rollbacks. */
  lemma WakeupsConserved(reg: Registry, es: seq<Step>, wf: Id)
    requires LeasedRuns(reg, INIT, es) && Runs(reg, INIT, es) && wf in After(reg, INIT, es).db.workflows
    ensures var db := After(reg, INIT, es).db;
      |TasksOf(db, wf)| == 1 + |SignalsOf(db, wf)| + |RecordedOf(db, wf)|
  {
    forall t: State, e: Step | Conserving(t) && Enabled(reg, t, e) && Leased(t, e)
      ensures Conserving(Next(reg, t, e))
    {
      ConservingStep(reg, t, e);
    }
    InitConserves();
    InductionOverLeasedRuns(reg, INIT, es, s => Conserving(s));
  }
}
