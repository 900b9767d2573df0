/** No lost wake-up: a running workflow always has an open task, or its handler waits for something that is coming. */
module Wakeup {
  import opened Schema
  import opened Transactions
  import opened Replay
  import opened Engine
  import opened Integrity
  import opened Frames
  import opened RunInvariants

  // ---- events ----

  /** The step commits an event of wf: a completed activity or a delivered signal. */
  ghost predicate Wakes(s: State, e: Step, wf: Id) {
    || (e.CompleteJob? && e.job in s.jobs && s.jobs[e.job].wf == wf && s.jobs[e.job].activity in s.db.activities)
    || (e.SendSignal? && e.wf == wf && !HasSignalKey(s.db, e.signal))
  }

  /** No event of wf was added or changed; some may have been taken back. */
  ghost predicate Quiet(db: Tables, after: Tables, wf: Id) {
    && (forall a :: Recorded(after, wf, a) ==>
          && Recorded(db, wf, a)
          && db.activities[a].key == after.activities[a].key
          && db.activities[a].output == after.activities[a].output)
    && (forall g :: Delivered(after, wf, g) ==> Delivered(db, wf, g) && db.signals[g] == after.signals[g])
  }

  lemma QuietShrinks(db: Tables, after: Tables, wf: Id)
    requires Consistent(db) && Consistent(after) && Quiet(db, after, wf)
    ensures Within(History(after, wf), History(db, wf)) && Within(Signals(after, wf), Signals(db, wf))
  {
    forall k | k in History(after, wf)
      ensures k in History(db, wf) && History(db, wf)[k] == History(after, wf)[k]
    {
      var a := HistoryIsRecorded(after, wf, k);
      RecordedInHistory(db, wf, a);
    }
    forall k | k in Signals(after, wf)
      ensures k in Signals(db, wf) && Signals(db, wf)[k] == Signals(after, wf)[k]
    {
      var g := SignalIsDelivered(after, wf, k);
      DeliveredInSignals(db, wf, g);
    }
  }

  ghost predicate FreshTask(s: State, t: State, wf: Id) {
    && wf in t.log.wake && t.log.wake[wf] !in s.db.tasks && t.log.wake[wf] >= s.nextId
    && t.log.wake[wf] in t.db.tasks
    && t.db.tasks[t.log.wake[wf]].wf == wf && t.db.tasks[t.log.wake[wf]].status == Pending
  }

  predicate SameWake(s: State, t: State, wf: Id) {
    (wf in s.log.wake <==> wf in t.log.wake) && (wf in s.log.wake ==> s.log.wake[wf] == t.log.wake[wf])
  }

  lemma CompleteJobEvents(s: State, c: Id, wf: Id)
    requires RowIdsUsed(s.db, s.nextId) && JobsMatch(s) && Enabled(map[], s, CompleteJob(c)) && wf in s.db.workflows
    ensures DoCompleteJob(s, c).db.workflows == s.db.workflows
    ensures var t := DoCompleteJob(s, c);
            if Wakes(s, CompleteJob(c), wf) then FreshTask(s, t, wf) else Quiet(s.db, t.db, wf) && SameWake(s, t, wf)
  {
    assert JobMatches(s.db, s.jobs[c]);
  }

  lemma SendSignalEvents(s: State, wf: Id, key: Key, name: string, input: Value, v: Id)
    requires RowIdsUsed(s.db, s.nextId) && v in s.db.workflows
    ensures var t := DoSendSignal(s, wf, key, name, input);
            if Wakes(s, SendSignal(wf, key, name, input), v) then FreshTask(s, t, v)
              else Quiet(s.db, t.db, v) && SameWake(s, t, v)
  {
  }

  lemma EnqueueEvents(s: State, key: string, name: string, input: Value, options: Options, wf: Id)
    requires RowIdsUsed(s.db, s.nextId)
    ensures var t := DoEnqueue(s, key, name, input, options);
            if wf in s.db.workflows then Quiet(s.db, t.db, wf) && SameWake(s, t, wf)
            else wf in t.db.workflows ==> FreshTask(s, t, wf)
  {
    assert Quiet(s.db, DoEnqueue(s, key, name, input, options).db, wf);
  }

  lemma JobEvents(s: State, t: State, wf: Id)
    requires t.db.signals == s.db.signals && t.log.wake == s.log.wake
    requires forall a :: a in t.db.activities && t.db.activities[a].status == Completed ==>
      a in s.db.activities && s.db.activities[a] == t.db.activities[a]
    ensures Quiet(s.db, t.db, wf) && SameWake(s, t, wf)
  {
  }

  lemma RunStepEvents(reg: Registry, s: State, e: Step, wf: Id)
    requires Enabled(reg, s, e) && OnRun(e)
    ensures Quiet(s.db, Apply(reg, s, e).db, wf) && SameWake(s, Apply(reg, s, e), wf)
    ensures Apply(reg, s, e).db.workflows.Keys == s.db.workflows.Keys
  {
    JobEvents(s, Apply(reg, s, e), wf);
  }

  /** Job steps other than a completion take events back at most. */
  lemma JobStepEvents(reg: Registry, s: State, e: Step, wf: Id)
    requires Enabled(reg, s, e) && OnJob(e)
    ensures Quiet(s.db, Apply(reg, s, e).db, wf) && SameWake(s, Apply(reg, s, e), wf)
    ensures Apply(reg, s, e).db.workflows.Keys == s.db.workflows.Keys
  {
    JobEvents(s, Apply(reg, s, e), wf);
  }

  // ---- parked workflows ----

  /** Replaying on the current tables suspends, with a row behind every activity it inserts on the way. */
  ghost predicate ParkedAt(db: Tables, wf: Id, h: Script, tr: seq<Answer>) {
    Attempt(h, History(db, wf), Signals(db, wf), tr) && h(tr) == Suspend && AllInserted(db, wf, h, tr)
  }

  ghost predicate Parked(reg: Registry, db: Tables, wf: Id)
    requires wf in db.workflows
  {
    db.workflows[wf].name in reg &&
    exists tr :: ParkedAt(db, wf, ScriptOf(reg, db.workflows[wf].name, wf, db.workflows[wf].input), tr)
  }

  ghost predicate PropagatesIn(reg: Registry, db: Tables, wf: Id)
    requires wf in db.workflows
  {
    db.workflows[wf].name in reg ==> Propagates(ScriptOf(reg, db.workflows[wf].name, wf, db.workflows[wf].input))
  }

  /** A replay that suspended on at least the current events shows that the current tables suspend. */
  lemma ShrunkParks(db: Tables, wf: Id, h: Script, history: Events, signals: Events, tr: seq<Answer>)
    requires Propagates(h)
    requires Within(History(db, wf), history) && Within(Signals(db, wf), signals)
    requires Attempt(h, history, signals, tr) && h(tr) == Suspend && AllInserted(db, wf, h, tr)
    ensures exists again :: ParkedAt(db, wf, h, again)
  {
    var again := ShrunkStillSuspends(h, History(db, wf), Signals(db, wf), history, signals, tr);
    forall k | Inserts(h, again, k)
      ensures HasRow(db, wf, k)
    {
      var i :| 0 <= i < |again| && again[i] == Scheduled && StartedAt(h, again, i, k);
      assert again[..i] == again[..|again| - 1][..i] == tr[..|again| - 1][..i] == tr[..i];
      assert again[i] == again[..|again| - 1][i] == tr[i];
      assert StartedAt(h, tr, i, k);
    }
    assert ParkedAt(db, wf, h, again);
  }

  lemma StaysParked(reg: Registry, s: State, t: State, wf: Id)
    requires Valid(s) && Evolves(s, t) && Consistent(t.db)
    requires wf in s.db.workflows && PropagatesIn(reg, s.db, wf)
    requires Quiet(s.db, t.db, wf) && Parked(reg, s.db, wf)
    ensures Parked(reg, t.db, wf)
  {
    var h := ScriptOf(reg, s.db.workflows[wf].name, wf, s.db.workflows[wf].input);
    var tr :| ParkedAt(s.db, wf, h, tr);
    QuietShrinks(s.db, t.db, wf);
    forall k | HasRow(s.db, wf, k)
      ensures HasRow(t.db, wf, k)
    {
      RowPersists(s.db, t.db, s.nextId, wf, k);
    }
    ShrunkParks(t.db, wf, h, History(s.db, wf), Signals(s.db, wf), tr);
  }

  // ---- the invariant ----

  /** A claim on the task of the latest event loads after that event, so it has seen every event there is. */
  ghost predicate SeesAll(s: State, r: Run) {
    r.wf in s.db.workflows && r.wf in s.log.wake && r.task == s.log.wake[r.wf] ==>
      && (r.history.Some? ==> Within(History(s.db, r.wf), r.history.value))
      && (r.signals.Some? ==> Within(Signals(s.db, r.wf), r.signals.value))
  }

  ghost predicate Awake(reg: Registry, s: State, wf: Id)
    requires wf in s.db.workflows
  {
    && wf in s.log.wake && s.log.wake[wf] in s.db.tasks && s.db.tasks[s.log.wake[wf]].wf == wf
    && (s.db.workflows[wf].status == Active && PropagatesIn(reg, s.db, wf) ==>
          Open(s.db.tasks[s.log.wake[wf]].status) || Parked(reg, s.db, wf))
  }

  ghost predicate NoneLost(reg: Registry, s: State) {
    && (forall c :: c in s.runs ==> SeesAll(s, s.runs[c]))
    && (forall wf :: wf in s.db.workflows ==> Awake(reg, s, wf))
  }

  /** A quiet step keeps what a run has seen ahead of the tables. */
  lemma KeepsSeeing(s: State, t: State, r: Run)
    requires Consistent(s.db) && Consistent(t.db) && SeesAll(s, r)
    requires r.wf in t.db.workflows ==> r.wf in s.db.workflows
    requires r.wf in t.db.workflows ==>
      (Quiet(s.db, t.db, r.wf) && SameWake(s, t, r.wf)) || (FreshTask(s, t, r.wf) && r.task < s.nextId)
    ensures SeesAll(t, r)
  {
    if r.wf in t.db.workflows && Quiet(s.db, t.db, r.wf) {
      QuietShrinks(s.db, t.db, r.wf);
    }
  }

  /** The step either is quiet for wf, or inserts a fresh pending task for it. */
  ghost predicate EventFrame(s: State, t: State, wf: Id) {
    if wf in s.db.workflows
    then (Quiet(s.db, t.db, wf) && SameWake(s, t, wf)) || FreshTask(s, t, wf)
    else wf in t.db.workflows ==> FreshTask(s, t, wf)
  }

  lemma Events(reg: Registry, s: State, e: Step, wf: Id)
    requires RowIdsUsed(s.db, s.nextId) && JobsMatch(s) && Enabled(reg, s, e) && !e.Cleanup?
    ensures EventFrame(s, Apply(reg, s, e), wf)
  {
    if OnRun(e) {
      RunStepEvents(reg, s, e, wf);
    } else if OnJob(e) {
      JobStepEvents(reg, s, e, wf);
    } else {
      OtherEvents(reg, s, e, wf);
    }
  }

  lemma OtherEvents(reg: Registry, s: State, e: Step, wf: Id)
    requires RowIdsUsed(s.db, s.nextId) && JobsMatch(s) && Enabled(reg, s, e) && !OnRun(e) && !OnJob(e) && !e.Cleanup?
    ensures EventFrame(s, Apply(reg, s, e), wf)
  {
    match e
    case Enqueue(key, name, input, options) => EnqueueEvents(s, key, name, input, options, wf);
    case SendSignal(v, key, name, input) => if wf in s.db.workflows { SendSignalEvents(s, v, key, name, input, wf); }
    case CompleteJob(c) => if wf in s.db.workflows { CompleteJobEvents(s, c, wf); }
    case Tick(_) =>
  }

  /** Only the settlements of a claim on it close a task. */
  lemma TaskStaysOpen(reg: Registry, s: State, e: Step, t: Id)
    requires Enabled(reg, s, e) && !e.Cleanup? && RowIdsUsed(s.db, s.nextId)
    requires t in s.db.tasks && Open(s.db.tasks[t].status)
    requires !((e.CompleteRun? || e.FailRun?) && s.runs[e.run].task == t)
    ensures t in Apply(reg, s, e).db.tasks && Open(Apply(reg, s, e).db.tasks[t].status)
  {
    if SettlesRun(e) {
      SettlementKeepsOpen(reg, s, e, t);
    } else if OnRun(e) {
      RunStepFrame(reg, s, e);
    } else if OnActivities(e) {
      JobStepFrame(s, e);
    } else {
      OtherStepFrame(reg, s, e);
    }
  }

  lemma SettlementKeepsOpen(reg: Registry, s: State, e: Step, t: Id)
    requires SettlesRun(e) && RunEnabled(reg, s, e) && t in s.db.tasks && Open(s.db.tasks[t].status)
    requires !e.RetryRun? ==> s.runs[e.run].task != t
    ensures t in ApplyRun(reg, s, e).db.tasks && Open(ApplyRun(reg, s, e).db.tasks[t].status)
  {
  }

  /** Completing the claim on the latest event's task leaves a running workflow parked. */
  lemma CompletingParks(reg: Registry, s: State, c: Id)
    requires Valid(s) && RunsSound(reg, s) && NoneLost(reg, s) && Enabled(reg, s, CompleteRun(c))
    requires var wf := s.runs[c].wf;
      && wf in s.db.workflows && s.db.workflows[wf].status == Active && PropagatesIn(reg, s.db, wf)
      && s.runs[c].task == s.log.wake[wf]
    ensures Parked(reg, s.db, s.runs[c].wf)
  {
    var r := s.runs[c];
    assert Sound(reg, s.db, r) && RunMatches(s.db, r) && SeesAll(s, r) && Awake(reg, s, r.wf);
    ShrunkParks(s.db, r.wf, HandlerOf(reg, r), r.history.value, r.signals.value, r.answers);
  }

  lemma SeesAllStep(reg: Registry, s: State, e: Step, c: Id)
    requires Valid(s) && NoneLost(reg, s) && Enabled(reg, s, e) && !e.Cleanup?
    requires c in Apply(reg, s, e).runs
    ensures SeesAll(Apply(reg, s, e), Apply(reg, s, e).runs[c])
  {
    if c in s.runs {
      KeptRunSees(reg, s, e, c);
    } else {
      NewRunHasSeenNothing(reg, s, e, c);
    }
  }

  lemma KeptRunSees(reg: Registry, s: State, e: Step, c: Id)
    requires Valid(s) && Enabled(reg, s, e) && !e.Cleanup?
    requires c in s.runs && c in Apply(reg, s, e).runs && SeesAll(s, s.runs[c])
    ensures SeesAll(Apply(reg, s, e), Apply(reg, s, e).runs[c])
  {
    var t, r := Apply(reg, s, e), s.runs[c];
    WorkflowsPersist(reg, s, e);
    Events(reg, s, e, r.wf);
    ConsistentStep(reg, s, e);
    KeepsSeeing(s, t, r);
    RunSnapshots(reg, s, e, c);
    SeenOrTaken(t, r, t.runs[c]);
  }

  /** Snapshots just taken show all the events there are. */
  lemma SeenOrTaken(t: State, r: Run, q: Run)
    requires SeesAll(t, r) && RunKept(r, q)
    requires q.history == r.history || q.history == Some(History(t.db, r.wf))
    requires q.signals == r.signals || q.signals == Some(Signals(t.db, r.wf))
    ensures SeesAll(t, q)
  {
  }

  lemma ConsistentStep(reg: Registry, s: State, e: Step)
    requires Valid(s) && Enabled(reg, s, e)
    ensures Consistent(Apply(reg, s, e).db)
  {
    ValidStep(reg, s, e);
  }

  /** A workflow that is not new was there before. */
  lemma WorkflowsPersist(reg: Registry, s: State, e: Step)
    requires RowIdsUsed(s.db, s.nextId) && Enabled(reg, s, e) && !e.Cleanup?
    ensures forall w :: w in s.db.workflows ==>
      w in Apply(reg, s, e).db.workflows && WorkflowKept(s.db.workflows[w], Apply(reg, s, e).db.workflows[w])
    ensures forall w :: w in Apply(reg, s, e).db.workflows && w < s.nextId ==> w in s.db.workflows
  {
    StepEvolves(reg, s, e);
  }

  lemma AwakeStep(reg: Registry, s: State, e: Step, wf: Id)
    requires Valid(s) && OwnKeys(reg) && RunsSound(reg, s) && NoneLost(reg, s) && Enabled(reg, s, e) && !e.Cleanup?
    requires wf in Apply(reg, s, e).db.workflows
    ensures Awake(reg, Apply(reg, s, e), wf)
  {
    var t := Apply(reg, s, e);
    Events(reg, s, e, wf);
    if !FreshTask(s, t, wf) {
      WorkflowsPersist(reg, s, e);
      TaskPersists(reg, s, e, s.log.wake[wf]);
      if t.db.workflows[wf].status == Active && PropagatesIn(reg, t.db, wf) {
        assert s.db.workflows[wf].status == Active && PropagatesIn(reg, s.db, wf);
        StaysAwake(reg, s, e, wf);
      }
    }
  }

  lemma TaskPersists(reg: Registry, s: State, e: Step, task: Id)
    requires RowIdsUsed(s.db, s.nextId) && Enabled(reg, s, e) && !e.Cleanup? && task in s.db.tasks
    ensures task in Apply(reg, s, e).db.tasks && Apply(reg, s, e).db.tasks[task].wf == s.db.tasks[task].wf
  {
    StepEvolves(reg, s, e);
  }

  /** In a quiet step the latest task stays open or the workflow is parked. */
  lemma StaysAwake(reg: Registry, s: State, e: Step, wf: Id)
    requires Valid(s) && RunsSound(reg, s) && NoneLost(reg, s) && Enabled(reg, s, e) && !e.Cleanup?
    requires wf in s.db.workflows && Awake(reg, s, wf) && s.db.workflows[wf].status == Active
    requires PropagatesIn(reg, s.db, wf)
    requires var t := Apply(reg, s, e);
      Quiet(s.db, t.db, wf) && wf in t.db.workflows && t.db.workflows[wf].status == Active
    ensures var t, task := Apply(reg, s, e), s.log.wake[wf];
      (task in t.db.tasks && Open(t.db.tasks[task].status)) || Parked(reg, t.db, wf)
  {
    var task := s.log.wake[wf];
    if !Parked(reg, s.db, wf) && (e.CompleteRun? || e.FailRun?) && s.runs[e.run].task == task {
      assert RunMatches(s.db, s.runs[e.run]);
      LastTaskSettled(reg, s, e, wf);
    }
    if Parked(reg, s.db, wf) {
      StepEvolves(reg, s, e);
      ConsistentStep(reg, s, e);
      StaysParked(reg, s, Apply(reg, s, e), wf);
    } else {
      TaskStaysOpen(reg, s, e, task);
    }
  }

  /** Settling the claim on the latest task completes it, as failing it would end the workflow, and completing it
      parks. */
  lemma LastTaskSettled(reg: Registry, s: State, e: Step, wf: Id)
    requires Valid(s) && RunsSound(reg, s) && NoneLost(reg, s) && Enabled(reg, s, e) && (e.CompleteRun? || e.FailRun?)
    requires wf in s.db.workflows && wf in s.log.wake && s.runs[e.run].task == s.log.wake[wf] && s.runs[e.run].wf == wf
    requires s.db.workflows[wf].status == Active && PropagatesIn(reg, s.db, wf)
    requires wf in Apply(reg, s, e).db.workflows && Apply(reg, s, e).db.workflows[wf].status == Active
    ensures Parked(reg, s.db, wf)
  {
    assert RunMatches(s.db, s.runs[e.run]);
    if e.CompleteRun? {
      CompletingParks(reg, s, e.run);
    }
  }

  lemma NoneLostStep(reg: Registry, s: State, e: Step)
    requires Valid(s) && OwnKeys(reg) && RunsSound(reg, s) && NoneLost(reg, s) && Enabled(reg, s, e)
    ensures NoneLost(reg, Next(reg, s, e))
  {
    if e.Cleanup? {
      CleanupLosesNone(reg, s, e.ids);
    } else {
      forall c | c in Next(reg, s, e).runs
        ensures SeesAll(Next(reg, s, e), Next(reg, s, e).runs[c])
      {
        SeesAllStep(reg, s, e, c);
      }
      forall wf | wf in Next(reg, s, e).db.workflows
        ensures Awake(reg, Next(reg, s, e), wf)
      {
        AwakeStep(reg, s, e, wf);
      }
    }
  }

  /** Cleanup removes whole workflows and leaves the events of the others alone. */
  lemma CleanupKeepsEvents(s: State, ids: set<Id>, wf: Id)
    requires Valid(s) && wf !in ids
    ensures History(DeleteWorkflows(s.db, ids), wf) == History(s.db, wf)
    ensures Signals(DeleteWorkflows(s.db, ids), wf) == Signals(s.db, wf)
  {
    var after := DeleteWorkflows(s.db, ids);
    CleanupKeepsValid(s, ids);
    QuietShrinks(s.db, after, wf);
    QuietShrinks(after, s.db, wf);
    SameEvents(History(after, wf), History(s.db, wf));
    SameEvents(Signals(after, wf), Signals(s.db, wf));
  }

  lemma CleanupLosesNone(reg: Registry, s: State, ids: set<Id>)
    requires Valid(s) && NoneLost(reg, s)
    ensures NoneLost(reg, s.(db := DeleteWorkflows(s.db, ids), nextId := s.nextId + 2))
  {
    var t := s.(db := DeleteWorkflows(s.db, ids), nextId := s.nextId + 2);
    forall c | c in t.runs
      ensures SeesAll(t, t.runs[c])
    {
      var r := s.runs[c];
      assert SeesAll(s, r);
      if r.wf !in ids {
        CleanupKeepsEvents(s, ids, r.wf);
      }
    }
    forall wf | wf in t.db.workflows
      ensures Awake(reg, t, wf)
    {
      assert Awake(reg, s, wf);
      CleanupKeepsEvents(s, ids, wf);
      if Parked(reg, s.db, wf) {
        var tr :| ParkedAt(s.db, wf, ScriptOf(reg, s.db.workflows[wf].name, wf, s.db.workflows[wf].input), tr);
        forall k | HasRow(s.db, wf, k)
          ensures HasRow(t.db, wf, k)
        {
          RowSurvivesCleanup(s.db, ids, wf, k);
        }
        assert ParkedAt(t.db, wf, ScriptOf(reg, s.db.workflows[wf].name, wf, s.db.workflows[wf].input), tr);
      }
    }
  }

  // ---- the theorem ----

  /** A failed activity has failed its workflow in the same transaction, for good. */
  ghost predicate FailedIsDead(db: Tables) {
    forall a :: a in db.activities && db.activities[a].status == Failed && db.activities[a].wf in db.workflows ==>
      db.workflows[db.activities[a].wf].status != Active
  }

  lemma OnlyFailJobFails(reg: Registry, s: State, e: Step, a: Id)
    requires Enabled(reg, s, e) && !e.Cleanup? && RowIdsUsed(s.db, s.nextId)
    requires a in Apply(reg, s, e).db.activities && Apply(reg, s, e).db.activities[a].status == Failed
    ensures || (a in s.db.activities && s.db.activities[a].status == Failed)
            || (e.FailJob? && s.jobs[e.job].activity == a && s.jobs[e.job].wf in s.db.workflows)
  {
    if OnActivities(e) {
      JobsFail(s, e, a);
    } else {
      ActivitiesUntouched(reg, s, e);
    }
  }

  lemma JobsFail(s: State, e: Step, a: Id)
    requires OnActivities(e) && JobEnabled(s, e)
    requires a in ApplyJob(s, e).db.activities && ApplyJob(s, e).db.activities[a].status == Failed
    ensures || (a in s.db.activities && s.db.activities[a].status == Failed)
            || (e.FailJob? && s.jobs[e.job].activity == a && s.jobs[e.job].wf in s.db.workflows)
  {
  }

  lemma FailedIsDeadStep(reg: Registry, s: State, e: Step)
    requires Valid(s) && FailedIsDead(s.db) && Enabled(reg, s, e)
    ensures FailedIsDead(Next(reg, s, e).db)
  {
    if !e.Cleanup? {
      var t := Apply(reg, s, e);
      forall a | a in t.db.activities && t.db.activities[a].status == Failed && t.db.activities[a].wf in t.db.workflows
        ensures t.db.workflows[t.db.activities[a].wf].status != Active
      {
        OnlyFailJobFails(reg, s, e, a);
        if a in s.db.activities && s.db.activities[a].status == Failed {
          StaysDead(reg, s, e, a);
        } else {
          FailJobKills(s, e.job, e.message);
        }
      }
    }
  }

  lemma StaysDead(reg: Registry, s: State, e: Step, a: Id)
    requires RowIdsUsed(s.db, s.nextId) && ForeignKeys(s.db) && Enabled(reg, s, e) && !e.Cleanup?
    requires a in s.db.activities
    requires s.db.workflows[s.db.activities[a].wf].status != Active
    ensures var after := Apply(reg, s, e).db;
      a in after.activities && after.activities[a].wf in after.workflows
        && after.workflows[after.activities[a].wf].status != Active
  {
    RowKeepsOwner(reg, s, e, a);
    WorkflowsPersist(reg, s, e);
    assert Apply(reg, s, e).db.activities[a].wf == s.db.activities[a].wf;
  }

  lemma FailJobKills(s: State, c: Id, message: string)
    requires JobsMatch(s) && c in s.jobs && s.jobs[c].activity in s.db.activities && s.jobs[c].wf in s.db.workflows
    ensures var after := DoFailJob(s, c, message).db; var a := s.jobs[c].activity;
      a in after.activities && after.activities[a].wf in after.workflows
        && after.workflows[after.activities[a].wf].status == Dead
  {
    assert JobMatches(s.db, s.jobs[c]);
  }

  lemma RowKeepsOwner(reg: Registry, s: State, e: Step, a: Id)
    requires RowIdsUsed(s.db, s.nextId) && Enabled(reg, s, e) && !e.Cleanup? && a in s.db.activities
    ensures a in Apply(reg, s, e).db.activities && ActivityKept(s.db.activities[a], Apply(reg, s, e).db.activities[a])
  {
    StepEvolves(reg, s, e);
  }

  ghost predicate Sane(reg: Registry, s: State) {
    Valid(s) && RunsSound(reg, s) && NoneLost(reg, s) && FailedIsDead(s.db)
  }

  lemma SaneStep(reg: Registry, s: State, e: Step)
    requires OwnKeys(reg) && Sane(reg, s) && Enabled(reg, s, e)
    ensures Sane(reg, Next(reg, s, e))
  {
    ValidStep(reg, s, e);
    RunsSoundStep(reg, s, e);
    NoneLostStep(reg, s, e);
    FailedIsDeadStep(reg, s, e);
  }

  lemma AlwaysSane(reg: Registry, es: seq<Step>)
    requires OwnKeys(reg) && Runs(reg, INIT, es)
    ensures Sane(reg, After(reg, INIT, es))
  {
    forall t: State, e: Step | Sane(reg, t) && Enabled(reg, t, e)
      ensures Sane(reg, Next(reg, t, e))
    {
      SaneStep(reg, t, e);
    }
    InductionOverRuns(reg, INIT, es, s => Sane(reg, s));
  }

  ghost predicate HasOpenTask(db: Tables, wf: Id) {
    exists t :: t in db.tasks && db.tasks[t].wf == wf && Open(db.tasks[t].status)
  }

  ghost predicate HasOpenActivity(db: Tables, wf: Id, k: Key) {
    exists a :: a in db.activities && db.activities[a].wf == wf && db.activities[a].key == k
      && Open(db.activities[a].status)
  }

  /** The request is for an activity that is on its way, or for a signal that was never delivered. */
  ghost predicate Coming(db: Tables, wf: Id, r: Request) {
    match r
    case Get(k) => HasOpenActivity(db, wf, k)
    case Receive(k) => forall g :: Delivered(db, wf, g) ==> db.signals[g].key != k
    case _ => false
  }

  /** Replaying on the current tables suspends on something that is coming. */
  ghost predicate Waits(db: Tables, wf: Id, h: Script, tr: seq<Answer>) {
    && Trace(h, History(db, wf), Signals(db, wf), tr) && h(tr) == Suspend && tr != []
    && Coming(db, wf, h(tr[..|tr| - 1]))
  }

  /** The replay suspends on an activity that has no row: all its inserts were refused and the handler went on. */
  ghost predicate Stranded(db: Tables, wf: Id, h: Script, tr: seq<Answer>) {
    && Attempt(h, History(db, wf), Signals(db, wf), tr) && h(tr) == Suspend && tr != []
    && h(tr[..|tr| - 1]).Get?
    && var k := h(tr[..|tr| - 1]).key;
       !HasRow(db, wf, k) && Starts(h, tr, k) && !Inserts(h, tr, k)
  }

  /** The same as Waits when some inserts on the way may have been refused. */
  ghost predicate Sleeps(db: Tables, wf: Id, h: Script, tr: seq<Answer>) {
    && Attempt(h, History(db, wf), Signals(db, wf), tr) && h(tr) == Suspend && tr != []
    && Coming(db, wf, h(tr[..|tr| - 1]))
  }

  /** A row that is not in history, of a workflow that runs, is open. */
  lemma UnrecordedIsOpen(db: Tables, wf: Id, k: Key)
    requires Consistent(db) && FailedIsDead(db) && wf in db.workflows && db.workflows[wf].status == Active
    requires k !in History(db, wf)
    ensures HasRow(db, wf, k) <==> HasOpenActivity(db, wf, k)
  {
    if HasRow(db, wf, k) {
      var a :| a in db.activities && db.activities[a].key == k && db.activities[a].wf == wf;
      if db.activities[a].status == Completed {
        RecordedInHistory(db, wf, a);
      }
      assert Open(db.activities[a].status);
    }
  }

  /** A parked workflow sleeps for a reason, unless it is stranded. */
  lemma ParkedSleeps(db: Tables, wf: Id, h: Script, tr: seq<Answer>)
    requires Consistent(db) && FailedIsDead(db) && wf in db.workflows && db.workflows[wf].status == Active
    requires Propagates(h) && FuturesStarted(h) && ParkedAt(db, wf, h, tr)
    ensures Sleeps(db, wf, h, tr) || Stranded(db, wf, h, tr)
  {
    AttemptIsPath(h, History(db, wf), Signals(db, wf), tr);
    var n := |tr| - 1;
    assert AttemptedAt(h, History(db, wf), Signals(db, wf), tr, n);
    PathPrefix(h, tr, n);
    var r := h(tr[..n]);
    if r.Get? {
      assert Starts(h, tr[..n], r.key);
      StartsGrow(h, tr, n, r.key);
      UnrecordedIsOpen(db, wf, r.key);
    } else {
      forall g | Delivered(db, wf, g)
        ensures db.signals[g].key != r.key
      {
        DeliveredInSignals(db, wf, g);
      }
    }
  }

  /** Under await style a suspended replay has been refused nothing, so it waits. */
  lemma ParkedWaits(db: Tables, wf: Id, h: Script, tr: seq<Answer>)
    requires Consistent(db) && FailedIsDead(db) && wf in db.workflows && db.workflows[wf].status == Active
    requires Awaits(h) && FuturesStarted(h) && ParkedAt(db, wf, h, tr)
    ensures Waits(db, wf, h, tr)
  {
    ParkedSleeps(db, wf, h, tr);
    UnraisedIsTrace(h, History(db, wf), Signals(db, wf), tr);
    TraceIsAttempt(h, History(db, wf), Signals(db, wf), tr);
    if h(tr[..|tr| - 1]).Get? {
      InsertsStarts(h, tr, h(tr[..|tr| - 1]).key);
    }
  }

  /** In every reachable state, a running workflow with an await-style handler has an open task, or its
      handler waits for an activity that is pending or running or for a signal that has not come. */
  lemma NoLostWakeup(reg: Registry, es: seq<Step>, wf: Id)
    requires OwnKeys(reg) && Runs(reg, INIT, es)
    requires var db := After(reg, INIT, es).db;
      && wf in db.workflows && db.workflows[wf].status == Active
      && var name, input := db.workflows[wf].name, db.workflows[wf].input;
         name in reg ==> Awaits(ScriptOf(reg, name, wf, input)) && FuturesStarted(ScriptOf(reg, name, wf, input))
    ensures var db := After(reg, INIT, es).db;
      || HasOpenTask(db, wf)
      || (db.workflows[wf].name in reg &&
          exists tr :: Waits(db, wf, ScriptOf(reg, db.workflows[wf].name, wf, db.workflows[wf].input), tr))
  {
    AlwaysSane(reg, es);
    var s := After(reg, INIT, es);
    assert Awake(reg, s, wf);
    if Parked(reg, s.db, wf) {
      var h := ScriptOf(reg, s.db.workflows[wf].name, wf, s.db.workflows[wf].input);
      var tr :| ParkedAt(s.db, wf, h, tr);
      ParkedWaits(s.db, wf, h, tr);
    }
  }

  /** Handlers that propagate suspension but may go on after a refused insert: a wake-up can only be lost
      by suspending on an activity whose inserts were all refused and that has no row. */
  lemma LostOnlyByRefusal(reg: Registry, es: seq<Step>, wf: Id)
    requires OwnKeys(reg) && Runs(reg, INIT, es)
    requires var db := After(reg, INIT, es).db;
      && wf in db.workflows && db.workflows[wf].status == Active
      && var name, input := db.workflows[wf].name, db.workflows[wf].input;
         name in reg ==> Propagates(ScriptOf(reg, name, wf, input)) && FuturesStarted(ScriptOf(reg, name, wf, input))
    ensures var db := After(reg, INIT, es).db;
      || HasOpenTask(db, wf)
      || (db.workflows[wf].name in reg &&
          var h := ScriptOf(reg, db.workflows[wf].name, wf, db.workflows[wf].input);
          exists tr :: Sleeps(db, wf, h, tr) || Stranded(db, wf, h, tr))
  {
    AlwaysSane(reg, es);
    var s := After(reg, INIT, es);
    assert Awake(reg, s, wf);
    if Parked(reg, s.db, wf) {
      var h := ScriptOf(reg, s.db.workflows[wf].name, wf, s.db.workflows[wf].input);
      var tr :| ParkedAt(s.db, wf, h, tr);
      ParkedSleeps(s.db, wf, h, tr);
    }
  }
}
