/** Why workflows fail, where outputs come from, and what duplicates, cleanup and late workers can do. */
module Outcomes {
  import opened Schema
  import opened Transactions
  import opened Replay
  import opened Engine
  import opened Integrity
  import opened Frames
  import opened RunInvariants
  import opened Growth
  import opened Sets
  import opened Postgres

  lemma AlwaysValid(reg: Registry, es: seq<Step>)
    requires Runs(reg, INIT, es)
    ensures Valid(After(reg, INIT, es))
  {
    forall t: State, e: Step | Valid(t) && Enabled(reg, t, e)
      ensures Valid(Next(reg, t, e))
    {
      ValidStep(reg, t, e);
    }
    InductionOverRuns(reg, INIT, es, s => Valid(s));
  }

  /** In every reachable state keys are unique and every task, activity and signal has its workflow. */
  lemma TablesStayConsistent(reg: Registry, es: seq<Step>)
    requires Runs(reg, INIT, es)
    ensures Consistent(After(reg, INIT, es).db)
  {
    AlwaysValid(reg, es);
  }

  lemma {:induction false} RunsPrefix(reg: Registry, s: State, es: seq<Step>, i: nat)
    requires Runs(reg, s, es) && i <= |es|
    ensures Runs(reg, s, es[..i])
    ensures i < |es| ==> Enabled(reg, After(reg, s, es[..i]), es[i])
    decreases |es|
  {
    if i > 0 {
      RunsPrefix(reg, Next(reg, s, es[0]), es[1..], i - 1);
      assert es[..i][1..] == es[1..][..i - 1];
    }
  }

  lemma PrefixShift(reg: Registry, s: State, es: seq<Step>, j: nat)
    requires Runs(reg, s, es) && j < |es| - 1 && Runs(reg, Next(reg, s, es[0]), es[1..][..j])
    ensures Runs(reg, s, es[..j + 1]) && After(reg, s, es[..j + 1]) == After(reg, Next(reg, s, es[0]), es[1..][..j])
  {
    RunsPrefix(reg, s, es, j + 1);
    assert es[..j + 1][1..] == es[1..][..j];
  }

  // ---- failure ----

  /** The step gives up on a claim of wf for an unrecoverable error or an exhausted attempt count,
      and fails the claimed row in the same transaction. */
  ghost predicate GivesUp(s: State, e: Step, t: State, wf: Id) {
    || (e.FailRun? && e.run in s.runs && s.runs[e.run].wf == wf
        && s.runs[e.run].outcome.Some? && s.runs[e.run].outcome.value.Broken?
        && wf in t.db.workflows
        && (s.runs[e.run].outcome.value.unrecoverable || s.runs[e.run].attempts >= t.db.workflows[wf].maxAttempts)
        && s.runs[e.run].task in t.db.tasks && t.db.tasks[s.runs[e.run].task].wf == wf
        && t.db.tasks[s.runs[e.run].task].status == Failed)
    || (e.FailJob? && e.job in s.jobs && s.jobs[e.job].wf == wf
        && s.jobs[e.job].result.Some? && s.jobs[e.job].result.value.Error?
        && s.jobs[e.job].activity in t.db.activities && t.db.activities[s.jobs[e.job].activity].wf == wf
        && t.db.activities[s.jobs[e.job].activity].status == Failed
        && (s.jobs[e.job].result.value.unrecoverable
             || s.jobs[e.job].attempts >= t.db.activities[s.jobs[e.job].activity].maxAttempts))
  }

  lemma OnlyFailuresFail(reg: Registry, s: State, e: Step, wf: Id)
    requires Enabled(reg, s, e) && wf in s.db.workflows && wf in Next(reg, s, e).db.workflows
    requires RowIdsUsed(s.db, s.nextId)
    requires s.db.workflows[wf].status != Dead && Next(reg, s, e).db.workflows[wf].status == Dead
    ensures (e.FailRun? && s.runs[e.run].wf == wf && s.runs[e.run].task in s.db.tasks)
         || (e.FailJob? && s.jobs[e.job].wf == wf && s.jobs[e.job].activity in s.db.activities)
  {
    if OnRun(e) {
      RunWorkflows(reg, s, e);
    } else if OnActivities(e) {
      JobWorkflows(s, e);
    } else if !e.Cleanup? {
      OtherStepFrame(reg, s, e);
    }
  }

  lemma FailingStepGivesUp(reg: Registry, s: State, e: Step, wf: Id)
    requires Valid(s) && Enabled(reg, s, e) && wf in s.db.workflows && wf in Next(reg, s, e).db.workflows
    requires s.db.workflows[wf].status != Dead && Next(reg, s, e).db.workflows[wf].status == Dead
    ensures GivesUp(s, e, Next(reg, s, e), wf)
  {
    OnlyFailuresFail(reg, s, e, wf);
    if e.FailRun? {
      assert RunMatches(s.db, s.runs[e.run]);
    } else {
      assert JobMatches(s.db, s.jobs[e.job]);
    }
  }

  /** Step i of the run gives up on a claim of wf. */
  ghost predicate GivesUpAt(reg: Registry, s: State, es: seq<Step>, i: nat, wf: Id) {
    && i < |es| && Runs(reg, s, es[..i]) && Enabled(reg, After(reg, s, es[..i]), es[i])
    && GivesUp(After(reg, s, es[..i]), es[i], Next(reg, After(reg, s, es[..i]), es[i]), wf)
  }

  lemma GivesUpLater(reg: Registry, s: State, es: seq<Step>, j: nat, wf: Id)
    requires Runs(reg, s, es) && es != [] && GivesUpAt(reg, Next(reg, s, es[0]), es[1..], j, wf)
    ensures GivesUpAt(reg, s, es, j + 1, wf)
  {
    PrefixShift(reg, s, es, j);
  }

  /** Over any run, a workflow ends up failed only through a step that gave up on one of its claims. */
  lemma {:induction false} FailureHasCause(reg: Registry, s: State, es: seq<Step>, wf: Id) returns (i: nat)
    requires Valid(s) && Runs(reg, s, es)
    requires wf in s.db.workflows && s.db.workflows[wf].status != Dead
    requires wf in After(reg, s, es).db.workflows && After(reg, s, es).db.workflows[wf].status == Dead
    ensures GivesUpAt(reg, s, es, i, wf)
    decreases |es|
  {
    var t := Next(reg, s, es[0]);
    ValidStep(reg, s, es[0]);
    WasThere(reg, t, es[1..], wf);
    if t.db.workflows[wf].status == Dead {
      i := 0;
      FailingStepGivesUp(reg, s, es[0], wf);
      assert es[..0] == [] && After(reg, s, []) == s;
      assert GivesUpAt(reg, s, es, 0, wf);
    } else {
      var j := FailureHasCause(reg, t, es[1..], wf);
      i := j + 1;
      GivesUpLater(reg, s, es, j, wf);
    }
  }

  /** A workflow that has left the running state never returns to it. */
  lemma RunningNeverReentered(reg: Registry, s: State, es: seq<Step>, wf: Id)
    requires Valid(s) && Runs(reg, s, es) && wf in s.db.workflows && wf in After(reg, s, es).db.workflows
    ensures s.db.workflows[wf].status != Active ==> After(reg, s, es).db.workflows[wf].status != Active
  {
    WorkflowStays(reg, s, es, wf);
  }

  /** Neither completed nor failed is final: a workflow changes its status exactly when one of its runs returns
      from the handler while it is not completed, or one of its claims is given up while it is not failed. */
  lemma StatusChangesIff(reg: Registry, s: State, e: Step, wf: Id)
    requires Valid(s) && Enabled(reg, s, e) && wf in s.db.workflows && wf in Next(reg, s, e).db.workflows
    ensures Next(reg, s, e).db.workflows[wf].status != s.db.workflows[wf].status <==>
      || (e.FinishWorkflow? && s.runs[e.run].wf == wf && s.db.workflows[wf].status != Succeeded)
      || (e.FailRun? && s.runs[e.run].wf == wf && s.db.workflows[wf].status != Dead)
      || (e.FailJob? && s.jobs[e.job].wf == wf && s.db.workflows[wf].status != Dead)
  {
    if e.FailRun? {
      assert RunMatches(s.db, s.runs[e.run]);
    } else if e.FailJob? {
      assert JobMatches(s.db, s.jobs[e.job]);
    } else if !e.FinishWorkflow? {
      OthersKeepStatus(reg, s, e, wf);
    }
  }

  lemma OthersKeepStatus(reg: Registry, s: State, e: Step, wf: Id)
    requires Enabled(reg, s, e) && RowIdsUsed(s.db, s.nextId) && wf in s.db.workflows
    requires wf in Next(reg, s, e).db.workflows
    requires !e.FinishWorkflow? && !e.FailRun? && !e.FailJob?
    ensures Next(reg, s, e).db.workflows[wf].status == s.db.workflows[wf].status
  {
    if OnRun(e) {
      RunWorkflows(reg, s, e);
    } else if OnActivities(e) {
      JobWorkflows(s, e);
    } else if !e.Cleanup? {
      OtherStepFrame(reg, s, e);
    }
  }

  // ---- errors ----

  /** What a run has come to is not changed any more. */
  lemma DoneStays(reg: Registry, s: State, e: Step, c: Id)
    requires Enabled(reg, s, e) && c < s.nextId && (c in s.runs ==> s.runs[c].outcome.Some?)
    ensures c in Next(reg, s, e).runs ==> c in s.runs && Next(reg, s, e).runs[c] == s.runs[c]
  {
    if Works(e) {
      WorkFrame(reg, s, e);
    } else if OnRun(e) {
      RunStepFrame(reg, s, e);
    } else if OnActivities(e) {
      JobStepFrame(s, e);
    } else {
      OthersKeepClaims(reg, s, e);
    }
  }

  lemma {:induction false} DoneStaysRuns(reg: Registry, s: State, es: seq<Step>, c: Id)
    requires Runs(reg, s, es) && c < s.nextId && (c in s.runs ==> s.runs[c].outcome.Some?)
    ensures c in After(reg, s, es).runs ==> c in s.runs && After(reg, s, es).runs[c] == s.runs[c]
    decreases |es|
  {
    if es != [] {
      DoneStays(reg, s, es[0], c);
      DoneStaysRuns(reg, Next(reg, s, es[0]), es[1..], c);
    }
  }

  /** Whatever happens after a handler has raised an error: as long as its claim is open it can be failed exactly when
      the error is unrecoverable or the attempts are used up, rescheduled exactly otherwise, and never completed. */
  lemma RaisedIsSettledIff(reg: Registry, s: State, c: Id, es: seq<Step>, backoff: int, message: string)
    requires RunsMatch(s) && Enabled(reg, s, Advance(c)) && RequestOf(reg, s.runs[c]).Raise?
    requires Runs(reg, Next(reg, s, Advance(c)), es) && c in After(reg, Next(reg, s, Advance(c)), es).runs
    ensures var t, r, request := After(reg, Next(reg, s, Advance(c)), es), s.runs[c], RequestOf(reg, s.runs[c]);
      && (Enabled(reg, t, FailRun(c, message)) <==> request == Raise(true) || r.attempts >= r.maxAttempts)
      && (Enabled(reg, t, RetryRun(c, backoff, message)) <==> request == Raise(false) && r.attempts < r.maxAttempts)
      && !Enabled(reg, t, CompleteRun(c))
  {
    RaisedIs(reg, s, c);
    DoneStaysRuns(reg, Next(reg, s, Advance(c)), es, c);
  }

  lemma RaisedIs(reg: Registry, s: State, c: Id)
    requires RunsMatch(s) && Enabled(reg, s, Advance(c)) && RequestOf(reg, s.runs[c]).Raise?
    ensures var t := Next(reg, s, Advance(c));
      c < t.nextId && t.runs ==
        s.runs[c := s.runs[c].(outcome := Some(Broken(RequestOf(reg, s.runs[c]).unrecoverable)))]
  {
  }

  // ---- provenance ----

  ghost predicate Invoked(s: State, j: Job) {
    j.result.Some? && j.result.value.Output? ==>
      Invocation(j.activity, j.name, j.input, j.result.value.value) in s.log.invocations
  }

  ghost predicate Produced(s: State, a: Id)
    requires a in s.db.activities
  {
    var row := s.db.activities[a];
    row.status == Completed ==> Invocation(a, row.name, row.input, row.output) in s.log.invocations
  }

  ghost predicate Proven(s: State) {
    && (forall c :: c in s.jobs ==> Invoked(s, s.jobs[c]))
    && (forall a :: a in s.db.activities ==> Produced(s, a))
  }

  lemma ProvenJobStep(reg: Registry, s: State, e: Step)
    requires JobsMatch(s) && Proven(s) && Enabled(reg, s, e) && OnActivities(e)
    ensures Proven(Next(reg, s, e))
  {
    var t := Next(reg, s, e);
    forall c | c in s.jobs
      ensures Invoked(s, s.jobs[c])
    {
    }
    forall a | a in t.db.activities
      ensures Produced(t, a)
    {
      assert Produced(s, a);
      if e.CompleteJob? {
        assert JobMatches(s.db, s.jobs[e.job]);
      } else {
        KeptOutput(reg, s, e, a);
      }
    }
  }

  lemma KeptOutput(reg: Registry, s: State, e: Step, a: Id)
    requires Enabled(reg, s, e) && OnActivities(e) && !e.CompleteJob? && a in s.db.activities
    ensures var t := Next(reg, s, e);
      && a in t.db.activities && s.log.invocations <= t.log.invocations
      && (t.db.activities[a].status == Completed ==> t.db.activities[a] == s.db.activities[a])
  {
  }

  lemma ProvenStep(reg: Registry, s: State, e: Step)
    requires JobsMatch(s) && Proven(s) && Enabled(reg, s, e) && RowIdsUsed(s.db, s.nextId)
    ensures Proven(Next(reg, s, e))
  {
    if OnActivities(e) {
      ProvenJobStep(reg, s, e);
    } else {
      InvocationsKept(reg, s, e);
      var t := Next(reg, s, e);
      if !e.Cleanup? {
        ActivitiesUntouched(reg, s, e);
      }
      forall a | a in t.db.activities
        ensures Produced(t, a)
      {
        if a in s.db.activities {
          assert Produced(s, a);
        }
      }
    }
  }

  lemma InvocationsKept(reg: Registry, s: State, e: Step)
    requires Enabled(reg, s, e) && !OnActivities(e)
    ensures Apply(reg, s, e).log.invocations == s.log.invocations && Apply(reg, s, e).jobs == s.jobs
  {
  }

  ghost predicate ProvenValid(s: State) {
    Valid(s) && Proven(s)
  }

  lemma ProvenValidStep(reg: Registry, s: State, e: Step)
    requires ProvenValid(s) && Enabled(reg, s, e)
    ensures ProvenValid(Next(reg, s, e))
  {
    ValidStep(reg, s, e);
    ProvenStep(reg, s, e);
  }

  /** In every reachable state each output in a workflow's history was returned by a successful
      invocation of the activity's handler on its stored input. */
  lemma HistoryHasProvenance(reg: Registry, es: seq<Step>, wf: Id, k: Key) returns (a: Id)
    requires Runs(reg, INIT, es) && k in History(After(reg, INIT, es).db, wf)
    ensures var s := After(reg, INIT, es);
      && Recorded(s.db, wf, a) && s.db.activities[a].key == k
      && Invocation(a, s.db.activities[a].name, s.db.activities[a].input, History(s.db, wf)[k]) in s.log.invocations
  {
    forall t: State, e: Step | ProvenValid(t) && Enabled(reg, t, e)
      ensures ProvenValid(Next(reg, t, e))
    {
      ProvenValidStep(reg, t, e);
    }
    InductionOverRuns(reg, INIT, es, s => ProvenValid(s));
    var s := After(reg, INIT, es);
    a := HistoryIsRecorded(s.db, wf, k);
    assert Produced(s, a);
  }

  // ---- duplicates ----

  /** However many enqueues with one key, interleaved with anything, while the workflow exists:
      they return its id, leave its row and options as first given, and insert nothing. */
  lemma EnqueueIdempotent(reg: Registry, s: State, first: Step, es: seq<Step>, second: Step)
    requires Valid(s) && first.Enqueue? && second.Enqueue? && first.key == second.key
    requires !HasWorkflowKey(s.db, first.key)
    requires Runs(reg, Next(reg, s, first), es)
    requires s.nextId in After(reg, Next(reg, s, first), es).db.workflows
    ensures EnqueuedId(s, first.key) == s.nextId
    ensures var t, wf := After(reg, Next(reg, s, first), es), s.nextId;
      && EnqueuedId(t, second.key) == wf
      && Next(reg, t, second).db == t.db
      && (forall i :: i in t.db.workflows && t.db.workflows[i].key == first.key ==> i == wf)
      && WorkflowKept(NewWorkflow(first.key, first.name, first.input, first.options, s.now), t.db.workflows[wf])
      && var w := t.db.workflows[wf];
         w.name == first.name && w.input == first.input && w.priority == first.options.priority
         && w.maxAttempts == first.options.maxAttempts && w.stuckTimeout == first.options.stuckTimeout
         && w.createdAt == s.now
    ensures var wf := s.nextId;
      && wf + 1 !in s.db.tasks && wf + 1 in Next(reg, s, first).db.tasks
         && Next(reg, s, first).db.tasks.Keys == s.db.tasks.Keys + {wf + 1}
  {
    var t0 := Next(reg, s, first);
    ValidStep(reg, s, first);
    FirstInserts(reg, s, first);
    WorkflowStays(reg, t0, es, s.nextId);
    ValidRuns(reg, t0, es);
    DuplicateChangesNothing(reg, After(reg, t0, es), second, s.nextId);
  }

  /** A first enqueue inserts its workflow and one task. */
  lemma FirstInserts(reg: Registry, s: State, first: Step)
    requires RowIdsUsed(s.db, s.nextId) && first.Enqueue? && !HasWorkflowKey(s.db, first.key)
    ensures var t, wf := Next(reg, s, first), s.nextId;
      && wf in t.db.workflows
         && t.db.workflows[wf] == NewWorkflow(first.key, first.name, first.input, first.options, s.now)
      && wf + 1 !in s.db.tasks && wf + 1 in t.db.tasks && t.db.tasks.Keys == s.db.tasks.Keys + {wf + 1}
  {
  }

  lemma DuplicateChangesNothing(reg: Registry, s: State, second: Step, wf: Id)
    requires Valid(s) && second.Enqueue? && wf in s.db.workflows && s.db.workflows[wf].key == second.key
    ensures EnqueuedId(s, second.key) == wf && Next(reg, s, second).db == s.db
    ensures forall i :: i in s.db.workflows && s.db.workflows[i].key == second.key ==> i == wf
  {
    assert HasWorkflowKey(s.db, second.key);
  }

  lemma ValidRuns(reg: Registry, s: State, es: seq<Step>)
    requires Valid(s) && Runs(reg, s, es)
    ensures Valid(After(reg, s, es))
  {
    forall t: State, e: Step | Valid(t) && Enabled(reg, t, e)
      ensures Valid(Next(reg, t, e))
    {
      ValidStep(reg, t, e);
    }
    InductionOverRuns(reg, s, es, t => Valid(t));
  }

  /** One more signal row is one more event. */
  lemma InsertedSignalEvents(db: Tables, after: Tables, id: Id, wf: Id)
    requires SignalKeysUnique(db) && SignalKeysUnique(after)
    requires id in after.signals && id !in db.signals && after.signals == db.signals[id := after.signals[id]]
    requires after.signals[id].wf == wf
    ensures Signals(after, wf) == Signals(db, wf)[after.signals[id].key := after.signals[id].input]
  {
    var key := after.signals[id].key;
    GrowingSignals(db, after, wf);
    DeliveredInSignals(after, wf, id);
    forall k | k in Signals(after, wf)
      ensures k == key || k in Signals(db, wf)
    {
      var g := SignalIsDelivered(after, wf, k);
      if g != id {
        DeliveredInSignals(db, wf, g);
      }
    }
    SameEvents(Signals(after, wf), Signals(db, wf)[key := after.signals[id].input]);
  }

  /** SendSignal succeeds exactly for a key never used before and an existing workflow; otherwise it fails and rolls
      back. On success just this row is added and the workflow's signals gain just this event. */
  lemma SignalAcceptedIff(s: State, wf: Id, key: Key, name: string, input: Value)
    requires Valid(s)
    ensures var tx := InsertSignal(s.db, s.nextId, key, wf, name, input, s.nextId + 1, s.now);
      && (tx.Some? <==> !HasSignalKey(s.db, key) && wf in s.db.workflows)
      && (tx.Some? ==> Signals(tx.value, wf) == Signals(s.db, wf)[key := input])
      && (tx.Some? ==> tx.value.signals == s.db.signals[s.nextId := Signal(key, wf, name, input)])
  {
    var tx := InsertSignal(s.db, s.nextId, key, wf, name, input, s.nextId + 1, s.now);
    if tx.Some? {
      assert SignalKeysUnique(tx.value);
      InsertedSignalEvents(s.db, tx.value, s.nextId, wf);
    }
  }

  /** InsertActivity gives the workflow a row for its key exactly when no other workflow holds that key. */
  lemma StartedRowIsOwnIff(s: State, key: Key, wf: Id, name: string, input: Value, options: Options)
    requires Valid(s) && wf in s.db.workflows
    ensures var tx := InsertActivity(s.db, s.nextId, key, wf, name, input, options);
      && tx.Some?
      && (HasRow(tx.value, wf, key) <==> forall a :: a in s.db.activities && s.db.activities[a].key == key ==>
           s.db.activities[a].wf == wf)
  {
    var tx := InsertActivity(s.db, s.nextId, key, wf, name, input, options);
    if HasActivityKey(s.db, key) {
      var a :| a in s.db.activities && s.db.activities[a].key == key;
    } else {
      assert tx.value.activities[s.nextId].key == key;
    }
  }

  // ---- cleanup and late workers ----

  /** What is left of the tables is what belongs to the workflows that are left, unchanged. */
  ghost predicate RestrictedTo(db: Tables, after: Tables) {
    && (forall wf :: wf in after.workflows ==> wf in db.workflows && after.workflows[wf] == db.workflows[wf])
    && (forall t :: t in after.tasks <==> t in db.tasks && db.tasks[t].wf in after.workflows)
    && (forall a :: a in after.activities <==> a in db.activities && db.activities[a].wf in after.workflows)
    && (forall g :: g in after.signals <==> g in db.signals && db.signals[g].wf in after.workflows)
    && (forall t :: t in after.tasks ==> after.tasks[t] == db.tasks[t])
    && (forall a :: a in after.activities ==> after.activities[a] == db.activities[a])
    && (forall g :: g in after.signals ==> after.signals[g] == db.signals[g])
  }

  lemma DeletionRestricts(db: Tables, ids: set<Id>)
    requires ForeignKeys(db)
    ensures RestrictedTo(db, DeleteWorkflows(db, ids))
  {
  }

  /** Every workflow that cleanup removes had the status it was called for and was created before the cutoff;
      it removes at most limit, fewer only when no such workflow is left, each with all its rows, and nothing else. */
  lemma CleanupIsSelective(reg: Registry, s: State, e: Step)
    requires Valid(s) && e.Cleanup? && Enabled(reg, s, e)
    ensures var db, after := s.db, Next(reg, s, e).db;
      && RestrictedTo(db, after)
      && |db.workflows.Keys - after.workflows.Keys| <= e.limit
      && (forall wf :: wf in db.workflows && wf !in after.workflows ==>
            db.workflows[wf].status == e.status != Active && db.workflows[wf].createdAt < e.cutoff)
      && ((exists wf :: wf in after.workflows
                        && after.workflows[wf].status == e.status && after.workflows[wf].createdAt < e.cutoff) ==>
            |db.workflows.Keys - after.workflows.Keys| == e.limit)
  {
    assert Next(reg, s, e).db == DeleteWorkflows(s.db, e.ids);
    DeletionIsSelective(s.db, e.status, e.cutoff, e.limit, e.ids);
  }

  lemma DeletionIsSelective(db: Tables, status: WorkflowStatus, cutoff: int, limit: nat, ids: set<Id>)
    requires ForeignKeys(db) && status != Active
    requires ids <= ExpiredSet(db, status, cutoff) && |ids| == Least(limit, |ExpiredSet(db, status, cutoff)|)
    ensures var after := DeleteWorkflows(db, ids);
      && RestrictedTo(db, after)
      && |db.workflows.Keys - after.workflows.Keys| <= limit
      && (forall wf :: wf in db.workflows && wf !in after.workflows ==>
            db.workflows[wf].status == status != Active && db.workflows[wf].createdAt < cutoff)
      && ((exists wf :: wf in after.workflows
                        && after.workflows[wf].status == status && after.workflows[wf].createdAt < cutoff) ==>
            |db.workflows.Keys - after.workflows.Keys| == limit)
  {
    DeletionRestricts(db, ids);
    OnlyTheseGo(db, ids);
    ExpiredAreOver(db, status, cutoff, ids);
  }

  lemma ExpiredAreOver(db: Tables, status: WorkflowStatus, cutoff: int, ids: set<Id>)
    requires ids <= ExpiredSet(db, status, cutoff)
    ensures ids <= db.workflows.Keys
    ensures forall wf :: wf in ids ==> db.workflows[wf].status == status && db.workflows[wf].createdAt < cutoff
    ensures |ids| == |ExpiredSet(db, status, cutoff)| ==> forall wf :: wf in db.workflows && wf !in ids ==>
      !(db.workflows[wf].status == status && db.workflows[wf].createdAt < cutoff)
  {
    DeletedMean(db, status, cutoff, ids);
  }

  lemma OnlyTheseGo(db: Tables, ids: set<Id>)
    requires ids <= db.workflows.Keys
    ensures db.workflows.Keys - DeleteWorkflows(db, ids).workflows.Keys == ids
  {
  }

  /** A workflow is safe from every cleanup whose cutoff is not later than the time it was enqueued. */
  lemma YoungIsKept(reg: Registry, s: State, first: Step, es: seq<Step>, e: Step)
    requires Valid(s) && first.Enqueue? && !HasWorkflowKey(s.db, first.key)
    requires Runs(reg, Next(reg, s, first), es) && s.nextId in After(reg, Next(reg, s, first), es).db.workflows
    requires e.Cleanup? && Enabled(reg, After(reg, Next(reg, s, first), es), e) && e.cutoff <= s.now
    ensures s.nextId in Next(reg, After(reg, Next(reg, s, first), es), e).db.workflows
  {
    var t := After(reg, Next(reg, s, first), es);
    EnqueueIdempotent(reg, s, first, es, first);
    ValidStep(reg, s, first);
    ValidRuns(reg, Next(reg, s, first), es);
    CleanupIsSelective(reg, t, e);
  }

  predicate ClaimOfGone(s: State, e: Step) {
    || (OnRun(e) && !e.ClaimRun? && e.run in s.runs && s.runs[e.run].wf !in s.db.workflows)
    || ((Settles(e) || e.JobReturns? || e.CrashJob?) && e.job in s.jobs && s.jobs[e.job].wf !in s.db.workflows)
  }

  lemma LateRunsChangeNothing(reg: Registry, s: State, e: Step)
    requires Enabled(reg, s, e) && OnRun(e) && !e.ClaimRun? && s.runs[e.run].wf !in s.db.workflows
    ensures Next(reg, s, e).db == s.db
  {
  }

  /** Whatever a worker still does for a workflow that has been cleaned up, no table changes. */
  lemma LateWorkersChangeNothing(reg: Registry, s: State, e: Step)
    requires Valid(s) && Enabled(reg, s, e) && ClaimOfGone(s, e)
    ensures Next(reg, s, e).db == s.db
  {
    if OnRun(e) {
      LateRunsChangeNothing(reg, s, e);
    } else {
      assert JobMatches(s.db, s.jobs[e.job]);
    }
  }
}
