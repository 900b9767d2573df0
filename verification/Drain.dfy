/** Every workflow drains: with prompt workers, a bounded handler and no new signals, only finitely many steps
    concern a workflow, and it ends completed, failed, or waiting for a signal that was never sent. */
module Drain {
  import opened Sets
  import opened Schema
  import opened Transactions
  import opened Replay
  import opened Engine
  import opened Integrity
  import opened Frames
  import opened RunInvariants
  import opened Wakeup
  import opened Durable
  import opened Conservation
  import opened Prompt
  import opened Ranking

  // ---- the number of rows is bounded by the handler ----

  ghost function OriginLength(reg: Registry, db: Tables, a: Id): nat
    requires a in db.activities && db.activities[a].wf in db.workflows && HasOrigin(reg, db, a)
  {
    var wf := db.activities[a].wf;
    var tr :| OriginAt(db, ScriptOf(reg, db.workflows[wf].name, wf, db.workflows[wf].input), a, tr);
    |tr|
  }

  /** Two rows that originate at the same point of the path are one. */
  lemma OriginsDiffer(db: Tables, h: Script, a: Id, tr: seq<Answer>, b: Id, ur: seq<Answer>)
    requires ActivityKeysUnique(db) && a in db.activities && b in db.activities
    requires db.activities[a].wf == db.activities[b].wf
    requires OriginAt(db, h, a, tr) && OriginAt(db, h, b, ur) && |tr| == |ur|
    ensures a == b
  {
    TracesAgree(h, History(db, db.activities[a].wf), Signals(db, db.activities[a].wf), tr, ur);
    assert ur[..|tr|] == ur;
  }

  /** A handler with at most n requests has at most n activity rows. */
  lemma RowsAtMost(reg: Registry, s: State, wf: Id, n: nat)
    requires Held(reg, s) && wf in s.db.workflows && Steady(reg, s.db, wf) && Capped(reg, s.db, wf, n)
    ensures |RowsOf(s.db, wf)| <= n
  {
    var rows, w := RowsOf(s.db, wf), s.db.workflows[wf];
    forall a | a in rows
      ensures HasOrigin(reg, s.db, a)
    {
    }
    if w.name in reg {
      var h := ScriptOf(reg, w.name, wf, w.input);
      var at := map a | a in rows :: OriginLength(reg, s.db, a);
      forall a | a in rows
        ensures exists tr :: OriginAt(s.db, h, a, tr) && |tr| == at[a]
      {
        var tr :| OriginAt(s.db, h, a, tr) && |tr| == at[a];
      }
      OriginsFit(s.db, wf, h, at, n);
    } else {
      assert rows == {};
    }
  }

  /** Origins lie at different places of the path, and none beyond its bound. */
  lemma OriginsFit(db: Tables, wf: Id, h: Script, at: map<Id, nat>, n: nat)
    requires ActivityKeysUnique(db) && Bounded(h, n) && at.Keys == RowsOf(db, wf)
    requires forall a :: a in at ==> exists tr :: OriginAt(db, h, a, tr) && |tr| == at[a]
    ensures |RowsOf(db, wf)| <= n
  {
    forall a | a in at
      ensures at[a] < n
    {
      var tr :| OriginAt(db, h, a, tr) && |tr| == at[a];
      TraceIsAttempt(h, History(db, wf), Signals(db, wf), tr);
      assert h(tr).Asks();
    }
    forall a, b | a in at && b in at && at[a] == at[b]
      ensures a == b
    {
      var tr :| OriginAt(db, h, a, tr) && |tr| == at[a];
      var ur :| OriginAt(db, h, b, ur) && |ur| == at[b];
      OriginsDiffer(db, h, a, tr, b, ur);
    }
    SizeByInjection(RowsOf(db, wf), at, n);
  }

  // ---- what a step does to the rank ----

  /** Fewer rows to come, or as many and less potential. */
  ghost predicate Lower(t: State, s: State, wf: Id, n: nat) {
    || |RowsOf(s.db, wf)| < |RowsOf(t.db, wf)|
    || (|RowsOf(t.db, wf)| == |RowsOf(s.db, wf)| && Potential(t, wf, n) < Potential(s, wf, n))
  }

  ghost predicate NotHigher(t: State, s: State, wf: Id, n: nat) {
    || |RowsOf(s.db, wf)| < |RowsOf(t.db, wf)|
    || (|RowsOf(t.db, wf)| == |RowsOf(s.db, wf)| && Potential(t, wf, n) <= Potential(s, wf, n))
  }

  /** A new row is one row more. */
  lemma NewRowLowers(reg: Registry, s: State, c: Id, wf: Id, n: nat)
    requires RowIdsUsed(s.db, s.nextId) && Enabled(reg, s, InsertStarted(c)) && s.runs[c].wf == wf
    requires DoInsertStarted(reg, s, c).db.activities != s.db.activities
    ensures Lower(Next(reg, s, InsertStarted(c)), s, wf, n)
  {
    assert RowsOf(Next(reg, s, InsertStarted(c)).db, wf) == RowsOf(s.db, wf) + {s.nextId};
  }

  lemma RowsStay(reg: Registry, s: State, e: Step, wf: Id)
    requires Enabled(reg, s, e) && !e.InsertStarted? && !e.Cleanup?
    ensures RowsOf(Apply(reg, s, e).db, wf) == RowsOf(s.db, wf)
  {
    if OnActivities(e) {
      if Settles(e) {
        SettlementTouches(s, e);
        SettledKeepsOwner(reg, s, e);
      }
    } else {
      OnlyItsRun(reg, s, e);
      ActivitiesUntouched(reg, s, e);
    }
  }

  lemma SettledKeepsOwner(reg: Registry, s: State, e: Step)
    requires Enabled(reg, s, e) && Settles(e)
    ensures forall a :: a in s.db.activities ==>
      a in Apply(reg, s, e).db.activities && Apply(reg, s, e).db.activities[a].wf == s.db.activities[a].wf
  {
  }

  lemma AttemptsRiseStep(reg: Registry, s: State, e: Step, wf: Id)
    requires Enabled(reg, s, e) && !e.Cleanup? && RowIdsUsed(s.db, s.nextId) && wf in s.db.workflows
    ensures AttemptsRise(s, Apply(reg, s, e), wf)
  {
    if OnRun(e) {
      RunAttemptsRise(reg, s, e, wf);
    } else if !OnActivities(e) {
      OtherStepFrame(reg, s, e);
    }
  }

  lemma RunAttemptsRise(reg: Registry, s: State, e: Step, wf: Id)
    requires Enabled(reg, s, e) && OnRun(e) && wf in s.db.workflows
    ensures AttemptsRise(s, Apply(reg, s, e), wf)
  {
    RunWorkflows(reg, s, e);
  }

  /** When the focus weighs less and no row was added, the potential is lower. */
  lemma DropLowers(s: State, mid: State, t: State, e: Step, wf: Id, n: nat)
    requires Drops(s, mid, e, wf, n) && Near(s, mid, FocusOf(s, e)) && AttemptsRise(s, mid, wf)
    requires RowsOf(mid.db, wf) == RowsOf(s.db, wf)
    requires t == mid.(nextId := t.nextId)
    ensures Lower(t, s, wf, n)
  {
    PotentialShift(s, t, wf, n, FocusOf(s, e));
  }

  /** Every step on wf lowers its rank. */
  lemma ConcernLowers(reg: Registry, s: State, e: Step, wf: Id, n: nat)
    requires RowIdsUsed(s.db, s.nextId) && RunsMatch(s) && JobsMatch(s) && OneToOne(s) && AllReplay(reg, s)
    requires wf in s.db.workflows && Capped(reg, s.db, wf, n)
    requires Enabled(reg, s, e) && Timely(s, e) && Concerns(s, e, wf)
    ensures Lower(Next(reg, s, e), s, wf, n)
  {
    if e.InsertStarted? {
      InsertLowers(reg, s, e, wf, n);
    } else {
      RowsStay(reg, s, e, wf);
      NoRowLowers(reg, s, e, wf, n);
    }
  }

  lemma InsertLowers(reg: Registry, s: State, e: Step, wf: Id, n: nat)
    requires RowIdsUsed(s.db, s.nextId) && RunsMatch(s) && JobsMatch(s) && OneToOne(s) && AllReplay(reg, s)
    requires wf in s.db.workflows && Capped(reg, s.db, wf, n)
    requires e.InsertStarted? && Enabled(reg, s, e) && s.runs[e.run].wf == wf
    ensures Lower(Next(reg, s, e), s, wf, n)
  {
    if DoInsertStarted(reg, s, e.run).db.activities == s.db.activities {
      NoRowLowers(reg, s, e, wf, n);
    } else {
      NewRowLowers(reg, s, e.run, wf, n);
    }
  }

  lemma ConcernShifts(reg: Registry, s: State, e: Step, wf: Id, n: nat)
    requires RowIdsUsed(s.db, s.nextId) && RunsMatch(s) && JobsMatch(s) && OneToOne(s) && AllReplay(reg, s)
    requires wf in s.db.workflows && Capped(reg, s.db, wf, n)
    requires Enabled(reg, s, e) && Timely(s, e) && Concerns(s, e, wf)
    requires e.InsertStarted? ==> Apply(reg, s, e).db.activities == s.db.activities
    ensures var t := Apply(reg, s, e);
      Drops(s, t, e, wf, n) && Near(s, t, FocusOf(s, e)) && AttemptsRise(s, t, wf)
  {
    ConcernDrops(reg, s, e, wf, n);
    NearStep(reg, s, e);
    AttemptsRiseStep(reg, s, e, wf);
  }

  lemma NoRowLowers(reg: Registry, s: State, e: Step, wf: Id, n: nat)
    requires RowIdsUsed(s.db, s.nextId) && RunsMatch(s) && JobsMatch(s) && OneToOne(s) && AllReplay(reg, s)
    requires wf in s.db.workflows && Capped(reg, s.db, wf, n)
    requires Enabled(reg, s, e) && Timely(s, e) && Concerns(s, e, wf)
    requires RowsOf(Apply(reg, s, e).db, wf) == RowsOf(s.db, wf)
    requires e.InsertStarted? ==> Apply(reg, s, e).db.activities == s.db.activities
    ensures Lower(Next(reg, s, e), s, wf, n)
  {
    ConcernShifts(reg, s, e, wf, n);
    DropLowers(s, Apply(reg, s, e), Next(reg, s, e), e, wf, n);
  }

  // ---- steps that do not concern the workflow ----

  ghost predicate SameTasks(s: State, t: State, wf: Id) {
    && TasksOf(t.db, wf) == TasksOf(s.db, wf)
    && forall x :: x in TasksOf(s.db, wf) ==> t.db.tasks[x] == s.db.tasks[x]
  }

  ghost predicate SameRows(s: State, t: State, wf: Id) {
    && RowsOf(t.db, wf) == RowsOf(s.db, wf)
    && forall x :: x in RowsOf(s.db, wf) ==> t.db.activities[x] == s.db.activities[x]
  }

  ghost predicate SameRuns(s: State, t: State, wf: Id) {
    && RunsOf(t, wf) == RunsOf(s, wf)
    && forall x :: x in RunsOf(s, wf) ==> t.runs[x] == s.runs[x]
  }

  ghost predicate SameJobs(s: State, t: State, wf: Id) {
    && JobsOf(t, wf) == JobsOf(s, wf)
    && forall x :: x in JobsOf(s, wf) ==> t.jobs[x] == s.jobs[x]
  }

  ghost predicate Untouched(s: State, t: State, wf: Id) {
    && wf in s.db.workflows && wf in t.db.workflows && t.db.workflows[wf] == s.db.workflows[wf]
    && SameTasks(s, t, wf) && SameRows(s, t, wf) && SameRuns(s, t, wf) && SameJobs(s, t, wf)
  }

  /** The step is not taken for wf, and sends it no signal. */
  predicate Elsewhere(s: State, e: Step, wf: Id) {
    !Concerns(s, e, wf) && !(e.SendSignal? && e.wf == wf) && !(e.Cleanup? && wf in e.ids)
  }

  lemma ElsewhereWorkflow(reg: Registry, s: State, e: Step, wf: Id)
    requires RowIdsUsed(s.db, s.nextId) && wf in s.db.workflows
    requires Enabled(reg, s, e) && Timely(s, e) && Elsewhere(s, e, wf)
    ensures wf in Apply(reg, s, e).db.workflows && Apply(reg, s, e).db.workflows[wf] == s.db.workflows[wf]
  {
    if OnRun(e) {
      RunElsewhere(reg, s, e, wf);
    } else if OnActivities(e) {
      JobElsewhere(s, e, wf);
    } else if !e.Cleanup? {
      OtherStepFrame(reg, s, e);
    }
  }

  lemma RunElsewhere(reg: Registry, s: State, e: Step, wf: Id)
    requires OnRun(e) && RunEnabled(reg, s, e) && wf in s.db.workflows && (!e.ClaimRun? ==> s.runs[e.run].wf != wf)
    ensures wf in ApplyRun(reg, s, e).db.workflows && ApplyRun(reg, s, e).db.workflows[wf] == s.db.workflows[wf]
  {
  }

  lemma JobElsewhere(s: State, e: Step, wf: Id)
    requires OnActivities(e) && JobEnabled(s, e) && wf in s.db.workflows && (e.FailJob? ==> s.jobs[e.job].wf != wf)
    ensures wf in ApplyJob(s, e).db.workflows && ApplyJob(s, e).db.workflows[wf] == s.db.workflows[wf]
  {
  }

  /** Two states that differ at one task of another workflow have the same tasks of wf; so for rows and claims. */
  lemma TasksApart(s: State, t: State, wf: Id, x: Id)
    requires Apart(s.db.tasks, t.db.tasks, x)
    requires (x in s.db.tasks ==> s.db.tasks[x].wf != wf) && (x in t.db.tasks ==> t.db.tasks[x].wf != wf)
    ensures SameTasks(s, t, wf)
  {
  }

  lemma RowsApart(s: State, t: State, wf: Id, x: Id)
    requires Apart(s.db.activities, t.db.activities, x)
    requires (x in s.db.activities ==> s.db.activities[x].wf != wf)
      && (x in t.db.activities ==> t.db.activities[x].wf != wf)
    ensures SameRows(s, t, wf)
  {
  }

  lemma RunsApart(s: State, t: State, wf: Id, x: Id)
    requires Apart(s.runs, t.runs, x)
    requires (x in s.runs ==> s.runs[x].wf != wf) && (x in t.runs ==> t.runs[x].wf != wf)
    ensures SameRuns(s, t, wf)
  {
  }

  lemma JobsApart(s: State, t: State, wf: Id, x: Id)
    requires Apart(s.jobs, t.jobs, x)
    requires (x in s.jobs ==> s.jobs[x].wf != wf) && (x in t.jobs ==> t.jobs[x].wf != wf)
    ensures SameJobs(s, t, wf)
  {
  }

  lemma FocusTaskElsewhere(reg: Registry, s: State, e: Step, wf: Id)
    requires RowIdsUsed(s.db, s.nextId) && RunsMatch(s) && wf in s.db.workflows
    requires Enabled(reg, s, e) && Timely(s, e) && Elsewhere(s, e, wf) && !e.Cleanup?
    ensures var x, t := TaskFocus(s, e), Apply(reg, s, e);
      (x in s.db.tasks ==> s.db.tasks[x].wf != wf) && (x in t.db.tasks ==> t.db.tasks[x].wf != wf)
  {
    if OnRun(e) {
      RunStepFrame(reg, s, e);
      if SettlesRun(e) {
        assert RunMatches(s.db, s.runs[e.run]);
      }
    } else if !OnActivities(e) {
      OtherStepFrame(reg, s, e);
    }
  }

  lemma FocusRowElsewhere(reg: Registry, s: State, e: Step, wf: Id)
    requires RowIdsUsed(s.db, s.nextId) && JobsMatch(s) && wf in s.db.workflows
    requires Enabled(reg, s, e) && Timely(s, e) && Elsewhere(s, e, wf) && !e.Cleanup?
    ensures var x, t := RowFocus(s, e), Apply(reg, s, e);
      (x in s.db.activities ==> s.db.activities[x].wf != wf) && (x in t.db.activities ==> t.db.activities[x].wf != wf)
  {
    if Settles(e) {
      assert JobMatches(s.db, s.jobs[e.job]);
    } else if OnActivities(e) {
      assert Apply(reg, s, e).db == if e.ClaimJob? then ClaimActivity(s.db, e.activity, s.now) else s.db;
    } else if !e.InsertStarted? {
      ActivitiesUntouched(reg, s, e);
    }
  }

  lemma FocusRunElsewhere(reg: Registry, s: State, e: Step, wf: Id)
    requires RowIdsUsed(s.db, s.nextId) && RunsMatch(s) && Enabled(reg, s, e) && Timely(s, e) && Elsewhere(s, e, wf)
    requires !e.Cleanup?
    ensures var x, t := RunOf(s, e), Apply(reg, s, e);
      (x in s.runs ==> s.runs[x].wf != wf) && (x in t.runs ==> t.runs[x].wf != wf)
  {
    if Works(e) {
      WorkFrame(reg, s, e);
    } else if SettlesRun(e) {
      RunSettlementTouches(reg, s, e);
    } else if OnActivities(e) {
      JobStepFrame(s, e);
    } else if !OnRun(e) {
      OthersKeepClaims(reg, s, e);
    }
  }

  lemma FocusJobElsewhere(reg: Registry, s: State, e: Step, wf: Id)
    requires JobsMatch(s) && Enabled(reg, s, e) && Timely(s, e) && Elsewhere(s, e, wf) && !e.Cleanup?
    ensures var x, t := JobFocus(s, e), Apply(reg, s, e);
      (x in s.jobs ==> s.jobs[x].wf != wf) && (x in t.jobs ==> t.jobs[x].wf != wf)
  {
    if Settles(e) {
      SettlementTouches(s, e);
    } else if !OnActivities(e) {
      ActivitiesUntouched(reg, s, e);
    }
  }

  lemma CleanupElsewhere(s: State, ids: set<Id>, wf: Id)
    requires wf in s.db.workflows && wf !in ids
    ensures Untouched(s, s.(db := DeleteWorkflows(s.db, ids), nextId := s.nextId + 2), wf)
  {
  }

  lemma ElsewhereTouchesNothing(reg: Registry, s: State, e: Step, wf: Id)
    requires RowIdsUsed(s.db, s.nextId) && RunsMatch(s) && JobsMatch(s) && wf in s.db.workflows
    requires Enabled(reg, s, e) && Timely(s, e) && Elsewhere(s, e, wf)
    ensures Untouched(s, Next(reg, s, e), wf)
  {
    if e.Cleanup? {
      CleanupElsewhere(s, e.ids, wf);
    } else {
      var t, f := Next(reg, s, e), FocusOf(s, e);
      NearStep(reg, s, e);
      ElsewhereWorkflow(reg, s, e, wf);
      FocusTaskElsewhere(reg, s, e, wf);
      FocusRowElsewhere(reg, s, e, wf);
      FocusRunElsewhere(reg, s, e, wf);
      FocusJobElsewhere(reg, s, e, wf);
      TasksApart(s, t, wf, f.task);
      RowsApart(s, t, wf, f.row);
      RunsApart(s, t, wf, f.run);
      JobsApart(s, t, wf, f.job);
    }
  }

  lemma UntouchedNotHigher(s: State, t: State, wf: Id, n: nat)
    requires Untouched(s, t, wf)
    ensures NotHigher(t, s, wf, n)
  {
    SumAtMost(TasksOf(s.db, wf), x => TaskAt(t, wf, n, x), x => TaskAt(s, wf, n, x));
    SumAtMost(RunsOf(s, wf), x => RunAt(t, wf, n, x), x => RunAt(s, wf, n, x));
    SumAtMost(RowsOf(s.db, wf), x => RowAt(t, wf, n, x), x => RowAt(s, wf, n, x));
    SumAtMost(JobsOf(s, wf), x => JobAt(t, wf, x), x => JobAt(s, wf, x));
  }

  // ---- infinite executions ----

  ghost predicate StepAt(reg: Registry, st: nat -> State, ev: nat -> Step, i: nat) {
    Enabled(reg, st(i), ev(i)) && Timely(st(i), ev(i)) && st(i + 1) == Next(reg, st(i), ev(i))
  }

  /** An endless run from the empty store in which workers settle every claim in time. */
  ghost predicate Execution(reg: Registry, st: nat -> State, ev: nat -> Step) {
    st(0) == INIT && forall i: nat :: StepAt(reg, st, ev, i)
  }

  /** From k on the workflow exists and is sent no signal. */
  ghost predicate LeftAlone(st: nat -> State, ev: nat -> Step, wf: Id, k: nat) {
    forall i: nat :: i >= k ==> LeftAloneAt(st, ev, wf, i)
  }

  ghost predicate LeftAloneAt(st: nat -> State, ev: nat -> Step, wf: Id, i: nat) {
    wf in st(i).db.workflows && !(ev(i).SendSignal? && ev(i).wf == wf)
  }

  ghost predicate ConcernsAt(st: nat -> State, ev: nat -> Step, wf: Id, i: nat) {
    Concerns(st(i), ev(i), wf)
  }

  lemma InitIsOrderly(reg: Registry)
    ensures Orderly(reg, INIT)
  {
  }

  lemma {:induction false} AlwaysOrderly(reg: Registry, st: nat -> State, ev: nat -> Step, i: nat)
    requires OwnKeys(reg) && Execution(reg, st, ev)
    ensures Orderly(reg, st(i))
  {
    if i == 0 {
      InitIsOrderly(reg);
    } else {
      AlwaysOrderly(reg, st, ev, i - 1);
      assert StepAt(reg, st, ev, i - 1);
      OrderlyStep(reg, st(i - 1), ev(i - 1));
    }
  }

  lemma RankAt(reg: Registry, st: nat -> State, ev: nat -> Step, wf: Id, n: nat, k: nat, i: nat)
    requires OwnKeys(reg) && Execution(reg, st, ev) && LeftAlone(st, ev, wf, k) && i >= k
    requires wf in st(i).db.workflows && Capped(reg, st(i).db, wf, n)
    ensures wf in st(i + 1).db.workflows && Capped(reg, st(i + 1).db, wf, n) && NotHigher(st(i + 1), st(i), wf, n)
    ensures ConcernsAt(st, ev, wf, i) ==> Lower(st(i + 1), st(i), wf, n)
  {
    AlwaysOrderly(reg, st, ev, i);
    assert StepAt(reg, st, ev, i) && LeftAloneAt(st, ev, wf, i) && LeftAloneAt(st, ev, wf, i + 1);
    WorkflowKeptStep(reg, st(i), ev(i), wf);
    if Concerns(st(i), ev(i), wf) {
      ConcernLowers(reg, st(i), ev(i), wf, n);
    } else {
      ElsewhereTouchesNothing(reg, st(i), ev(i), wf);
      UntouchedNotHigher(st(i), st(i + 1), wf, n);
    }
  }

  lemma WorkflowKeptStep(reg: Registry, s: State, e: Step, wf: Id)
    requires Valid(s) && Enabled(reg, s, e) && wf in s.db.workflows && wf in Next(reg, s, e).db.workflows
    ensures WorkflowKept(s.db.workflows[wf], Next(reg, s, e).db.workflows[wf])
  {
    if !e.Cleanup? {
      StepEvolves(reg, s, e);
    }
  }

  lemma {:induction false} RankFalls(reg: Registry, st: nat -> State, ev: nat -> Step, wf: Id, n: nat, k: nat, i: nat)
    requires OwnKeys(reg) && Execution(reg, st, ev) && LeftAlone(st, ev, wf, k) && i >= k
    requires wf in st(k).db.workflows && Capped(reg, st(k).db, wf, n)
    ensures wf in st(i).db.workflows && Capped(reg, st(i).db, wf, n) && NotHigher(st(i), st(k), wf, n)
    decreases i
  {
    if i > k {
      RankFalls(reg, st, ev, wf, n, k, i - 1);
      RankAt(reg, st, ev, wf, n, k, i - 1);
      assert LeftAloneAt(st, ev, wf, i);
    }
  }

  lemma KeptAt(reg: Registry, st: nat -> State, ev: nat -> Step, wf: Id, k: nat, i: nat)
    requires OwnKeys(reg) && Execution(reg, st, ev) && LeftAlone(st, ev, wf, k) && i >= k
    ensures wf in st(i).db.workflows && wf in st(i + 1).db.workflows
    ensures WorkflowKept(st(i).db.workflows[wf], st(i + 1).db.workflows[wf])
  {
    AlwaysOrderly(reg, st, ev, i);
    assert StepAt(reg, st, ev, i) && LeftAloneAt(st, ev, wf, i) && LeftAloneAt(st, ev, wf, i + 1);
    WorkflowKeptStep(reg, st(i), ev(i), wf);
  }

  lemma {:induction false} KeepsItsStyle(reg: Registry, st: nat -> State, ev: nat -> Step, wf: Id, n: nat, k: nat,
                                         i: nat)
    requires OwnKeys(reg) && Execution(reg, st, ev) && LeftAlone(st, ev, wf, k) && i >= k && wf in st(k).db.workflows
    ensures wf in st(i).db.workflows && WorkflowKept(st(k).db.workflows[wf], st(i).db.workflows[wf])
    decreases i
  {
    if i > k {
      KeepsItsStyle(reg, st, ev, wf, n, k, i - 1);
      KeptAt(reg, st, ev, wf, k, i - 1);
    }
  }

  ghost predicate NoMore(st: nat -> State, ev: nat -> Step, wf: Id, m: nat) {
    forall i: nat :: i >= m ==> !ConcernsAt(st, ev, wf, i)
  }

  ghost predicate Drainable(reg: Registry, db: Tables, wf: Id, n: nat) {
    wf in db.workflows && Capped(reg, db, wf, n) && Steady(reg, db, wf)
  }

  lemma StaysDrainable(reg: Registry, st: nat -> State, ev: nat -> Step, wf: Id, n: nat, k: nat, i: nat)
    requires OwnKeys(reg) && Execution(reg, st, ev) && LeftAlone(st, ev, wf, k) && i >= k
    requires Drainable(reg, st(k).db, wf, n)
    ensures Drainable(reg, st(i).db, wf, n) && |RowsOf(st(i).db, wf)| <= n
  {
    KeepsItsStyle(reg, st, ev, wf, n, k, i);
    AlwaysOrderly(reg, st, ev, i);
    RowsAtMost(reg, st(i), wf, n);
  }

  ghost predicate Ranked(s: State, wf: Id, n: nat, rows: nat, potential: nat) {
    |RowsOf(s.db, wf)| == rows && Potential(s, wf, n) == potential
  }

  /** After one more step on wf its rank is lower than it was at k. */
  lemma OneStepLower(reg: Registry, st: nat -> State, ev: nat -> Step, wf: Id, n: nat, k: nat, rows: nat,
                     potential: nat)
      returns (i: nat, rows': nat, potential': nat)
    requires OwnKeys(reg) && Execution(reg, st, ev) && LeftAlone(st, ev, wf, k) && Drainable(reg, st(k).db, wf, n)
    requires Ranked(st(k), wf, n, rows, potential) && !NoMore(st, ev, wf, k)
    ensures i > k && LeftAlone(st, ev, wf, i) && Drainable(reg, st(i).db, wf, n)
    ensures Ranked(st(i), wf, n, rows', potential') && rows' <= n
    ensures rows < rows' || (rows == rows' && potential' < potential)
  {
    var j: nat :| j >= k && ConcernsAt(st, ev, wf, j);
    i := j + 1;
    RankFalls(reg, st, ev, wf, n, k, j);
    RankAt(reg, st, ev, wf, n, k, j);
    StaysDrainable(reg, st, ev, wf, n, k, i);
    StillLeftAlone(st, ev, wf, k, i);
    rows', potential' := |RowsOf(st(i).db, wf)|, Potential(st(i), wf, n);
  }

  lemma StillLeftAlone(st: nat -> State, ev: nat -> Step, wf: Id, k: nat, i: nat)
    requires LeftAlone(st, ev, wf, k) && i >= k
    ensures LeftAlone(st, ev, wf, i)
  {
    forall j: nat | j >= i
      ensures LeftAloneAt(st, ev, wf, j)
    {
    }
  }

  lemma {:induction false} DrainsFrom(reg: Registry, st: nat -> State, ev: nat -> Step, wf: Id, n: nat, k: nat,
                                      rows: nat, potential: nat)
      returns (m: nat)
    requires OwnKeys(reg) && Execution(reg, st, ev) && LeftAlone(st, ev, wf, k) && Drainable(reg, st(k).db, wf, n)
    requires Ranked(st(k), wf, n, rows, potential)
    ensures m >= k && NoMore(st, ev, wf, m)
    decreases n - rows, potential
  {
    m := k;
    if !NoMore(st, ev, wf, k) {
      var i, rows', potential' := OneStepLower(reg, st, ev, wf, n, k, rows, potential);
      m := DrainsFrom(reg, st, ev, wf, n, i, rows', potential');
    }
  }

  /** Left alone, a workflow with a bounded await-style handler is worked on only finitely often. */
  lemma Drains(reg: Registry, st: nat -> State, ev: nat -> Step, wf: Id, n: nat, k: nat) returns (m: nat)
    requires OwnKeys(reg) && Execution(reg, st, ev) && LeftAlone(st, ev, wf, k) && Drainable(reg, st(k).db, wf, n)
    ensures m >= k && NoMore(st, ev, wf, m)
  {
    m := DrainsFrom(reg, st, ev, wf, n, k, |RowsOf(st(k).db, wf)|, Potential(st(k), wf, n));
  }

  // ---- where it ends ----

  /** Something of wf is unsettled or due to be claimed sooner or later. */
  ghost predicate Busy(s: State, wf: Id) {
    || RunsOf(s, wf) != {} || JobsOf(s, wf) != {}
    || (exists x :: x in s.db.tasks && s.db.tasks[x].wf == wf && s.db.tasks[x].status == Pending)
    || (exists a :: a in s.db.activities && s.db.activities[a].wf == wf && s.db.activities[a].status == Pending)
  }

  function Later(s: State, d: nat): State {
    s.(now := s.now + d, nextId := s.nextId + 2)
  }

  /** After d has passed, e is a step on wf that a prompt worker can take;
      a run stopped by an error counts only when no handler is registered. */
  ghost predicate IsWork(reg: Registry, s: State, d: nat, e: Step, wf: Id) {
    && Enabled(reg, Later(s, d), e) && Timely(Later(s, d), e) && Concerns(Later(s, d), e, wf)
    && (e.RunBreaks? ==> e.run in s.runs && s.runs[e.run].name !in reg)
  }

  /** There is work on a busy workflow, sooner or later. */
  lemma BusyMeansWork(reg: Registry, s: State, wf: Id)
    requires ForeignKeys(s.db) && Busy(s, wf)
    ensures exists d: nat, e :: Next(reg, s, Tick(d)) == Later(s, d) && IsWork(reg, s, d, e, wf)
  {
    var d: nat, e: Step;
    if c :| c in RunsOf(s, wf) {
      d := 0;
      e := RunIsWork(reg, s, c);
    } else if c :| c in JobsOf(s, wf) {
      d := 0;
      e := JobIsWork(reg, s, c);
    } else if x :| x in s.db.tasks && s.db.tasks[x].wf == wf && s.db.tasks[x].status == Pending {
      d, e := Max(0, s.db.tasks[x].scheduledAt - s.now), ClaimRun(x);
      PendingTaskIsWork(reg, s, x, d);
    } else {
      var a :| a in s.db.activities && s.db.activities[a].wf == wf && s.db.activities[a].status == Pending;
      d, e := Max(0, s.db.activities[a].scheduledAt - s.now), ClaimJob(a);
      PendingRowIsWork(reg, s, a, d);
    }
    TickPasses(reg, s, d);
    assert Next(reg, s, Tick(d)) == Later(s, d) && IsWork(reg, s, d, e, wf);
  }

  lemma TickPasses(reg: Registry, s: State, d: nat)
    ensures Next(reg, s, Tick(d)) == Later(s, d)
  {
  }

  lemma PendingTaskIsWork(reg: Registry, s: State, x: Id, d: nat)
    requires ForeignKeys(s.db) && x in s.db.tasks && s.db.tasks[x].status == Pending
    requires s.now + d >= s.db.tasks[x].scheduledAt
    ensures IsWork(reg, s, d, ClaimRun(x), s.db.tasks[x].wf)
  {
  }

  lemma PendingRowIsWork(reg: Registry, s: State, a: Id, d: nat)
    requires a in s.db.activities && s.db.activities[a].status == Pending && s.now + d >= s.db.activities[a].scheduledAt
    ensures IsWork(reg, s, d, ClaimJob(a), s.db.activities[a].wf)
  {
  }

  lemma JobIsWork(reg: Registry, s: State, c: Id) returns (e: Step)
    requires c in s.jobs
    ensures IsWork(reg, s, 0, e, s.jobs[c].wf)
  {
    var j := s.jobs[c];
    e := if j.result == None then JobReturns(c, Output(""))
         else if j.result.value.Output? then CompleteJob(c)
         else if Fatal(j.result.value.unrecoverable, j.attempts, j.maxAttempts) then FailJob(c, "")
         else RetryJob(c, 0, "");
  }

  lemma RunIsWork(reg: Registry, s: State, c: Id) returns (e: Step)
    requires c in s.runs
    ensures IsWork(reg, s, 0, e, s.runs[c].wf)
  {
    var r := s.runs[c];
    e := if r.outcome == Some(Fine) then CompleteRun(c)
         else if r.outcome.Some? then
           if Fatal(r.outcome.value.unrecoverable, r.attempts, r.maxAttempts) then FailRun(c, "")
             else RetryRun(c, 0, "")
         else if r.name !in reg then RunBreaks(c, true)
         else if r.history == None then LoadHistory(c)
         else if r.signals == None then LoadSignals(c)
         else if MustInsert(reg, r) then InsertStarted(c)
         else if RequestOf(reg, r).Return? then FinishWorkflow(c)
         else Advance(c);
  }

  /** Replaying on the current tables suspends on a signal key with no row. */
  ghost predicate AwaitsSignal(reg: Registry, db: Tables, wf: Id)
    requires wf in db.workflows
  {
    var w := db.workflows[wf];
    w.name in reg && exists tr ::
      Waits(db, wf, ScriptOf(reg, w.name, wf, w.input), tr)
        && ScriptOf(reg, w.name, wf, w.input)(tr[..|tr| - 1]).Receive?
  }

  ghost predicate EndState(reg: Registry, s: State, wf: Id)
    requires wf in s.db.workflows
  {
    s.db.workflows[wf].status != Active || AwaitsSignal(reg, s.db, wf)
  }

  /** A workflow with nothing left to do is over or waits for a signal. */
  lemma IdleIsEnd(reg: Registry, s: State, wf: Id)
    requires Orderly(reg, s) && wf in s.db.workflows && !Busy(s, wf) && Steady(reg, s.db, wf)
    requires s.db.workflows[wf].name in reg ==>
      FuturesStarted(ScriptOf(reg, s.db.workflows[wf].name, wf, s.db.workflows[wf].input))
    ensures EndState(reg, s, wf)
  {
    if s.db.workflows[wf].status == Active {
      assert Awake(reg, s, wf);
      NothingOpen(s, wf);
      var h := ScriptOf(reg, s.db.workflows[wf].name, wf, s.db.workflows[wf].input);
      var tr :| ParkedAt(s.db, wf, h, tr);
      ParkedWaits(s.db, wf, h, tr);
    }
  }

  lemma NothingOpen(s: State, wf: Id)
    requires Valid(s) && OneToOne(s) && wf in s.db.workflows && !Busy(s, wf)
    ensures forall x :: x in s.db.tasks && s.db.tasks[x].wf == wf ==> !Open(s.db.tasks[x].status)
    ensures forall k :: !HasOpenActivity(s.db, wf, k)
  {
    forall x | x in s.db.tasks && s.db.tasks[x].wf == wf
      ensures !Open(s.db.tasks[x].status)
    {
      OpenTaskIsBusy(s, wf, x);
    }
    forall a | a in s.db.activities && s.db.activities[a].wf == wf
      ensures !Open(s.db.activities[a].status)
    {
      OpenRowIsBusy(s, wf, a);
    }
  }

  lemma OpenTaskIsBusy(s: State, wf: Id, x: Id)
    requires RunsMatch(s) && RunsPrompt(s) && x in s.db.tasks && s.db.tasks[x].wf == wf
    ensures Open(s.db.tasks[x].status) ==> Busy(s, wf)
  {
    if s.db.tasks[x].status == Running {
      assert HasRun(s.runs, x);
      var c :| c in s.runs && s.runs[c].task == x;
      assert RunMatches(s.db, s.runs[c]);
      assert c in RunsOf(s, wf);
    }
  }

  lemma OpenRowIsBusy(s: State, wf: Id, a: Id)
    requires JobsMatch(s) && JobsPrompt(s) && a in s.db.activities && s.db.activities[a].wf == wf
    ensures Open(s.db.activities[a].status) ==> Busy(s, wf)
  {
    if s.db.activities[a].status == Running {
      assert HasJob(s.jobs, a);
      var c :| c in s.jobs && s.jobs[c].activity == a;
      assert JobMatches(s.db, s.jobs[c]);
      assert c in JobsOf(s, wf);
    }
  }

  /** Workers do not neglect wf: while it is busy, sooner or later somebody takes a step on it. */
  ghost predicate Attended(st: nat -> State, ev: nat -> Step, wf: Id) {
    forall i: nat :: Busy(st(i), wf) ==> exists j: nat :: j >= i && ConcernsAt(st, ev, wf, j)
  }

  lemma QuietIsIdle(st: nat -> State, ev: nat -> Step, wf: Id, m: nat, i: nat)
    requires Attended(st, ev, wf) && NoMore(st, ev, wf, m) && i >= m
    ensures !Busy(st(i), wf)
  {
  }

  ghost predicate EndAt(reg: Registry, st: nat -> State, wf: Id, i: nat) {
    wf in st(i).db.workflows && !Busy(st(i), wf) && EndState(reg, st(i), wf)
  }

  /** Left alone by signals but attended by workers, a workflow with a bounded await-style handler comes to rest:
      from some point on it is completed, failed, or waits for a signal that was never sent. */
  lemma ComesToRest(reg: Registry, st: nat -> State, ev: nat -> Step, wf: Id, n: nat, k: nat) returns (m: nat)
    requires OwnKeys(reg) && Execution(reg, st, ev) && LeftAlone(st, ev, wf, k) && Attended(st, ev, wf)
    requires Drainable(reg, st(k).db, wf, n)
    requires var w := st(k).db.workflows[wf]; w.name in reg ==> FuturesStarted(ScriptOf(reg, w.name, wf, w.input))
    ensures m >= k && NoMore(st, ev, wf, m) && forall i: nat :: i >= m ==> EndAt(reg, st, wf, i)
  {
    m := Drains(reg, st, ev, wf, n, k);
    forall i: nat | i >= m
      ensures EndAt(reg, st, wf, i)
    {
      KeepsItsStyle(reg, st, ev, wf, n, k, i);
      AlwaysOrderly(reg, st, ev, i);
      QuietIsIdle(st, ev, wf, m, i);
      IdleIsEnd(reg, st(i), wf);
    }
  }
}
