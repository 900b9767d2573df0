/** How often a workflow is attempted, over all interleavings, and when its limit is passed. */
module Attempts {
  import opened Sets
  import opened Schema
  import opened Replay
  import opened Engine
  import opened Integrity
  import opened Frames
  import opened Growth

  /** Unsettled claims that may still reschedule their task. */
  function Eligible(s: State, wf: Id): set<Id> {
    set c | c in s.runs && s.runs[c].wf == wf && s.runs[c].attempts < s.runs[c].maxAttempts
  }

  /** Along the run, never more than k claims on tasks of wf are unsettled at once. */
  ghost predicate AtMost(reg: Registry, s: State, es: seq<Step>, wf: Id, k: nat)
    requires Runs(reg, s, es)
    decreases |es|
  {
    |RunsOf(s, wf)| <= k && (es != [] ==> AtMost(reg, Next(reg, s, es[0]), es[1..], wf, k))
  }

  /** What max_attempts m allows with k claims at a time. */
  function Allowed(m: nat, k: nat): int {
    if m <= 1 then 1 else m - 1 + k
  }

  ghost predicate WithinBudget(s: State, wf: Id, k: nat) {
    wf in s.db.workflows ==>
      && s.db.workflows[wf].attempts >= 1 && (forall c :: c in RunsOf(s, wf) ==> s.runs[c].attempts >= 1)
      && s.db.workflows[wf].attempts + |Eligible(s, wf)| <= Allowed(s.db.workflows[wf].maxAttempts, k)
  }

  lemma ClaimRunBudget(s: State, task: Id, wf: Id, k: nat)
    requires RunsMatch(s) && Enabled(map[], s, ClaimRun(task)) && WithinBudget(s, wf, k)
    requires |RunsOf(DoClaimRun(s, task), wf)| <= k
    ensures WithinBudget(DoClaimRun(s, task), wf, k)
  {
    var t := DoClaimRun(s, task);
    if wf in t.db.workflows {
      if s.db.tasks[task].wf == wf && s.db.workflows[wf].attempts < s.db.workflows[wf].maxAttempts {
        SubsetSize(Eligible(t, wf), RunsOf(t, wf));
      } else {
        assert Eligible(t, wf) == Eligible(s, wf);
      }
    }
  }

  lemma RetryRunBudget(s: State, c: Id, backoff: int, message: string, wf: Id, k: nat)
    requires RunsMatch(s) && Enabled(map[], s, RetryRun(c, backoff, message)) && WithinBudget(s, wf, k)
    ensures WithinBudget(DoRetryRun(s, c, backoff, message), wf, k)
  {
    var t, r := DoRetryRun(s, c, backoff, message), s.runs[c];
    assert RunMatches(s.db, r);
    if r.wf == wf {
      assert c in Eligible(s, wf);
      assert Eligible(t, wf) == Eligible(s, wf) - {c};
    } else {
      assert Eligible(t, wf) == Eligible(s, wf);
    }
  }

  lemma EnqueueBudget(s: State, key: string, name: string, input: Value, options: Options, wf: Id, k: nat)
    requires RunsMatch(s) && WithinBudget(s, wf, k) && k >= 1
    ensures WithinBudget(DoEnqueue(s, key, name, input, options), wf, k)
  {
    var t := DoEnqueue(s, key, name, input, options);
    assert Eligible(t, wf) == Eligible(s, wf);
    if wf == s.nextId {
      assert Eligible(s, wf) == {};
    }
  }

  /** Steps that add no claim and no attempt. */
  lemma QuietRunBudget(s: State, t: State, wf: Id, k: nat)
    requires WithinBudget(s, wf, k)
    requires forall c :: c in t.runs ==> c in s.runs && RunKept(s.runs[c], t.runs[c])
    requires wf in t.db.workflows ==>
      wf in s.db.workflows && t.db.workflows[wf].attempts == s.db.workflows[wf].attempts
        && t.db.workflows[wf].maxAttempts == s.db.workflows[wf].maxAttempts
    ensures WithinBudget(t, wf, k)
  {
    assert Eligible(t, wf) <= Eligible(s, wf);
    SubsetSize(Eligible(t, wf), Eligible(s, wf));
  }

  /** Only rescheduling changes the attempts of a workflow. */
  lemma WorkflowAttemptsKept(reg: Registry, s: State, e: Step, wf: Id)
    requires Enabled(reg, s, e) && !e.Enqueue? && !e.RetryRun? && wf in Apply(reg, s, e).db.workflows
    ensures var t := Apply(reg, s, e);
      && wf in s.db.workflows && t.db.workflows[wf].attempts == s.db.workflows[wf].attempts
      && t.db.workflows[wf].maxAttempts == s.db.workflows[wf].maxAttempts
  {
    if OnRun(e) {
      RunWorkflows(reg, s, e);
    } else if OnActivities(e) {
      JobWorkflows(s, e);
    }
  }

  lemma WithinBudgetStep(reg: Registry, s: State, e: Step, wf: Id, k: nat)
    requires RunsMatch(s) && Enabled(reg, s, e) && WithinBudget(s, wf, k) && k >= 1
    requires |RunsOf(Next(reg, s, e), wf)| <= k
    ensures WithinBudget(Next(reg, s, e), wf, k)
  {
    var t := Apply(reg, s, e);
    assert RunsOf(t, wf) == RunsOf(Next(reg, s, e), wf) && Eligible(t, wf) == Eligible(Next(reg, s, e), wf);
    if e.Enqueue? {
      EnqueueBudget(s, e.key, e.name, e.input, e.options, wf, k);
    } else if e.ClaimRun? {
      ClaimRunBudget(s, e.task, wf, k);
    } else if e.RetryRun? {
      RetryRunBudget(s, e.run, e.backoff, e.message, wf, k);
    } else {
      if wf in t.db.workflows {
        WorkflowAttemptsKept(reg, s, e, wf);
      }
      ClaimsKept(reg, s, e);
      QuietRunBudget(s, t, wf, k);
    }
  }

  lemma {:induction false} BudgetOverRuns(reg: Registry, s: State, es: seq<Step>, wf: Id, k: nat)
    requires Valid(s) && Runs(reg, s, es) && AtMost(reg, s, es, wf, k) && k >= 1 && WithinBudget(s, wf, k)
    ensures WithinBudget(After(reg, s, es), wf, k)
    decreases |es|
  {
    if es != [] {
      ValidStep(reg, s, es[0]);
      WithinBudgetStep(reg, s, es[0], wf, k);
      BudgetOverRuns(reg, Next(reg, s, es[0]), es[1..], wf, k);
    }
  }

  /** With at most k claims on its tasks unsettled at once, a workflow's attempts never exceed max_attempts - 1 + k,
      which is max_attempts itself when its tasks run one at a time; and with max_attempts 0 or 1 they stay 1. */
  lemma WorkflowRetriesBounded(reg: Registry, es: seq<Step>, wf: Id, k: nat)
    requires Runs(reg, INIT, es) && k >= 1 && AtMost(reg, INIT, es, wf, k)
    requires wf in After(reg, INIT, es).db.workflows
    ensures var w := After(reg, INIT, es).db.workflows[wf]; 1 <= w.attempts <= Allowed(w.maxAttempts, k)
  {
    BudgetOverRuns(reg, INIT, es, wf, k);
  }

  // ---- what counts as an attempt ----

  /** The step reschedules a task of wf. */
  predicate Reschedules(s: State, e: Step, wf: Id) {
    e.RetryRun? && e.run in s.runs && s.runs[e.run].wf == wf
  }

  ghost function Reschedulings(reg: Registry, s: State, es: seq<Step>, wf: Id): nat
    requires Runs(reg, s, es)
    decreases |es|
  {
    if es == [] then 0
    else (if Reschedules(s, es[0], wf) then 1 else 0) + Reschedulings(reg, Next(reg, s, es[0]), es[1..], wf)
  }

  function AttemptsOf(s: State, wf: Id): nat {
    if wf in s.db.workflows then s.db.workflows[wf].attempts else 1
  }

  lemma AttemptsStep(reg: Registry, s: State, e: Step, wf: Id)
    requires RowIdsUsed(s.db, s.nextId) && RunsMatch(s) && Enabled(reg, s, e) && wf in Next(reg, s, e).db.workflows
    ensures AttemptsOf(Next(reg, s, e), wf) == AttemptsOf(s, wf) + if Reschedules(s, e, wf) then 1 else 0
    ensures wf in s.db.workflows || wf == s.nextId
  {
    if e.RetryRun? {
      assert RunMatches(s.db, s.runs[e.run]);
    } else if !e.Enqueue? {
      WorkflowAttemptsKept(reg, s, e, wf);
    }
  }

  /** Before the workflow exists nobody reschedules its tasks. */
  lemma {:induction false} ReschedulingsCount(reg: Registry, s: State, es: seq<Step>, wf: Id)
    requires Valid(s) && Runs(reg, s, es) && wf in After(reg, s, es).db.workflows
    requires (wf in s.db.workflows || wf >= s.nextId)
    ensures AttemptsOf(After(reg, s, es), wf) == AttemptsOf(s, wf) + Reschedulings(reg, s, es, wf)
    decreases |es|
  {
    if es != [] {
      var t := Next(reg, s, es[0]);
      ValidStep(reg, s, es[0]);
      if wf in t.db.workflows {
        AttemptsStep(reg, s, es[0], wf);
      } else {
        NotThereYet(reg, t, es[1..], wf);
        StillNotThere(reg, s, es[0], wf);
      }
      ReschedulingsCount(reg, t, es[1..], wf);
    }
  }

  /** A workflow that is there after a run, but not before it, has an id that was not used before. */
  lemma NotThereYet(reg: Registry, s: State, es: seq<Step>, wf: Id)
    requires Valid(s) && Runs(reg, s, es) && wf !in s.db.workflows && wf in After(reg, s, es).db.workflows
    ensures wf >= s.nextId
  {
    if wf < s.nextId {
      WasThere(reg, s, es, wf);
    }
  }

  lemma StillNotThere(reg: Registry, s: State, e: Step, wf: Id)
    requires Valid(s) && Enabled(reg, s, e) && wf >= s.nextId
    ensures wf !in s.db.workflows && !Reschedules(s, e, wf)
  {
  }

  /** A workflow's attempts are 1 plus the number of times a task of it was rescheduled:
      claims, re-claims of stuck tasks and wake-ups cost none. */
  lemma AttemptsAreReschedulings(reg: Registry, es: seq<Step>, wf: Id)
    requires Runs(reg, INIT, es) && wf in After(reg, INIT, es).db.workflows
    ensures After(reg, INIT, es).db.workflows[wf].attempts == 1 + Reschedulings(reg, INIT, es, wf)
  {
    ReschedulingsCount(reg, INIT, es, wf);
  }

  // ---- when the limit is passed ----

  /** A step takes a workflow past its limit exactly when it reschedules on a claim from before the last attempt
      that has meanwhile been used up. */
  lemma ExceedsIff(reg: Registry, s: State, e: Step, wf: Id)
    requires RowIdsUsed(s.db, s.nextId) && RunsMatch(s) && Enabled(reg, s, e)
    requires wf in s.db.workflows && wf in Next(reg, s, e).db.workflows
    requires s.db.workflows[wf].attempts <= s.db.workflows[wf].maxAttempts
    ensures var w, v := s.db.workflows[wf], Next(reg, s, e).db.workflows[wf];
      v.attempts > v.maxAttempts <==> Reschedules(s, e, wf) && s.runs[e.run].attempts < w.attempts == w.maxAttempts
  {
    if e.RetryRun? {
      assert RunMatches(s.db, s.runs[e.run]);
    } else if !e.Enqueue? {
      WorkflowAttemptsKept(reg, s, e, wf);
    }
  }
}
