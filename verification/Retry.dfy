/** Retry bounds over all interleavings, holders of lost leases included. */
module Retry {
  import opened Sets
  import opened Schema
  import opened Transactions
  import opened Replay
  import opened Engine
  import opened Integrity
  import opened Frames
  import opened Lease

  // ---- activities ----

  /** Claims of the row add up to its attempts; each claim of the pending row but the first was paid for
      by a rescheduling claim with its own attempt number below max_attempts. */
  ghost predicate Budget(s: State, a: Id)
    requires a in s.db.activities
  {
    var row, retried := s.db.activities[a], Members(s.log.retried, a);
    && row.attempts == Count(s.log.due, a) + Count(s.log.stuck, a)
    && Count(s.log.due, a) + (if row.status == Pending then 1 else 0) <= 1 + |retried|
    && (forall n :: n in retried ==> 1 <= n < row.maxAttempts)
    && (forall c :: c in s.jobs && s.jobs[c].activity == a ==> s.jobs[c].attempts !in retried)
  }

  ghost predicate CountersUsed(s: State) {
    && (forall i :: i in s.log.due ==> i < s.nextId)
    && (forall i :: i in s.log.stuck ==> i < s.nextId)
    && (forall i :: i in s.log.retried ==> i < s.nextId)
    && (forall i :: i in s.log.retried ==> forall n :: n in s.log.retried[i] && i in s.db.activities ==>
         n <= s.db.activities[i].attempts)
  }

  ghost predicate Budgeted(s: State) {
    DistinctClaims(s) && CountersUsed(s) && forall a :: a in s.db.activities ==> Budget(s, a)
  }

  lemma ClaimJobBudget(s: State, a: Id)
    requires RowIdsUsed(s.db, s.nextId) && JobsMatch(s) && Budgeted(s) && Enabled(map[], s, ClaimJob(a))
    ensures Budgeted(DoClaimJob(s, a).(nextId := s.nextId + 2))
  {
    var t := DoClaimJob(s, a).(nextId := s.nextId + 2);
    ClaimedApart(s, a);
    forall b | b in t.db.activities
      ensures Budget(t, b)
    {
      ClaimedBudget(s, a, b);
    }
  }

  /** A new claim has an attempt number of its own. */
  lemma ClaimedApart(s: State, a: Id)
    requires JobsMatch(s) && Budgeted(s) && a in s.db.activities && a < s.nextId
    ensures DistinctClaims(DoClaimJob(s, a)) && CountersUsed(DoClaimJob(s, a).(nextId := s.nextId + 2))
  {
    forall c | c in s.jobs
      ensures JobMatches(s.db, s.jobs[c])
    {
    }
  }

  lemma ClaimedBudget(s: State, a: Id, b: Id)
    requires Enabled(map[], s, ClaimJob(a)) && Budget(s, a) && CountersUsed(s)
    requires b in s.db.activities && Budget(s, b)
    ensures Budget(DoClaimJob(s, a).(nextId := s.nextId + 2), b)
  {
  }

  lemma RetryJobBudget(s: State, c: Id, backoff: int, message: string)
    requires JobsMatch(s) && Budgeted(s) && Enabled(map[], s, RetryJob(c, backoff, message))
    ensures Budgeted(DoRetryJob(s, c, backoff, message).(nextId := s.nextId + 2))
  {
    var t, j := DoRetryJob(s, c, backoff, message).(nextId := s.nextId + 2), s.jobs[c];
    assert JobMatches(s.db, j);
    RetriedCounters(s, c, backoff, message);
    forall b | b in t.db.activities
      ensures Budget(t, b)
    {
      assert Budget(s, b);
      if b == j.activity {
        RetriedOnceMore(s, t, c);
      }
    }
  }

  lemma RetriedCounters(s: State, c: Id, backoff: int, message: string)
    requires c in s.jobs && c < s.nextId && JobMatches(s.db, s.jobs[c]) && s.jobs[c].activity < s.nextId
    requires DistinctClaims(s) && CountersUsed(s)
    ensures var t := DoRetryJob(s, c, backoff, message).(nextId := s.nextId + 2); DistinctClaims(t) && CountersUsed(t)
  {
  }

  lemma RetriedOnceMore(s: State, t: State, c: Id)
    requires Budgeted(s) && c in s.jobs && JobMatches(s.db, s.jobs[c]) && s.jobs[c].attempts < s.jobs[c].maxAttempts
    requires s.jobs[c].activity in s.db.activities && s.jobs[c].activity in t.db.activities
    requires var a, b := s.db.activities[s.jobs[c].activity], t.db.activities[s.jobs[c].activity];
      a.attempts == b.attempts && a.maxAttempts == b.maxAttempts
    requires t.jobs == s.jobs - {c} && t.log.due == s.log.due && t.log.stuck == s.log.stuck
    requires Members(t.log.retried, s.jobs[c].activity) ==
      Members(s.log.retried, s.jobs[c].activity) + {s.jobs[c].attempts}
    ensures Budget(t, s.jobs[c].activity)
  {
    var a := s.jobs[c].activity;
    assert Budget(s, a);
    assert |Members(s.log.retried, a) + {s.jobs[c].attempts}| == |Members(s.log.retried, a)| + 1;
  }

  /** Steps that leave the counters alone, keep every attempt number, and make no row pending. */
  lemma QuietBudget(s: State, t: State)
    requires Budgeted(s) && t.nextId >= s.nextId
    requires t.log.due == s.log.due && t.log.stuck == s.log.stuck && t.log.retried == s.log.retried
    requires forall c :: c in t.jobs ==> c in s.jobs && JobKept(s.jobs[c], t.jobs[c])
    requires forall a :: a in t.db.activities && a in s.db.activities ==>
      && t.db.activities[a].attempts == s.db.activities[a].attempts
         && t.db.activities[a].maxAttempts == s.db.activities[a].maxAttempts
      && (t.db.activities[a].status == Pending ==> s.db.activities[a].status == Pending)
    requires forall a :: a in t.db.activities && a !in s.db.activities ==>
      a == s.nextId && t.db.activities[a].attempts == 0
    requires forall c :: c in s.jobs ==> s.jobs[c].activity < s.nextId
    ensures Budgeted(t)
  {
    forall a | a in t.db.activities
      ensures Budget(t, a)
    {
      if a in s.db.activities {
        assert Budget(s, a);
      }
    }
  }

  lemma BudgetStep(reg: Registry, s: State, e: Step)
    requires RowIdsUsed(s.db, s.nextId) && JobsMatch(s) && Budgeted(s) && Enabled(reg, s, e)
    ensures Budgeted(Next(reg, s, e))
  {
    if e.Cleanup? {
      CleanupBudget(s, e.ids);
    } else if e.ClaimJob? || e.RetryJob? {
      CountedBudget(s, e);
    } else {
      OtherBudget(reg, s, e);
    }
  }

  lemma CountedBudget(s: State, e: Step)
    requires RowIdsUsed(s.db, s.nextId) && JobsMatch(s) && Budgeted(s)
    requires (e.ClaimJob? || e.RetryJob?) && JobEnabled(s, e)
    ensures Budgeted(ApplyJob(s, e).(nextId := s.nextId + 2))
  {
    if e.ClaimJob? {
      ClaimJobBudget(s, e.activity);
    } else {
      RetryJobBudget(s, e.job, e.backoff, e.message);
    }
  }

  lemma CleanupBudget(s: State, ids: set<Id>)
    requires JobsMatch(s) && Budgeted(s)
    ensures Budgeted(s.(db := DeleteWorkflows(s.db, ids), nextId := s.nextId + 2))
  {
    QuietBudget(s, s.(db := DeleteWorkflows(s.db, ids), nextId := s.nextId + 2));
  }

  lemma OtherBudget(reg: Registry, s: State, e: Step)
    requires RowIdsUsed(s.db, s.nextId) && JobsMatch(s) && Budgeted(s) && Enabled(reg, s, e)
    requires !e.ClaimJob? && !e.RetryJob? && !e.Cleanup?
    ensures Budgeted(Next(reg, s, e))
  {
    if OnActivities(e) {
      SettledOrReturned(reg, s, e);
    } else {
      ActivitiesUntouched(reg, s, e);
    }
    CountersKept(reg, s, e);
    QuietBudget(s, Next(reg, s, e));
  }

  /** The job steps that neither claim nor reschedule make no row pending and no attempt. */
  lemma SettledOrReturned(reg: Registry, s: State, e: Step)
    requires OnActivities(e) && JobEnabled(s, e) && !e.ClaimJob? && !e.RetryJob?
    ensures var t := ApplyJob(s, e);
      && (forall c :: c in t.jobs ==> c in s.jobs && JobKept(s.jobs[c], t.jobs[c]))
      && t.db.activities.Keys == s.db.activities.Keys
      && forall a :: a in s.db.activities ==>
           && t.db.activities[a].attempts == s.db.activities[a].attempts
              && t.db.activities[a].maxAttempts == s.db.activities[a].maxAttempts
           && (t.db.activities[a].status == Pending ==> s.db.activities[a].status == Pending)
  {
  }

  ghost predicate Accounted(s: State) {
    Valid(s) && Budgeted(s)
  }

  lemma AccountedStep(reg: Registry, s: State, e: Step)
    requires Accounted(s) && Enabled(reg, s, e)
    ensures Accounted(Next(reg, s, e))
  {
    ValidStep(reg, s, e);
    BudgetStep(reg, s, e);
  }

  lemma AlwaysAccounted(reg: Registry, es: seq<Step>)
    requires Runs(reg, INIT, es)
    ensures Accounted(After(reg, INIT, es))
  {
    forall t: State, e: Step | Accounted(t) && Enabled(reg, t, e)
      ensures Accounted(Next(reg, t, e))
    {
      AccountedStep(reg, t, e);
    }
    InductionOverRuns(reg, INIT, es, s => Accounted(s));
  }

  /** No activity is ever attempted more than max(1, max_attempts) times plus the number of times it was re-claimed
      as stuck. */
  lemma ActivityRetriesBounded(reg: Registry, es: seq<Step>, a: Id)
    requires Runs(reg, INIT, es) && a in After(reg, INIT, es).db.activities
    ensures var s := After(reg, INIT, es);
      s.db.activities[a].attempts <= Max(1, s.db.activities[a].maxAttempts) + Count(s.log.stuck, a)
  {
    AlwaysAccounted(reg, es);
    var s := After(reg, INIT, es);
    assert Budget(s, a);
    SizeInRange(Members(s.log.retried, a), s.db.activities[a].maxAttempts);
  }
}
