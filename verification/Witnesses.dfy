/** Runs from the empty store that show what the engine can do: the attempt bound is reached for every limit,
    completed and failed are not final, and a handler that goes on after a refused insert sleeps for ever. */
module Witnesses {
  import opened Schema
  import opened Transactions
  import opened Replay
  import opened Engine
  import opened Integrity
  import opened Wakeup
  import opened Lease
  import opened Attempts
  import opened Handlers

  // ---- the attempt bound is reached ----

  /** s can be reached with never more than k claims of wf open. */
  ghost predicate Affords(reg: Registry, s: State, wf: Id, k: nat) {
    exists es: seq<Step> :: Runs(reg, INIT, es) && After(reg, INIT, es) == s && AtMost(reg, INIT, es, wf, k)
  }

  lemma {:induction false} AtMostLonger(reg: Registry, s: State, es: seq<Step>, e: Step, wf: Id, k: nat)
    requires Runs(reg, s, es) && AtMost(reg, s, es, wf, k) && Enabled(reg, After(reg, s, es), e)
    requires |RunsOf(Next(reg, After(reg, s, es), e), wf)| <= k
    ensures Runs(reg, s, es + [e]) && AtMost(reg, s, es + [e], wf, k)
    decreases |es|
  {
    OneMoreStep(reg, s, es, e);
    if es == [] {
      assert [e][1..] == [] && es + [e] == [e];
      assert AtMost(reg, Next(reg, s, e), [], wf, k);
    } else {
      assert (es + [e])[1..] == es[1..] + [e];
      AtMostLonger(reg, Next(reg, s, es[0]), es[1..], e, wf, k);
    }
  }

  lemma AffordsStep(reg: Registry, s: State, e: Step, wf: Id, k: nat)
    requires Affords(reg, s, wf, k) && Enabled(reg, s, e) && |RunsOf(Next(reg, s, e), wf)| <= k
    ensures Affords(reg, Next(reg, s, e), wf, k)
  {
    var es: seq<Step> :| Runs(reg, INIT, es) && After(reg, INIT, es) == s && AtMost(reg, INIT, es, wf, k);
    OneMoreStep(reg, INIT, es, e);
    AtMostLonger(reg, INIT, es, e, wf, k);
  }

  /** Workflow 0 has the given limit and attempts, its task 1 can be claimed, and i claims of it are open,
      all of them failing and with recorded attempts b. */
  ghost predicate Claims(s: State, limit: nat, attempts: nat, b: nat, i: nat) {
    && 0 in s.db.workflows && s.db.workflows[0].maxAttempts == limit && s.db.workflows[0].attempts == attempts
    && 1 in s.db.tasks && s.db.tasks[1].wf == 0 && s.db.tasks[1].stuckTimeout == 0 && TaskReady(s.db.tasks[1], s.now)
    && |s.runs.Keys| == i
    && forall c :: c in s.runs ==> c < s.nextId && FailingClaim(s.runs[c], limit, b)
  }

  predicate FailingClaim(r: Run, limit: nat, b: nat) {
    r.wf == 0 && r.task == 1 && r.attempts == b && r.maxAttempts == limit && r.outcome == Some(Broken(false))
  }

  lemma AllOfOne(s: State)
    requires forall c :: c in s.runs ==> s.runs[c].wf == 0
    ensures RunsOf(s, 0) == s.runs.Keys
  {
  }

  /** Task 1 is claimed once more, even while it is running, and the claim fails. */
  lemma ClaimAndBreak(reg: Registry, s: State, limit: nat, a: nat, i: nat, k: nat) returns (t: State)
    requires Affords(reg, s, 0, k) && Claims(s, limit, a, a, i) && i < k
    ensures Affords(reg, t, 0, k) && Claims(t, limit, a, a, i + 1)
  {
    var mid := Claimed(s, limit, a);
    ClaimIs(reg, s, limit, a, i);
    OneMoreClaim(s, limit, a, i);
    AffordsStep(reg, s, ClaimRun(1), 0, k);
    t := BrokenClaim(mid, s.nextId);
    BreakIs(reg, mid, s.nextId);
    ClaimBreaks(mid, limit, a, i, s.nextId);
    AffordsStep(reg, mid, RunBreaks(s.nextId, false), 0, k);
  }

  /** The same with one claim c more, on which nothing has happened yet. */
  ghost predicate ClaimsAnd(s: State, limit: nat, a: nat, i: nat, c: Id) {
    c in s.runs && c < s.nextId
      && s.runs[c] == Run(1, 0, s.runs[c].name, s.runs[c].input, a, limit, None, None, [], None)
    && Claims(s.(runs := s.runs - {c}), limit, a, a, i)
  }

  lemma OneMoreClaim(s: State, limit: nat, a: nat, i: nat)
    requires Claims(s, limit, a, a, i)
    ensures ClaimsAnd(Claimed(s, limit, a), limit, a, i, s.nextId) && |RunsOf(Claimed(s, limit, a), 0)| == i + 1
  {
    var mid := Claimed(s, limit, a);
    assert s.nextId !in s.runs && mid.runs.Keys == s.runs.Keys + {s.nextId};
    assert mid.runs - {s.nextId} == s.runs;
    AllOfOne(mid);
    ClaimedAgain(s, limit, a, i);
  }

  function Claimed(s: State, limit: nat, a: nat): State
    requires 0 in s.db.workflows && 1 in s.db.tasks
  {
    var w := s.db.workflows[0];
    s.(db := ClaimTask(s.db, 1, s.now), nextId := s.nextId + 2,
       runs := s.runs[s.nextId := Run(1, 0, w.name, w.input, a, limit, None, None, [], None)])
  }

  lemma ClaimIs(reg: Registry, s: State, limit: nat, a: nat, i: nat)
    requires Claims(s, limit, a, a, i)
    ensures Enabled(reg, s, ClaimRun(1)) && Next(reg, s, ClaimRun(1)) == Claimed(s, limit, a)
  {
  }

  /** A claim leaves the task claimable, as its lease is over at once. */
  lemma ClaimedAgain(s: State, limit: nat, a: nat, i: nat)
    requires Claims(s, limit, a, a, i)
    ensures Claims(s.(db := ClaimTask(s.db, 1, s.now), nextId := s.nextId + 2), limit, a, a, i)
  {
  }

  function BrokenClaim(s: State, c: Id): State
    requires c in s.runs
  {
    s.(runs := s.runs[c := s.runs[c].(outcome := Some(Broken(false)))], nextId := s.nextId + 2)
  }

  lemma BreakIs(reg: Registry, s: State, c: Id)
    requires c in s.runs && s.runs[c].outcome == None
    ensures Enabled(reg, s, RunBreaks(c, false)) && Next(reg, s, RunBreaks(c, false)) == BrokenClaim(s, c)
  {
  }

  lemma ClaimBreaks(s: State, limit: nat, a: nat, i: nat, c: Id)
    requires ClaimsAnd(s, limit, a, i, c)
    ensures Claims(BrokenClaim(s, c), limit, a, a, i + 1) && |RunsOf(BrokenClaim(s, c), 0)| == i + 1
  {
    var t := BrokenClaim(s, c);
    assert t.runs.Keys == (s.runs - {c}).Keys + {c};
    AllOfOne(t);
  }

  /** One of the claims reschedules the task. */
  lemma RescheduleOne(reg: Registry, s: State, limit: nat, a: nat, b: nat, i: nat, k: nat) returns (t: State)
    requires Affords(reg, s, 0, k) && Claims(s, limit, a, b, i) && 0 < i <= k && b < limit
    ensures Affords(reg, t, 0, k) && Claims(t, limit, a + 1, b, i - 1)
  {
    assert s.runs.Keys != {};
    var c :| c in s.runs;
    t := Next(reg, s, RetryRun(c, 0, ""));
    assert t.runs.Keys == s.runs.Keys - {c};
    AllOfOne(t);
    AffordsStep(reg, s, RetryRun(c, 0, ""), 0, k);
  }

  lemma {:induction false} OneAtATime(reg: Registry, s: State, limit: nat, a: nat, k: nat) returns (t: State)
    requires Affords(reg, s, 0, k) && Claims(s, limit, a, a, 0) && k >= 1 && a < limit
    ensures Affords(reg, t, 0, k) && Claims(t, limit, limit - 1, limit - 1, 0)
    decreases limit - a
  {
    if a == limit - 1 {
      t := s;
    } else {
      var mid := ClaimAndBreak(reg, s, limit, a, 0, k);
      mid := RescheduleOne(reg, mid, limit, a, a, 1, k);
      assert mid.runs.Keys == {};
      t := OneAtATime(reg, mid, limit, a + 1, k);
    }
  }

  lemma {:induction false} ManyClaims(reg: Registry, s: State, limit: nat, a: nat, i: nat, k: nat) returns (t: State)
    requires Affords(reg, s, 0, k) && Claims(s, limit, a, a, i) && i <= k
    ensures Affords(reg, t, 0, k) && Claims(t, limit, a, a, k)
    decreases k - i
  {
    t := s;
    if i < k {
      t := ClaimAndBreak(reg, s, limit, a, i, k);
      t := ManyClaims(reg, t, limit, a, i + 1, k);
    }
  }

  lemma {:induction false} ManyReschedulings(reg: Registry, s: State, limit: nat, a: nat, b: nat, i: nat, k: nat)
      returns (t: State)
    requires Affords(reg, s, 0, k) && Claims(s, limit, a, b, i) && i <= k && b < limit
    ensures Affords(reg, t, 0, k) && Claims(t, limit, a + i, b, 0)
    decreases i
  {
    t := s;
    if i > 0 {
      t := RescheduleOne(reg, s, limit, a, b, i, k);
      t := ManyReschedulings(reg, t, limit, a + 1, b, i - 1, k);
    }
  }

  lemma FirstEnqueue(reg: Registry, name: string, input: Value, limit: nat, k: nat) returns (s: State)
    requires k >= 1
    ensures Affords(reg, s, 0, k) && Claims(s, limit, 1, 1, 0)
  {
    var e := Enqueue("", name, input, Options(0, limit, 0, 0));
    assert Runs(reg, INIT, []) && After(reg, INIT, []) == INIT;
    assert RunsOf(INIT, 0) == {} && AtMost(reg, INIT, [], 0, k);
    s := Next(reg, INIT, e);
    FirstState(reg, name, input, Options(0, limit, 0, 0));
    assert s.runs.Keys == {};
    AllOfOne(s);
    AffordsStep(reg, INIT, e, 0, k);
  }

  /** The tables after the first enqueue. */
  function FirstTables(name: string, input: Value, options: Options): Tables {
    Tables(
      map[0 := NewWorkflow("", name, input, options, 0)],
      map[1 := Task(0, name, Pending, options.priority, options.stuckTimeout, options.scheduledAt, None, None, None)],
      map[], map[])
  }

  lemma FirstState(reg: Registry, name: string, input: Value, options: Options)
    ensures var s := Next(reg, INIT, Enqueue("", name, input, options));
      s.db == FirstTables(name, input, options) && s.now == 0 && s.nextId == 2 && s.runs == map[] && s.jobs == map[]
  {
  }

  /** For every limit and every k there is a run with at most k claims open at once that reaches the bound. */
  lemma AttemptBoundIsReached(reg: Registry, limit: nat, k: nat) returns (es: seq<Step>, wf: Id)
    requires k >= 1
    ensures Runs(reg, INIT, es) && AtMost(reg, INIT, es, wf, k) && wf in After(reg, INIT, es).db.workflows
    ensures var w := After(reg, INIT, es).db.workflows[wf]; w.maxAttempts == limit && w.attempts == Allowed(limit, k)
  {
    var s := FirstEnqueue(reg, "", "", limit, k);
    if limit >= 2 {
      s := OneAtATime(reg, s, limit, 1, k);
      s := ManyClaims(reg, s, limit, limit - 1, 0, k);
      s := ManyReschedulings(reg, s, limit, limit - 1, limit - 1, k, k);
    }
    wf := 0;
    es :| Runs(reg, INIT, es) && After(reg, INIT, es) == s && AtMost(reg, INIT, es, wf, k);
  }

  /** The documented limit is passed as soon as two claims of a retried workflow can be open at once. */
  lemma LimitIsPassed(reg: Registry, limit: nat) returns (es: seq<Step>, wf: Id)
    requires limit >= 2
    ensures Runs(reg, INIT, es) && wf in After(reg, INIT, es).db.workflows
    ensures var w := After(reg, INIT, es).db.workflows[wf]; w.maxAttempts == limit && w.attempts > limit
  {
    es, wf := AttemptBoundIsReached(reg, limit, 2);
  }

  // ---- one run of a handler ----

  /** What every step keeps. Lemmas about single steps are stated for any such property;
      being reachable is one. */
  ghost predicate Kept(reg: Registry, reach: State -> bool) {
    forall s: State, e: Step :: reach(s) && Enabled(reg, s, e) ==> reach(Next(reg, s, e))
  }

  lemma Goes(reg: Registry, reach: State -> bool, s: State, e: Step) returns (t: State)
    requires Kept(reg, reach) && reach(s) && Enabled(reg, s, e)
    ensures t == Next(reg, s, e) && reach(t)
  {
    t := Next(reg, s, e);
  }

  lemma ReachableIsKept(reg: Registry, reach: State -> bool)
    requires forall s :: reach(s) <==> Reachable(reg, s)
    ensures Kept(reg, reach) && reach(INIT)
  {
    assert Runs(reg, INIT, []) && After(reg, INIT, []) == INIT;
    forall s: State, e: Step | reach(s) && Enabled(reg, s, e)
      ensures reach(Next(reg, s, e))
    {
      ReachableStep(reg, s, e);
    }
  }

  lemma NoEvents(db: Tables, wf: Id)
    requires db.activities == map[] && db.signals == map[]
    ensures History(db, wf) == map[] && Signals(db, wf) == map[]
  {
  }

  function LoadedRun(name: string, input: Value, limit: nat): Run {
    Run(1, 0, name, input, 1, limit, Some(map[]), Some(map[]), [], None)
  }

  /** Nothing but workflow 0, whose first claim has loaded its events, of which there are none. */
  ghost predicate FirstLoaded(s: State, name: string, input: Value, options: Options) {
    && s.now == 0 && s.nextId == 8 && s.jobs == map[]
    && s.db == ClaimTask(FirstTables(name, input, options), 1, 0)
    && s.runs == map[2 := LoadedRun(name, input, options.maxAttempts)]
  }

  lemma LoadsNothing(reg: Registry, s: State, r: Run)
    requires s.runs == map[2 := r] && r.history == None && r.signals == None && r.outcome == None && r.name in reg
    requires s.db.activities == map[] && s.db.signals == map[]
    ensures Enabled(reg, s, LoadHistory(2)) && Enabled(reg, Next(reg, s, LoadHistory(2)), LoadSignals(2))
    ensures Next(reg, Next(reg, s, LoadHistory(2)), LoadSignals(2))
      == s.(runs := map[2 := r.(history := Some(map[]), signals := Some(map[]))], nextId := s.nextId + 4)
  {
    NoEvents(s.db, r.wf);
  }

  lemma FirstRun(reg: Registry, reach: State -> bool, name: string, input: Value, options: Options) returns (s: State)
    requires Kept(reg, reach) && reach(INIT) && name in reg && options.scheduledAt <= 0
    ensures reach(s) && FirstLoaded(s, name, input, options)
  {
    FirstState(reg, name, input, options);
    s := Goes(reg, reach, INIT, Enqueue("", name, input, options));
    FirstClaimed(reg, s, name, input, options);
    s := Goes(reg, reach, s, ClaimRun(1));
    LoadsNothing(reg, s, s.runs[2]);
    s := Goes(reg, reach, s, LoadHistory(2));
    s := Goes(reg, reach, s, LoadSignals(2));
  }

  lemma FirstClaimed(reg: Registry, s: State, name: string, input: Value, options: Options)
    requires s.db == FirstTables(name, input, options) && s.now == 0 && s.nextId == 2 && s.runs == map[]
    requires s.jobs == map[]
    requires options.scheduledAt <= 0
    ensures Enabled(reg, s, ClaimRun(1))
    ensures var t := Next(reg, s, ClaimRun(1));
      && t.now == 0 && t.nextId == 4 && t.jobs == map[] && t.db == ClaimTask(FirstTables(name, input, options), 1, 0)
      && t.runs == map[2 := Run(1, 0, name, input, 1, options.maxAttempts, None, None, [], None)]
  {
  }

  // ---- a wake-up lost by going on after a refused insert ----

  function Only(h: Script): Registry {
    map["" := (wf: Id, input: Value) => h]
  }

  /** The insert is refused, and the handler suspends on the future all the same. */
  lemma HeedlessRun(reg: Registry, reach: State -> bool, s: State, call: Call, options: Options) returns (t: State)
    requires reg == Only(Heedless(call)) && Kept(reg, reach) && reach(s) && FirstLoaded(s, "", "", options)
    ensures reach(t) && t.now == s.now && t.db == s.db && t.jobs == map[]
    ensures t.runs
      == map[2 := LoadedRun("", "", options.maxAttempts).(answers := [Refused, NotYet], outcome := Some(Fine))]
  {
    var r := LoadedRun("", "", options.maxAttempts);
    var r1, r2 := r.(answers := [Refused]), r.(answers := [Refused, NotYet]);
    assert r.answers + [Refused] == r1.answers && r1.answers + [NotYet] == r2.answers;
    RefuseIs(reg, s, r, call);
    t := Goes(reg, reach, s, RefuseInsert(2));
    AdvanceIs(reg, t, r1, NotYet);
    t := Goes(reg, reach, t, Advance(2));
    SuspendIs(reg, t, r2);
    t := Goes(reg, reach, t, Advance(2));
  }

  /** The next state, with r as the only run. */
  function With(s: State, r: Run): State {
    s.(runs := map[2 := r], nextId := s.nextId + 2)
  }

  lemma RefuseIs(reg: Registry, s: State, r: Run, call: Call)
    requires s.runs == map[2 := r] && Advancing(reg, s, 2) && RequestOf(reg, r) == Start(call)
    requires call.key !in r.history.value
    ensures Enabled(reg, s, RefuseInsert(2))
    ensures Next(reg, s, RefuseInsert(2)) == With(s, r.(answers := r.answers + [Refused]))
  {
  }

  lemma AdvanceIs(reg: Registry, s: State, r: Run, a: Answer)
    requires s.runs == map[2 := r] && Advancing(reg, s, 2) && RequestOf(reg, r).Asks() && !MustInsert(reg, r)
    requires a == Reply(RequestOf(reg, r), r.history.value, r.signals.value)
    ensures Enabled(reg, s, Advance(2)) && Next(reg, s, Advance(2)) == With(s, r.(answers := r.answers + [a]))
  {
  }

  lemma SuspendIs(reg: Registry, s: State, r: Run)
    requires s.runs == map[2 := r] && Advancing(reg, s, 2) && RequestOf(reg, r) == Suspend
    ensures Enabled(reg, s, Advance(2)) && Next(reg, s, Advance(2)) == With(s, r.(outcome := Some(Fine)))
  {
  }

  /** Nothing is open and nobody holds a claim: only an enqueue, a signal, a cleanup or the clock can still step. */
  ghost predicate Asleep(reg: Registry, s: State) {
    forall d: nat, e: Step :: OnRun(e) || OnActivities(e) ==> !Enabled(reg, Waited(s, d), e)
  }

  function Waited(s: State, d: nat): State {
    s.(now := s.now + d)
  }

  lemma HeedlessEmpty(call: Call, tr: seq<Answer>, db: Tables, wf: Id)
    requires db.activities == map[] && db.signals == map[]
    ensures !Waits(db, wf, Heedless(call), tr)
  {
    NoEvents(db, wf);
    if Trace(Heedless(call), map[], map[], tr) && Heedless(call)(tr) == Suspend {
      assert Answered(Heedless(call), map[], map[], tr, 0);
      assert tr[..|tr| - 1] != [];
    }
  }

  /** Without RaisesRefused a wake-up can be lost: a handler that propagates suspension but ignores the error of a start
      can end up running, with no open task and nothing coming, and no worker will ever touch it again. */
  lemma RefusalStrands(call: Call) returns (s: State)
    ensures var reg := Only(Heedless(call)); Reachable(reg, s) && Asleep(reg, s)
    ensures 0 in s.db.workflows && s.db.workflows[0].status == Active && !HasOpenTask(s.db, 0)
    ensures Stranded(s.db, 0, Heedless(call), [Refused, NotYet])
    ensures forall tr :: !Waits(s.db, 0, Heedless(call), tr)
  {
    var reg := Only(Heedless(call));
    var reach := s => Reachable(reg, s);
    ReachableIsKept(reg, reach);
    s := HeedlessSleep(reg, reach, call);
    HeedlessStranded(s.db, call);
    forall tr
      ensures !Waits(s.db, 0, Heedless(call), tr)
    {
      HeedlessEmpty(call, tr, s.db, 0);
    }
  }

  lemma HeedlessSleep(reg: Registry, reach: State -> bool, call: Call) returns (s: State)
    requires reg == Only(Heedless(call)) && Kept(reg, reach) && reach(INIT)
    ensures reach(s) && Asleep(reg, s) && !HasOpenTask(s.db, 0) && s.db.activities == map[] && s.db.signals == map[]
    ensures 0 in s.db.workflows && s.db.workflows[0].status == Active
  {
    s := FirstRun(reg, reach, "", "", Options(0, 1, 0, 0));
    s := HeedlessRun(reg, reach, s, call, Options(0, 1, 0, 0));
    SleepsForGood(reg, s, Options(0, 1, 0, 0));
    s := Goes(reg, reach, s, CompleteRun(2));
  }

  lemma SleepsForGood(reg: Registry, s: State, options: Options)
    requires s.db == ClaimTask(FirstTables("", "", options), 1, 0) && s.jobs == map[]
    requires exists r: Run :: s.runs == map[2 := r] && r.wf == 0 && r.task == 1 && r.outcome == Some(Fine)
    ensures Enabled(reg, s, CompleteRun(2))
    ensures var t := Next(reg, s, CompleteRun(2));
      && Asleep(reg, t) && !HasOpenTask(t.db, 0) && t.db.activities == map[] && t.db.signals == map[]
      && 0 in t.db.workflows && t.db.workflows[0].status == Active
  {
    var t := Next(reg, s, CompleteRun(2));
    assert t.runs == map[] && t.jobs == map[] && t.db.activities == map[];
    assert t.db.tasks.Keys == {1} && t.db.tasks[1].status == Completed;
    forall d: nat, e: Step | OnRun(e) || OnActivities(e)
      ensures !Enabled(reg, Waited(t, d), e)
    {
      assert Waited(t, d).runs == map[] && Waited(t, d).jobs == map[] && Waited(t, d).db == t.db;
      if e.ClaimRun? && e.task in t.db.tasks {
        assert e.task == 1;
      }
    }
  }

  lemma HeedlessStranded(db: Tables, call: Call)
    requires db.activities == map[] && db.signals == map[]
    ensures Stranded(db, 0, Heedless(call), [Refused, NotYet])
  {
    var h, tr := Heedless(call), [Refused, NotYet];
    NoEvents(db, 0);
    assert tr[..0] == [] && tr[..1] == [Refused];
    assert AttemptedAt(h, map[], map[], tr, 0) && AttemptedAt(h, map[], map[], tr, 1);
    assert StartedAt(h, tr, 0, call.key);
  }

  // ---- a recorded output that is taken back ----

  /** The only activity is row 8 of workflow 0. */
  ghost predicate OneRow(s: State, row: Activity, now: int, next: Id) {
    && 0 in s.db.workflows && s.db.activities == map[8 := row] && row.wf == 0
    && s.now == now && s.nextId == next
  }

  lemma InsertsRow(reg: Registry, reach: State -> bool, s: State, call: Call, options: Options) returns (t: State)
    requires reg == Only(FireAndForget(call)) && Kept(reg, reach) && reach(s) && FirstLoaded(s, "", "", options)
    ensures reach(t) && t.jobs == map[]
    ensures OneRow(t, NewActivity(call.key, 0, call.name, call.input, call.options), 0, 10)
    ensures t.runs == map[2 := LoadedRun("", "", options.maxAttempts).(answers := [Scheduled])]
  {
    assert RequestOf(reg, s.runs[2]) == Start(call);
    t := Goes(reg, reach, s, InsertStarted(2));
    assert t.runs[2].answers == [Scheduled];
  }

  lemma ClaimsRow(reg: Registry, reach: State -> bool, s: State, row: Activity) returns (t: State)
    requires Kept(reg, reach) && reach(s) && OneRow(s, row, s.now, s.nextId) && ActivityReady(row, s.now)
    ensures reach(t) && OneRow(t, ClaimedActivity(row, s.now), s.now, s.nextId + 2)
    ensures t.jobs == s.jobs[s.nextId := Job(8, 0, row.name, row.input, row.attempts + 1, row.maxAttempts, None)]
  {
    t := Goes(reg, reach, s, ClaimJob(8));
  }

  lemma LeasePasses(reg: Registry, reach: State -> bool, s: State, row: Activity, d: nat) returns (t: State)
    requires Kept(reg, reach) && reach(s) && OneRow(s, row, s.now, s.nextId)
    ensures reach(t) && OneRow(t, row, s.now + d, s.nextId + 2) && t.jobs == s.jobs
  {
    t := Goes(reg, reach, s, Tick(d));
  }

  lemma ReturnsFor(reg: Registry, reach: State -> bool, s: State, row: Activity, c: Id, result: JobResult)
      returns (t: State)
    requires Kept(reg, reach) && reach(s) && OneRow(s, row, s.now, s.nextId) && c in s.jobs && s.jobs[c].result == None
    ensures reach(t) && OneRow(t, row, s.now, s.nextId + 2)
    ensures t.jobs == s.jobs[c := s.jobs[c].(result := Some(result))]
  {
    t := Goes(reg, reach, s, JobReturns(c, result));
  }

  lemma CompletesRow(reg: Registry, reach: State -> bool, s: State, row: Activity, c: Id, v: Value) returns (t: State)
    requires Kept(reg, reach) && reach(s) && OneRow(s, row, s.now, s.nextId)
    requires c in s.jobs && s.jobs[c].activity == 8 && s.jobs[c].result == Some(Output(v))
    ensures reach(t) && t.jobs == s.jobs - {c}
    ensures OneRow(t, row.(status := Completed, output := v, completedAt := Some(s.now), error := None), s.now,
      s.nextId + 2)
  {
    t := Goes(reg, reach, s, CompleteJob(c));
  }

  lemma RetriesRow(reg: Registry, s: State, row: Activity, c: Id)
    requires OneRow(s, row, s.now, s.nextId) && c in s.jobs && s.jobs[c].activity == 8
    requires s.jobs[c].result == Some(Error(false)) && s.jobs[c].attempts < s.jobs[c].maxAttempts
    ensures Enabled(reg, s, RetryJob(c, 0, ""))
    ensures OneRow(Next(reg, s, RetryJob(c, 0, "")),
      row.(status := Pending, scheduledAt := s.now, error := Some("")), s.now, s.nextId + 2)
  {
  }

  lemma HistoryOfOne(s: State, row: Activity)
    requires OneRow(s, row, s.now, s.nextId)
    ensures History(s.db, 0) == if row.status == Completed then map[row.key := row.output] else map[]
  {
    if row.status == Completed {
      assert ActivityKeysUnique(s.db);
      RecordedInHistory(s.db, 0, 8);
      assert History(s.db, 0).Keys == {row.key};
    }
  }

  /** A handler that does not collect what it starts completes its workflow while the activity is still pending. */
  lemma EndsBeforeItsActivity(call: Call) returns (s: State)
    ensures Reachable(Only(FireAndForget(call)), s)
    ensures 0 in s.db.workflows && s.db.workflows[0].status == Succeeded
    ensures 8 in s.db.activities && s.db.activities[8].wf == 0 && s.db.activities[8].key == call.key
    ensures s.db.activities[8].status == Pending
  {
    var reg := Only(FireAndForget(call));
    var reach := s => Reachable(reg, s);
    ReachableIsKept(reg, reach);
    s := FirstRun(reg, reach, "", "", Options(0, 1, 0, 0));
    s := InsertsRow(reg, reach, s, call, Options(0, 1, 0, 0));
    s := Returns(reg, reach, s, NewActivity(call.key, 0, call.name, call.input, call.options));
  }

  lemma Returns(reg: Registry, reach: State -> bool, s: State, row: Activity) returns (t: State)
    requires Kept(reg, reach) && reach(s) && OneRow(s, row, s.now, s.nextId)
    requires Advancing(reg, s, 2) && RequestOf(reg, s.runs[2]) == Return && s.runs[2].wf == 0
    ensures reach(t) && t.db.activities == s.db.activities
    ensures 0 in t.db.workflows && t.db.workflows[0].status == Succeeded
  {
    t := Goes(reg, reach, s, FinishWorkflow(2));
  }

  /** A lease lapses, the claim that takes over completes the activity, and then the first one reschedules it:
      the recorded output is gone from history. The settlement breaks lease discipline, which the code allows. */
  lemma RecordedIsTakenBack(call: Call, v: Value) returns (s: State, t: State)
    requires call.options.maxAttempts >= 2 && call.options.stuckTimeout >= 0 && call.options.scheduledAt <= 0
    ensures var reg := Only(FireAndForget(call));
      && Reachable(reg, s) && Enabled(reg, s, RetryJob(10, 0, "")) && !Leased(s, RetryJob(10, 0, ""))
      && t == Next(reg, s, RetryJob(10, 0, ""))
    ensures 0 in t.db.workflows && History(s.db, 0) == map[call.key := v] && History(t.db, 0) == map[]
  {
    var reg := Only(FireAndForget(call));
    var reach := s => Reachable(reg, s);
    ReachableIsKept(reg, reach);
    var row;
    s, row := CompletedByTheSecond(reg, reach, call, v);
    HistoryOfOne(s, row);
    RetriesRow(reg, s, row, 10);
    t := Next(reg, s, RetryJob(10, 0, ""));
    HistoryOfOne(t, row.(status := Pending, scheduledAt := s.now, error := Some("")));
  }

  /** The first claim of the row is still open, with a recoverable error, after the second one has completed it. */
  lemma CompletedByTheSecond(reg: Registry, reach: State -> bool, call: Call, v: Value)
      returns (s: State, row: Activity)
    requires reg == Only(FireAndForget(call)) && Kept(reg, reach) && reach(INIT)
    requires call.options.stuckTimeout >= 0 && call.options.scheduledAt <= 0
    ensures reach(s) && OneRow(s, row, s.now, s.nextId) && row.key == call.key
    ensures row.status == Completed && row.output == v && row.attempts == 2
    ensures 10 in s.jobs && s.jobs[10].activity == 8 && s.jobs[10].attempts == 1
    ensures s.jobs[10].maxAttempts == call.options.maxAttempts && s.jobs[10].result == Some(Error(false))
  {
    s := FirstRun(reg, reach, "", "", Options(0, 1, 0, 0));
    s := InsertsRow(reg, reach, s, call, Options(0, 1, 0, 0));
    row := NewActivity(call.key, 0, call.name, call.input, call.options);
    s, row := TakenOver(reg, reach, s, row);
    s := ReturnsFor(reg, reach, s, row, 14, Output(v));
    s := CompletesRow(reg, reach, s, row, 14, v);
    row := row.(status := Completed, output := v, completedAt := Some(s.now), error := None);
    s := ReturnsFor(reg, reach, s, row, 10, Error(false));
  }

  /** The row is claimed, its lease passes, and it is claimed again. */
  lemma TakenOver(reg: Registry, reach: State -> bool, s: State, row: Activity) returns (t: State, after: Activity)
    requires Kept(reg, reach) && reach(s) && OneRow(s, row, 0, 10) && s.jobs == map[]
    requires row.status == Pending && row.attempts == 0 && row.scheduledAt <= 0 && row.stuckTimeout >= 0
    ensures reach(t) && OneRow(t, after, row.stuckTimeout, 16)
    ensures after.key == row.key && after.attempts == 2
    ensures t.jobs == map[10 := Job(8, 0, row.name, row.input, 1, row.maxAttempts, None),
                          14 := Job(8, 0, row.name, row.input, 2, row.maxAttempts, None)]
  {
    t, after := Lapsed(reg, reach, s, row);
    t := ClaimsRow(reg, reach, t, after);
    after := ClaimedActivity(after, row.stuckTimeout);
  }

  lemma Lapsed(reg: Registry, reach: State -> bool, s: State, row: Activity) returns (t: State, after: Activity)
    requires Kept(reg, reach) && reach(s) && OneRow(s, row, 0, 10) && s.jobs == map[]
    requires row.status == Pending && row.scheduledAt <= 0 && row.stuckTimeout >= 0
    ensures after == ClaimedActivity(row, 0)
    ensures reach(t) && OneRow(t, after, row.stuckTimeout, 14)
    ensures t.jobs == map[10 := Job(8, 0, row.name, row.input, row.attempts + 1, row.maxAttempts, None)]
  {
    t := ClaimsRow(reg, reach, s, row);
    after := ClaimedActivity(row, 0);
    t := LeasePasses(reg, reach, t, after, row.stuckTimeout);
  }

  // ---- completed and failed are not final ----

  /** Claim c of wf is about to give up, claim d is about to return. */
  ghost predicate AtOdds(reg: Registry, s: State, c: Id, d: Id, wf: Id) {
    && c in s.runs && d in s.runs && c != d && s.runs[c].wf == wf && s.runs[d].wf == wf
    && wf in s.db.workflows && s.db.workflows[wf].status == Active && s.runs[c].task in s.db.tasks
    && s.runs[c].outcome == Some(Broken(true))
    && Advancing(reg, s, d) && RequestOf(reg, s.runs[d]).Return?
  }

  /** In either order the second one overwrites the status the first one set. */
  lemma StatusFlips(reg: Registry, s: State, c: Id, d: Id, wf: Id)
    requires AtOdds(reg, s, c, d, wf)
    ensures var es := [FailRun(c, ""), FinishWorkflow(d)];
      && Runs(reg, s, es) && wf in Next(reg, s, es[0]).db.workflows && wf in After(reg, s, es).db.workflows
      && Next(reg, s, es[0]).db.workflows[wf].status == Dead && After(reg, s, es).db.workflows[wf].status == Succeeded
    ensures var es := [FinishWorkflow(d), FailRun(c, "")];
      && Runs(reg, s, es) && wf in Next(reg, s, es[0]).db.workflows && wf in After(reg, s, es).db.workflows
      && Next(reg, s, es[0]).db.workflows[wf].status == Succeeded && After(reg, s, es).db.workflows[wf].status == Dead
  {
    FailsThenReturns(reg, s, c, d, wf);
    ReturnsThenFails(reg, s, c, d, wf);
  }

  lemma FailsThenReturns(reg: Registry, s: State, c: Id, d: Id, wf: Id)
    requires AtOdds(reg, s, c, d, wf)
    ensures var es := [FailRun(c, ""), FinishWorkflow(d)];
      && Runs(reg, s, es) && wf in Next(reg, s, es[0]).db.workflows && wf in After(reg, s, es).db.workflows
      && Next(reg, s, es[0]).db.workflows[wf].status == Dead && After(reg, s, es).db.workflows[wf].status == Succeeded
  {
    assert Next(reg, s, FailRun(c, "")).runs[d] == s.runs[d];
    TwoSteps(reg, s, FailRun(c, ""), FinishWorkflow(d));
  }

  lemma ReturnsThenFails(reg: Registry, s: State, c: Id, d: Id, wf: Id)
    requires AtOdds(reg, s, c, d, wf)
    ensures var es := [FinishWorkflow(d), FailRun(c, "")];
      && Runs(reg, s, es) && wf in Next(reg, s, es[0]).db.workflows && wf in After(reg, s, es).db.workflows
      && Next(reg, s, es[0]).db.workflows[wf].status == Succeeded && After(reg, s, es).db.workflows[wf].status == Dead
  {
    assert Next(reg, s, FinishWorkflow(d)).runs[c] == s.runs[c];
    TwoSteps(reg, s, FinishWorkflow(d), FailRun(c, ""));
  }

  /** Tasks 1 and 3 of workflow 0 can be claimed. */
  ghost predicate TwoTasks(s: State, next: Id) {
    && 0 in s.db.workflows && s.db.workflows[0].status == Active && s.db.workflows[0].name == ""
    && 1 in s.db.tasks && s.db.tasks[1].wf == 0 && 3 in s.db.tasks && s.db.tasks[3].wf == 0 && s.nextId == next
  }

  lemma SignalsFirst(reg: Registry, reach: State -> bool, s: State, key: Key) returns (t: State)
    requires Kept(reg, reach) && reach(s) && s.db == FirstTables("", "", Options(0, 1, 0, 0)) && s.now == 0
    requires s.nextId == 2
    ensures reach(t) && TwoTasks(t, 4) && t.now == 0 && t.runs == s.runs
    ensures TaskReady(t.db.tasks[1], 0) && TaskReady(t.db.tasks[3], 0)
  {
    t := Goes(reg, reach, s, SendSignal(0, key, "", ""));
  }

  lemma ClaimsOne(reg: Registry, reach: State -> bool, s: State, x: Id) returns (t: State)
    requires Kept(reg, reach) && reach(s) && TwoTasks(s, s.nextId) && (x == 1 || x == 3)
    requires TaskReady(s.db.tasks[x], s.now)
    ensures reach(t) && TwoTasks(t, s.nextId + 2) && t.now == s.now && t.db.tasks[4 - x] == s.db.tasks[4 - x]
    ensures forall c :: c in s.runs && c < s.nextId ==> c in t.runs && t.runs[c] == s.runs[c]
    ensures s.nextId in t.runs && Fresh(t.runs[s.nextId])
    ensures t.runs[s.nextId].task == x && t.runs[s.nextId].wf == 0 && t.runs[s.nextId].name == ""
  {
    t := Goes(reg, reach, s, ClaimRun(x));
  }

  lemma Breaks(reg: Registry, reach: State -> bool, s: State, c: Id) returns (t: State)
    requires Kept(reg, reach) && reach(s) && c in s.runs && s.runs[c].outcome == None
    ensures reach(t) && t == s.(runs := s.runs[c := s.runs[c].(outcome := Some(Broken(true)))], nextId := s.nextId + 2)
  {
    t := Goes(reg, reach, s, RunBreaks(c, true));
  }

  /** A fresh run loads its events, whatever they are. */
  lemma LoadsBoth(reg: Registry, reach: State -> bool, s: State, c: Id) returns (t: State)
    requires Kept(reg, reach) && reach(s) && c in s.runs && Fresh(s.runs[c]) && s.runs[c].name in reg
    ensures reach(t) && t.db == s.db && t.nextId == s.nextId + 4
    ensures forall d :: d in s.runs && d != c ==> d in t.runs && t.runs[d] == s.runs[d]
    ensures c in t.runs && RunKept(s.runs[c], t.runs[c]) && t.runs[c].Loaded()
      && t.runs[c].answers == [] && t.runs[c].outcome == None
  {
    t := Goes(reg, reach, s, LoadHistory(c));
    t := Goes(reg, reach, t, LoadSignals(c));
  }

  /** A state in which both orders are possible is reached by one signal and one error. */
  lemma AtOddsIsReachable() returns (s: State)
    ensures var reg := Only(Handler(Done)); Reachable(reg, s) && AtOdds(reg, s, 4, 6, 0)
  {
    var reg := Only(Handler(Done));
    var reach := s => Reachable(reg, s);
    ReachableIsKept(reg, reach);
    s := GetsAtOdds(reg, reach);
  }

  lemma GetsAtOdds(reg: Registry, reach: State -> bool) returns (s: State)
    requires reg == Only(Handler(Done)) && Kept(reg, reach) && reach(INIT)
    ensures reach(s) && AtOdds(reg, s, 4, 6, 0)
  {
    FirstState(reg, "", "", Options(0, 1, 0, 0));
    s := Goes(reg, reach, INIT, Enqueue("", "", "", Options(0, 1, 0, 0)));
    s := SignalsFirst(reg, reach, s, Key(0, ""));
    s := ClaimsOne(reg, reach, s, 1);
    s := ClaimsOne(reg, reach, s, 3);
    s := LoadsBoth(reg, reach, s, 6);
    s := Breaks(reg, reach, s, 4);
  }
}
