/** What it means for a workflow that its handler has run to the end. */
module Completion {
  import opened Schema
  import opened Replay
  import opened Engine
  import opened Integrity
  import opened RunInvariants
  import opened Lease
  import opened Growth
  import opened Durable

  /** On the current tables the handler runs to its end along tr. */
  ghost predicate Ends(db: Tables, wf: Id, h: Script, tr: seq<Answer>) {
    EndsOn(h, History(db, wf), Signals(db, wf), tr)
  }

  function ScriptIn(reg: Registry, db: Tables, wf: Id): Script
    requires wf in db.workflows && db.workflows[wf].name in reg
  {
    ScriptOf(reg, db.workflows[wf].name, wf, db.workflows[wf].input)
  }

  /** Run c of a workflow that still exists has reached the end of its await-style handler. */
  ghost predicate Returned(reg: Registry, s: State, c: Id) {
    && c in s.runs && s.runs[c].Loaded() && s.runs[c].name in reg && s.runs[c].wf in s.db.workflows
    && Awaits(HandlerOf(reg, s.runs[c]))
    && HandlerOf(reg, s.runs[c])(s.runs[c].answers) == Return
  }

  lemma ReturnedEnds(reg: Registry, s: State, c: Id)
    requires Held(reg, s) && Returned(reg, s, c)
    ensures var r := s.runs[c];
      && s.db.workflows[r.wf].name == r.name && s.db.workflows[r.wf].input == r.input
      && Ends(s.db, r.wf, HandlerOf(reg, r), r.answers)
      && (forall k :: Starts(HandlerOf(reg, r), r.answers, k) ==> HasRow(s.db, r.wf, k))
  {
    var r := s.runs[c];
    assert Sound(reg, s.db, r) && RunMatches(s.db, r) && SnapshotsHold(s.db, r);
    FollowsTheTables(HandlerOf(reg, r), s.db, r, s.db);
  }

  /** Row a records the first request for its key on tr, with that request's input and options. */
  ghost predicate FirstRequest(h: Script, tr: seq<Answer>, row: Activity) {
    exists i :: 0 <= i < |tr| && StartedAt(h, tr, i, row.key) && RecordsFirst(h, tr, row, i)
  }

  ghost predicate RecordsFirst(h: Script, tr: seq<Answer>, row: Activity, i: nat)
    requires i <= |tr| && StartedAt(h, tr, i, row.key)
  {
    && !Starts(h, tr[..i], row.key)
    && h(tr[..i]).call.name == row.name && h(tr[..i]).call.input == row.input
    && h(tr[..i]).call.options.maxAttempts == row.maxAttempts
    && h(tr[..i]).call.options.priority == row.priority
    && h(tr[..i]).call.options.stuckTimeout == row.stuckTimeout
    && (row.attempts == 0 ==> h(tr[..i]).call.options.scheduledAt == row.scheduledAt)
  }

  lemma OriginOnPath(db: Tables, h: Script, a: Id, origin: seq<Answer>, tr: seq<Answer>)
    requires a in db.activities && OriginAt(db, h, a, origin) && Ends(db, db.activities[a].wf, h, tr)
    ensures FirstRequest(h, tr, db.activities[a])
  {
    var row := db.activities[a];
    EndedIsLongest(h, History(db, row.wf), Signals(db, row.wf), tr, origin);
    assert tr[..|tr|] == tr && tr[..|origin|] == origin;
    assert StartedAt(h, tr, |origin|, row.key) && RecordsFirst(h, tr, row, |origin|);
  }

  /** When a replay reaches the end, the workflow's activity rows are exactly the activities on its path,
      one row per key, each as its first request asked for it. */
  lemma RowsAreThePath(reg: Registry, s: State, c: Id)
    requires OwnKeys(reg) && LeasedReachable(reg, s) && Returned(reg, s, c)
    ensures var r, h := s.runs[c], HandlerOf(reg, s.runs[c]);
      && (forall k :: Starts(h, r.answers, k) <==> HasRow(s.db, r.wf, k))
      && ActivityKeysUnique(s.db)
      && (forall a :: a in s.db.activities && s.db.activities[a].wf == r.wf ==>
           FirstRequest(h, r.answers, s.db.activities[a]))
  {
    AlwaysHeld(reg, s);
    var r, h := s.runs[c], HandlerOf(reg, s.runs[c]);
    ReturnedEnds(reg, s, c);
    forall a | a in s.db.activities && s.db.activities[a].wf == r.wf
      ensures FirstRequest(h, r.answers, s.db.activities[a]) && Starts(h, r.answers, s.db.activities[a].key)
    {
      assert HasOrigin(reg, s.db, a);
      var origin :| OriginAt(s.db, h, a, origin);
      OriginOnPath(s.db, h, a, origin, r.answers);
    }
  }

  /** The replay that reached the end saw exactly what one uninterrupted execution sees,
      whatever values the events not yet recorded would have had. */
  lemma ReturnedRunIsDirect(reg: Registry, s: State, c: Id, outputs: Oracle, payloads: Oracle)
    requires OwnKeys(reg) && LeasedReachable(reg, s) && Returned(reg, s, c)
    requires RecordedFrom(History(s.db, s.runs[c].wf), outputs) && RecordedFrom(Signals(s.db, s.runs[c].wf), payloads)
    ensures Direct(HandlerOf(reg, s.runs[c]), outputs, payloads, s.runs[c].answers)
    ensures var h := HandlerOf(reg, s.runs[c]);
      forall d: seq<Answer> :: Direct(h, outputs, payloads, d) && !h(d).Asks() ==> d == s.runs[c].answers
  {
    AlwaysHeld(reg, s);
    var r, h := s.runs[c], HandlerOf(reg, s.runs[c]);
    ReturnedEnds(reg, s, c);
    SettledIsDirect(h, History(s.db, r.wf), Signals(s.db, r.wf), outputs, payloads, r.answers);
    SettledIsSolid(h, History(s.db, r.wf), Signals(s.db, r.wf), r.answers);
    forall d: seq<Answer> | Direct(h, outputs, payloads, d) && !h(d).Asks()
      ensures d == r.answers
    {
      ReturnedReplayIsDirect(h, History(s.db, r.wf), Signals(s.db, r.wf), outputs, payloads, r.answers, d);
    }
  }

  // ---- every activity is collected ----

  ghost predicate AllCompleted(db: Tables, wf: Id) {
    forall a :: a in db.activities && db.activities[a].wf == wf ==> db.activities[a].status == Completed
  }

  predicate Belongs(db: Tables, wf: Id, a: Id) {
    a in db.activities && db.activities[a].wf == wf
  }

  lemma EndedIsCompleted(reg: Registry, db: Tables, wf: Id, tr: seq<Answer>)
    requires Consistent(db) && Originates(reg, db) && wf in db.workflows && db.workflows[wf].name in reg
    requires var h := ScriptIn(reg, db, wf); Awaits(h) && Collects(h) && Ends(db, wf, h, tr)
    ensures AllCompleted(db, wf)
  {
    var h := ScriptIn(reg, db, wf);
    forall a | a in db.activities && db.activities[a].wf == wf
      ensures db.activities[a].status == Completed
    {
      assert HasOrigin(reg, db, a);
      var origin :| OriginAt(db, h, a, origin);
      OriginOnPath(db, h, a, origin, tr);
      assert Starts(h, tr, db.activities[a].key);
      CollectsIff(h);
      var b := HistoryIsRecorded(db, wf, db.activities[a].key);
      assert a == b;
    }
  }

  lemma SettledRowStep(reg: Registry, s: State, e: Step, a: Id)
    requires Valid(s) && LatestRunning(s) && Enabled(reg, s, e) && Leased(s, e)
    requires a in s.db.activities && !Open(s.db.activities[a].status)
    requires s.db.activities[a].wf in Next(reg, s, e).db.workflows
    ensures a in Next(reg, s, e).db.activities && Next(reg, s, e).db.activities[a] == s.db.activities[a]
  {
    if !e.Cleanup? {
      GrowsStep(reg, s, e);
    }
  }

  /** Completed and failed rows outlive every leased run that leaves their workflow in place. */
  lemma {:induction false} SettledRowStays(reg: Registry, s: State, es: seq<Step>, a: Id)
    requires Valid(s) && LatestRunning(s) && LeasedRuns(reg, s, es) && Runs(reg, s, es)
    requires a in s.db.activities && (s.db.activities[a].status == Completed || s.db.activities[a].status == Failed)
    requires s.db.activities[a].wf in After(reg, s, es).db.workflows
    ensures a in After(reg, s, es).db.activities && After(reg, s, es).db.activities[a] == s.db.activities[a]
    decreases |es|
  {
    if es != [] {
      var t := Next(reg, s, es[0]);
      ValidStep(reg, s, es[0]);
      LatestRunningStep(reg, s, es[0]);
      WasThere(reg, t, es[1..], s.db.activities[a].wf);
      SettledRowStep(reg, s, es[0], a);
      SettledRowStays(reg, t, es[1..], a);
    }
  }

  /** Once the handler has run to the end, every activity row of the workflow is completed,
      and after any leased run the rows are still the same. */
  lemma FinishedForGood(reg: Registry, s: State, c: Id, es: seq<Step>)
    requires OwnKeys(reg) && LeasedReachable(reg, s) && Returned(reg, s, c) && Collects(HandlerOf(reg, s.runs[c]))
    requires LeasedRuns(reg, s, es) && Runs(reg, s, es)
    requires s.runs[c].wf in After(reg, s, es).db.workflows
    ensures var t, wf := After(reg, s, es), s.runs[c].wf;
      && AllCompleted(s.db, wf) && AllCompleted(t.db, wf)
      && forall a :: Belongs(t.db, wf, a) || Belongs(s.db, wf, a) ==>
           a in s.db.activities && a in t.db.activities && t.db.activities[a] == s.db.activities[a]
  {
    AlwaysHeld(reg, s);
    var t, wf, h, tr := After(reg, s, es), s.runs[c].wf, HandlerOf(reg, s.runs[c]), s.runs[c].answers;
    ReturnedEnds(reg, s, c);
    EndedIsCompleted(reg, s.db, wf, tr);
    HeldRuns(reg, s, es);
    HistoryOnlyGrows(reg, s, es, wf);
    SignalsOnlyGrow(reg, s, es, wf);
    WorkflowStays(reg, s, es, wf);
    SolidGrows(h, History(s.db, wf), Signals(s.db, wf), History(t.db, wf), Signals(t.db, wf), tr);
    EndedIsCompleted(reg, t.db, wf, tr);
    forall a | a in s.db.activities && s.db.activities[a].wf == wf
      ensures a in t.db.activities && t.db.activities[a] == s.db.activities[a]
    {
      SettledRowStays(reg, s, es, a);
    }
    forall a | a in t.db.activities && t.db.activities[a].wf == wf
      ensures a in s.db.activities && t.db.activities[a] == s.db.activities[a]
    {
      NoRowIsNew(reg, s, c, t, a);
    }
  }

  /** A row of the finished workflow in a later state is one of the rows it had. */
  lemma NoRowIsNew(reg: Registry, s: State, c: Id, t: State, a: Id)
    requires Held(reg, s) && Returned(reg, s, c) && Held(reg, t) && s.runs[c].wf in t.db.workflows
    requires var wf, h := s.runs[c].wf, HandlerOf(reg, s.runs[c]);
      && WorkflowKept(s.db.workflows[wf], t.db.workflows[wf])
      && Ends(t.db, wf, h, s.runs[c].answers)
    requires forall b :: b in s.db.activities && s.db.activities[b].wf == s.runs[c].wf ==>
      b in t.db.activities && t.db.activities[b] == s.db.activities[b]
    requires a in t.db.activities && t.db.activities[a].wf == s.runs[c].wf
    ensures a in s.db.activities && t.db.activities[a] == s.db.activities[a]
  {
    var wf, h, tr := s.runs[c].wf, HandlerOf(reg, s.runs[c]), s.runs[c].answers;
    ReturnedEnds(reg, s, c);
    assert HasOrigin(reg, t.db, a);
    var origin :| OriginAt(t.db, h, a, origin);
    OriginOnPath(t.db, h, a, origin, tr);
    assert Starts(h, tr, t.db.activities[a].key);
    var b :| b in s.db.activities && s.db.activities[b].key == t.db.activities[a].key && s.db.activities[b].wf == wf;
    assert t.db.activities[b].key == t.db.activities[a].key;
  }

  lemma CannotReturn(reg: Registry, t: State, c: Id, a: Id)
    requires Consistent(t.db) && Originates(reg, t.db) && Returned(reg, t, c)
    requires Sound(reg, t.db, t.runs[c]) && RunMatches(t.db, t.runs[c]) && SnapshotsHold(t.db, t.runs[c])
    requires a in t.db.activities && t.db.activities[a].status == Failed && t.runs[c].wf == t.db.activities[a].wf
    ensures !Collects(HandlerOf(reg, t.runs[c]))
  {
    var r := t.runs[c];
    FollowsTheTables(HandlerOf(reg, r), t.db, r, t.db);
    if Collects(HandlerOf(reg, r)) {
      EndedIsCompleted(reg, t.db, r.wf, r.answers);
    }
  }

  ghost predicate CollectsAll(reg: Registry, r: Run) {
    r.name in reg ==> Awaits(HandlerOf(reg, r)) && Collects(HandlerOf(reg, r))
  }

  /** A workflow with a failed activity never gets to CompleteWorkflow again, on any replay. */
  lemma FailedNeverReturns(reg: Registry, s: State, a: Id, es: seq<Step>, c: Id)
    requires OwnKeys(reg) && LeasedReachable(reg, s) && LeasedRuns(reg, s, es) && Runs(reg, s, es)
    requires a in s.db.activities && s.db.activities[a].status == Failed
    requires s.db.activities[a].wf in After(reg, s, es).db.workflows
    requires c in After(reg, s, es).runs
    requires var r := After(reg, s, es).runs[c];
      r.wf == s.db.activities[a].wf && CollectsAll(reg, r)
    ensures !Enabled(reg, After(reg, s, es), FinishWorkflow(c))
  {
    FailedRemains(reg, s, a, es);
    HeldRun(reg, After(reg, s, es), c);
    if Enabled(reg, After(reg, s, es), FinishWorkflow(c)) {
      FinishingReturns(reg, After(reg, s, es), c);
      CannotReturn(reg, After(reg, s, es), c, a);
    }
  }

  lemma FailedRemains(reg: Registry, s: State, a: Id, es: seq<Step>)
    requires OwnKeys(reg) && LeasedReachable(reg, s) && LeasedRuns(reg, s, es) && Runs(reg, s, es)
    requires a in s.db.activities && s.db.activities[a].status == Failed
    requires s.db.activities[a].wf in After(reg, s, es).db.workflows
    ensures Held(reg, After(reg, s, es))
    ensures a in After(reg, s, es).db.activities && After(reg, s, es).db.activities[a] == s.db.activities[a]
  {
    AlwaysHeld(reg, s);
    HeldRuns(reg, s, es);
    SettledRowStays(reg, s, es, a);
  }

  lemma FinishingReturns(reg: Registry, t: State, c: Id)
    requires Enabled(reg, t, FinishWorkflow(c)) && CollectsAll(reg, t.runs[c]) && t.runs[c].wf in t.db.workflows
    ensures Returned(reg, t, c) && Collects(HandlerOf(reg, t.runs[c]))
  {
  }

  lemma HeldRun(reg: Registry, s: State, c: Id)
    requires Held(reg, s) && c in s.runs
    ensures Consistent(s.db) && Originates(reg, s.db)
    ensures Sound(reg, s.db, s.runs[c]) && RunMatches(s.db, s.runs[c]) && SnapshotsHold(s.db, s.runs[c])
  {
  }
}
