/** What every workflow run knows about its own replay and about the rows it has asked for. */
module RunInvariants {
  import opened Schema
  import opened Transactions
  import opened Replay
  import opened Engine
  import opened Integrity
  import opened Frames

  /** Activity keys live in the namespace of the workflow that starts them. */
  ghost predicate OwnKeys(reg: Registry) {
    forall name, wf, input, tr: seq<Answer> ::
      name in reg && Path(ScriptOf(reg, name, wf, input), tr) && ScriptOf(reg, name, wf, input)(tr).Start?
      ==> ScriptOf(reg, name, wf, input)(tr).call.key.space == wf
  }

  ghost predicate KeysOwned(db: Tables) {
    forall a :: a in db.activities ==> db.activities[a].key.space == db.activities[a].wf
  }

  function HandlerOf(reg: Registry, r: Run): Script
    requires r.name in reg
  {
    ScriptOf(reg, r.name, r.wf, r.input)
  }

  /** The answers a run has consumed are a replay of its handler on the snapshots it loaded. */
  ghost predicate Replays(reg: Registry, r: Run) {
    && (r.history.Some? || r.signals.Some? ==> r.name in reg)
    && (r.answers != [] || r.outcome == Some(Fine) ==> r.Loaded())
    && (r.Loaded() ==> Attempt(HandlerOf(reg, r), r.history.value, r.signals.value, r.answers))
    && (r.outcome == Some(Fine) ==>
          HandlerOf(reg, r)(r.answers) == Suspend || HandlerOf(reg, r)(r.answers) == Return)
  }

  ghost predicate HasRow(db: Tables, wf: Id, k: Key) {
    exists a :: a in db.activities && db.activities[a].key == k && db.activities[a].wf == wf
  }

  ghost predicate AllInserted(db: Tables, wf: Id, h: Script, tr: seq<Answer>) {
    forall k :: Inserts(h, tr, k) ==> HasRow(db, wf, k)
  }

  /** Every activity the run has inserted or seen in history has its row; a run that returned has completed its
      workflow. */
  ghost predicate Backed(reg: Registry, db: Tables, r: Run) {
    r.wf in db.workflows ==>
      && (r.history.Some? ==> forall k :: k in r.history.value ==> HasRow(db, r.wf, k))
      && (r.Loaded() && r.name in reg ==> AllInserted(db, r.wf, HandlerOf(reg, r), r.answers))
      && (r.outcome == Some(Fine) && r.name in reg && HandlerOf(reg, r)(r.answers) == Return ==>
            db.workflows[r.wf].status != Active)
  }

  ghost predicate Sound(reg: Registry, db: Tables, r: Run) {
    Replays(reg, r) && Backed(reg, db, r)
  }

  ghost predicate RunsSound(reg: Registry, s: State) {
    KeysOwned(s.db) && forall c :: c in s.runs ==> Sound(reg, s.db, s.runs[c])
  }

  lemma RowPersists(db: Tables, after: Tables, next: Id, wf: Id, k: Key)
    requires ActivitiesExtend(db, after, next) && HasRow(db, wf, k)
    ensures HasRow(after, wf, k)
  {
    var a :| a in db.activities && db.activities[a].key == k && db.activities[a].wf == wf;
    assert a in after.activities && after.activities[a].key == k;
  }

  lemma RowSurvivesCleanup(db: Tables, ids: set<Id>, wf: Id, k: Key)
    requires HasRow(db, wf, k) && wf !in ids
    ensures HasRow(DeleteWorkflows(db, ids), wf, k)
  {
    var a :| a in db.activities && db.activities[a].key == k && db.activities[a].wf == wf;
    assert a in DeleteWorkflows(db, ids).activities;
  }

  /** Rows that persist keep a run backed. */
  lemma StaysBacked(reg: Registry, db: Tables, after: Tables, r: Run)
    requires Backed(reg, db, r)
    requires r.wf in after.workflows ==> r.wf in db.workflows && WorkflowKept(db.workflows[r.wf], after.workflows[r.wf])
    requires forall k :: r.wf in after.workflows && HasRow(db, r.wf, k) ==> HasRow(after, r.wf, k)
    ensures Backed(reg, after, r)
  {
  }

  lemma ExtendingStaysBacked(reg: Registry, s: State, t: State, r: Run)
    requires Evolves(s, t) && r.wf < s.nextId && Backed(reg, s.db, r)
    ensures Backed(reg, t.db, r)
  {
    forall k | HasRow(s.db, r.wf, k)
      ensures HasRow(t.db, r.wf, k)
    {
      RowPersists(s.db, t.db, s.nextId, r.wf, k);
    }
    StaysBacked(reg, s.db, t.db, r);
  }

  lemma CleanupStaysBacked(reg: Registry, db: Tables, ids: set<Id>, r: Run)
    requires Backed(reg, db, r)
    ensures Backed(reg, DeleteWorkflows(db, ids), r)
  {
    forall k | r.wf !in ids && HasRow(db, r.wf, k)
      ensures HasRow(DeleteWorkflows(db, ids), r.wf, k)
    {
      RowSurvivesCleanup(db, ids, r.wf, k);
    }
    StaysBacked(reg, db, DeleteWorkflows(db, ids), r);
  }

  /** Loading history: every recorded key has its row. */
  lemma LoadedHistorySound(reg: Registry, db: Tables, r: Run)
    requires ActivityKeysUnique(db) && Sound(reg, db, r)
    requires r.history == None && r.outcome == None && r.name in reg
    ensures Sound(reg, db, r.(history := Some(History(db, r.wf))))
  {
    forall k | k in History(db, r.wf)
      ensures HasRow(db, r.wf, k)
    {
      var a := HistoryIsRecorded(db, r.wf, k);
    }
    NothingStarted(HandlerOf(reg, r));
  }

  lemma LoadedSignalsSound(reg: Registry, db: Tables, r: Run)
    requires Sound(reg, db, r)
    requires r.signals == None && r.outcome == None && r.name in reg
    ensures Sound(reg, db, r.(signals := Some(Signals(db, r.wf))))
  {
    NothingStarted(HandlerOf(reg, r));
  }

  lemma NothingStarted(h: Script)
    ensures forall k :: !Inserts(h, [], k)
  {
  }

  /** After one more answer, what has been inserted is what had been inserted plus this request. */
  lemma InsertedByOneMore(h: Script, tr: seq<Answer>, x: Answer, k: Key)
    requires Inserts(h, tr + [x], k)
    ensures Inserts(h, tr, k) || (x == Scheduled && h(tr).Start? && h(tr).call.key == k)
  {
    var i :| 0 <= i < |tr + [x]| && (tr + [x])[i] == Scheduled && StartedAt(h, tr + [x], i, k);
    assert (tr + [x])[..i] == tr[..i];
    if i < |tr| {
      assert tr[i] == Scheduled && StartedAt(h, tr, i, k);
    } else {
      assert tr[..i] == tr;
    }
  }

  /** The same for what has been asked for, refused or not. */
  lemma StartedByOneMore(h: Script, tr: seq<Answer>, x: Answer, k: Key)
    requires Starts(h, tr + [x], k)
    ensures Starts(h, tr, k) || (h(tr).Start? && h(tr).call.key == k)
  {
    var i :| 0 <= i < |tr + [x]| && StartedAt(h, tr + [x], i, k);
    assert (tr + [x])[..i] == tr[..i];
    if i < |tr| {
      assert StartedAt(h, tr, i, k);
    } else {
      assert tr[..i] == tr;
    }
  }

  lemma AnsweredSound(reg: Registry, db: Tables, r: Run, x: Answer)
    requires Sound(reg, db, r) && r.Loaded() && r.outcome == None && r.name in reg
    requires var request := HandlerOf(reg, r)(r.answers);
      && request.Asks()
      && (x == Reply(request, r.history.value, r.signals.value)
          || (x == Refused && request.Start? && request.call.key !in r.history.value))
      && (x == Scheduled && request.Start? && r.wf in db.workflows ==> HasRow(db, r.wf, request.call.key))
    ensures Sound(reg, db, r.(answers := r.answers + [x]))
  {
    var h := HandlerOf(reg, r);
    AttemptExtend(h, r.history.value, r.signals.value, r.answers, x);
    forall k | Inserts(h, r.answers + [x], k) && r.wf in db.workflows
      ensures HasRow(db, r.wf, k)
    {
      InsertedByOneMore(h, r.answers, x, k);
    }
  }

  lemma AdvanceSound(reg: Registry, s: State, c: Id)
    requires RunsSound(reg, s) && Advancing(reg, s, c) && !MustInsert(reg, s.runs[c])
    requires !RequestOf(reg, s.runs[c]).Return?
    ensures Sound(reg, s.db, DoAdvance(reg, s, c).runs[c])
  {
    var r := s.runs[c];
    assert Sound(reg, s.db, r);
    if RequestOf(reg, r).Asks() {
      AnsweredSound(reg, s.db, r, Reply(RequestOf(reg, r), r.history.value, r.signals.value));
    }
  }

  lemma RefuseInsertSound(reg: Registry, s: State, c: Id)
    requires RunsSound(reg, s) && Advancing(reg, s, c) && MustInsert(reg, s.runs[c])
    ensures Sound(reg, s.db, DoRefuseInsert(s, c).runs[c])
  {
    assert Sound(reg, s.db, s.runs[c]);
    AnsweredSound(reg, s.db, s.runs[c], Refused);
  }

  lemma InsertStartedSound(reg: Registry, s: State, c: Id)
    requires Valid(s) && OwnKeys(reg) && RunsSound(reg, s) && Advancing(reg, s, c) && MustInsert(reg, s.runs[c])
    ensures KeysOwned(DoInsertStarted(reg, s, c).db)
    ensures Sound(reg, DoInsertStarted(reg, s, c).db, DoInsertStarted(reg, s, c).runs[c])
  {
    var r := s.runs[c];
    var t := DoInsertStarted(reg, s, c);
    var call := RequestOf(reg, r).call;
    assert Sound(reg, s.db, r);
    AttemptIsPath(HandlerOf(reg, r), r.history.value, r.signals.value, r.answers);
    assert call.key.space == r.wf;
    InsertStartedEvolves(reg, s, c);
    ExtendingStaysBacked(reg, s, t, r);
    if InsertActivity(s.db, s.nextId, call.key, r.wf, call.name, call.input, call.options).Some? {
      assert HasRow(t.db, r.wf, call.key) by {
        if HasActivityKey(s.db, call.key) {
          var a :| a in s.db.activities && s.db.activities[a].key == call.key;
          assert t.db.activities[a].wf == r.wf;
        } else {
          assert t.db.activities[s.nextId].key == call.key;
        }
      }
      AnsweredSound(reg, t.db, r, Scheduled);
    } else {
      AnsweredSound(reg, t.db, r, Refused);
    }
  }

  lemma FinishWorkflowSound(reg: Registry, s: State, c: Id)
    requires Valid(s) && RunsSound(reg, s) && Advancing(reg, s, c) && RequestOf(reg, s.runs[c]).Return?
    ensures Sound(reg, DoFinishWorkflow(s, c).db, DoFinishWorkflow(s, c).runs[c])
  {
    var r := s.runs[c];
    assert Sound(reg, s.db, r);
    FinishWorkflowEvolves(s, c);
    ExtendingStaysBacked(reg, s, DoFinishWorkflow(s, c), r);
  }

  /** Keys stay owned in a step that starts no activity. */
  lemma KeysStayOwned(s: State, t: State)
    requires KeysOwned(s.db) && Evolves(s, t) && t.db.activities.Keys == s.db.activities.Keys
    ensures KeysOwned(t.db)
  {
  }

  /** The runs a step leaves alone stay sound, because rows persist. */
  lemma OtherRunsSound(reg: Registry, s: State, t: State, c: Id)
    requires Valid(s) && RunsSound(reg, s) && Evolves(s, t)
    requires forall d :: d in t.runs && d != c ==> d in s.runs && t.runs[d] == s.runs[d]
    ensures forall d :: d in t.runs && d != c ==> Sound(reg, t.db, t.runs[d])
  {
    forall d | d in t.runs && d != c
      ensures Sound(reg, t.db, t.runs[d])
    {
      assert Sound(reg, s.db, s.runs[d]);
      ExtendingStaysBacked(reg, s, t, s.runs[d]);
    }
  }

  lemma FreshSound(reg: Registry, db: Tables, r: Run)
    requires Fresh(r)
    ensures Sound(reg, db, r)
  {
  }

  lemma ItsRunSound(reg: Registry, s: State, e: Step)
    requires Valid(s) && OwnKeys(reg) && RunsSound(reg, s) && Enabled(reg, s, e)
    requires RunOf(s, e) in Apply(reg, s, e).runs
    ensures Sound(reg, Apply(reg, s, e).db, Apply(reg, s, e).runs[RunOf(s, e)])
  {
    if Works(e) {
      WorkSound(reg, s, e);
    } else {
      OtherwiseFresh(reg, s, e);
      FreshSound(reg, Apply(reg, s, e).db, Apply(reg, s, e).runs[RunOf(s, e)]);
    }
  }

  /** A step that does not work on a run either drops it or has just claimed it. */
  lemma OtherwiseFresh(reg: Registry, s: State, e: Step)
    requires RunsMatch(s) && Enabled(reg, s, e) && !Works(e) && RunOf(s, e) in Apply(reg, s, e).runs
    ensures Fresh(Apply(reg, s, e).runs[RunOf(s, e)])
  {
    if e.ClaimRun? {
      ClaimFrame(s, e.task);
    } else if SettlesRun(e) {
      RunSettlementTouches(reg, s, e);
    } else if OnActivities(e) {
      JobStepFrame(s, e);
    } else if !OnRun(e) {
      OthersKeepClaims(reg, s, e);
    }
  }

  lemma WorkSound(reg: Registry, s: State, e: Step)
    requires Valid(s) && OwnKeys(reg) && RunsSound(reg, s) && Works(e) && RunEnabled(reg, s, e)
    requires e.run in ApplyRun(reg, s, e).runs
    ensures Sound(reg, ApplyRun(reg, s, e).db, ApplyRun(reg, s, e).runs[e.run])
  {
    assert Sound(reg, s.db, s.runs[e.run]);
    match e
    case LoadHistory(c) => LoadedHistorySound(reg, s.db, s.runs[c]);
    case LoadSignals(c) => LoadedSignalsSound(reg, s.db, s.runs[c]);
    case Advance(c) => AdvanceSound(reg, s, c);
    case InsertStarted(c) => InsertStartedSound(reg, s, c);
    case RefuseInsert(c) => RefuseInsertSound(reg, s, c);
    case FinishWorkflow(c) => FinishWorkflowSound(reg, s, c);
    case RunBreaks(c, u) =>
  }

  lemma RunsSoundStep(reg: Registry, s: State, e: Step)
    requires Valid(s) && OwnKeys(reg) && RunsSound(reg, s) && Enabled(reg, s, e)
    ensures RunsSound(reg, Next(reg, s, e))
  {
    if e.Cleanup? {
      forall c | c in s.runs
        ensures Sound(reg, DeleteWorkflows(s.db, e.ids), s.runs[c])
      {
        assert Sound(reg, s.db, s.runs[c]);
        CleanupStaysBacked(reg, s.db, e.ids, s.runs[c]);
      }
    } else {
      var t := Apply(reg, s, e);
      StepEvolves(reg, s, e);
      OnlyItsRun(reg, s, e);
      OtherRunsSound(reg, s, t, RunOf(s, e));
      if RunOf(s, e) in t.runs {
        ItsRunSound(reg, s, e);
      }
      if e.InsertStarted? {
        InsertStartedSound(reg, s, e.run);
      } else {
        KeysStayOwned(s, t);
      }
    }
  }
}
