/** Event-sourced replay: what a workflow handler sees and does when it runs from the top. */
module Replay {
  import opened Schema

  datatype Call = Call(key: Key, name: string, input: Value, options: Options)

  /** What a handler asks of its context, or how it returns.
      Start is ExecuteActivityAsync; Get and Receive are Future.Get on an activity and on a signal,
      so ExecuteActivity is Start followed by Get. */
  datatype Request =
    | Start(call: Call)
    | Get(key: Key)
    | Receive(key: Key)
    | Return
    | Suspend
    | Raise(unrecoverable: bool)
  {
    predicate Asks() { Start? || Get? || Receive? }
  }

  /** Refused is the error of a start whose row could not be inserted; the handler gets it like any other answer. */
  datatype Answer = Scheduled | Refused | Got(value: Value) | NotYet

  /** A deterministic handler: the answers consumed so far decide what it asks next.
      Decoding a value is part of the handler, so a decode failure is a Raise. */
  type Script = seq<Answer> -> Request

  /** Registered handlers by workflow name; a handler also sees its workflow id and its input. */
  type Registry = map<string, (Id, Value) -> Script>

  function DefaultKey(name: string, wf: Id, discriminator: string): Key {
    Key(wf, name + discriminator)
  }

  function Lookup(events: Events, k: Key): Answer {
    if k in events then Got(events[k]) else NotYet
  }

  function Reply(r: Request, history: Events, signals: Events): Answer
    requires r.Asks()
  {
    match r
    case Start(_) => Scheduled
    case Get(k) => Lookup(history, k)
    case Receive(k) => Lookup(signals, k)
  }

  predicate Fits(r: Request, a: Answer) {
    match r
    case Start(_) => a == Scheduled || a == Refused
    case Get(_) => a.Got? || a == NotYet
    case Receive(_) => a.Got? || a == NotYet
    case _ => false
  }

  ghost predicate FitsAt(h: Script, tr: seq<Answer>, i: nat)
    requires i < |tr|
  {
    Fits(h(tr[..i]), tr[i])
  }

  /** tr answers the handler's requests, one after another. */
  ghost predicate Path(h: Script, tr: seq<Answer>) {
    forall i :: 0 <= i < |tr| ==> FitsAt(h, tr, i)
  }

  ghost predicate Answered(h: Script, history: Events, signals: Events, tr: seq<Answer>, i: nat)
    requires i < |tr|
  {
    h(tr[..i]).Asks() && tr[i] == Reply(h(tr[..i]), history, signals)
  }

  /** tr is the sequence of answers that a replay on these events has consumed so far. */
  ghost predicate Trace(h: Script, history: Events, signals: Events, tr: seq<Answer>) {
    forall i :: 0 <= i < |tr| ==> Answered(h, history, signals, tr, i)
  }

  ghost predicate AttemptedAt(h: Script, history: Events, signals: Events, tr: seq<Answer>, i: nat)
    requires i < |tr|
  {
    var r := h(tr[..i]);
    r.Asks() && (tr[i] == Reply(r, history, signals) || (tr[i] == Refused && r.Start? && r.call.key !in history))
  }

  /** A replay in which inserts may also have been refused. */
  ghost predicate Attempt(h: Script, history: Events, signals: Events, tr: seq<Answer>) {
    forall i :: 0 <= i < |tr| ==> AttemptedAt(h, history, signals, tr, i)
  }

  predicate Accepted(tr: seq<Answer>) {
    forall i :: 0 <= i < |tr| ==> tr[i] != Refused
  }

  /** The handler asked to start an activity with key k at step i. */
  ghost predicate StartedAt(h: Script, tr: seq<Answer>, i: nat, k: Key)
    requires i <= |tr|
  {
    h(tr[..i]).Start? && h(tr[..i]).call.key == k
  }

  ghost predicate Starts(h: Script, tr: seq<Answer>, k: Key) {
    exists i :: 0 <= i < |tr| && StartedAt(h, tr, i, k)
  }

  /** The handler started an activity with key k along tr, and was not refused. */
  ghost predicate Inserts(h: Script, tr: seq<Answer>, k: Key) {
    exists i :: 0 <= i < |tr| && tr[i] == Scheduled && StartedAt(h, tr, i, k)
  }

  ghost predicate GotAt(h: Script, tr: seq<Answer>, i: nat, k: Key)
    requires i < |tr|
  {
    h(tr[..i]) == Get(k)
  }

  /** The handler got the result of the activity with key k along tr. */
  ghost predicate Gets(h: Script, tr: seq<Answer>, k: Key) {
    exists i :: 0 <= i < |tr| && GotAt(h, tr, i, k)
  }

  /** Suspension is returned as soon as it is seen, and never invented. */
  ghost predicate Propagates(h: Script) {
    && (forall tr :: Path(h, tr) && tr != [] && tr[|tr| - 1] == NotYet ==> h(tr) == Suspend)
    && (forall tr :: Path(h, tr) && h(tr) == Suspend ==> tr != [] && tr[|tr| - 1] == NotYet)
  }

  /** The error of a start that was refused is returned as soon as it is seen. */
  ghost predicate RaisesRefused(h: Script) {
    forall tr :: Path(h, tr) && tr != [] && tr[|tr| - 1] == Refused ==> h(tr).Raise?
  }

  /** Await style: every error a context hands out ends the run, suspension included. */
  ghost predicate Awaits(h: Script) {
    Propagates(h) && RaisesRefused(h)
  }

  /** A future comes from an earlier start with the same key (Go's types leave no other way). */
  ghost predicate FuturesStarted(h: Script) {
    forall tr :: Path(h, tr) && h(tr).Get? ==> Starts(h, tr, h(tr).key)
  }

  /** No path of the handler makes more than n requests. */
  ghost predicate Bounded(h: Script, n: nat) {
    forall tr :: Path(h, tr) && h(tr).Asks() ==> |tr| < n
  }

  // ---- paths ----

  lemma AttemptIsPath(h: Script, history: Events, signals: Events, tr: seq<Answer>)
    requires Attempt(h, history, signals, tr)
    ensures Path(h, tr)
  {
    forall i | 0 <= i < |tr|
      ensures FitsAt(h, tr, i)
    {
      assert AttemptedAt(h, history, signals, tr, i);
    }
  }

  lemma TraceIsAttempt(h: Script, history: Events, signals: Events, tr: seq<Answer>)
    requires Trace(h, history, signals, tr)
    ensures Attempt(h, history, signals, tr) && Path(h, tr) && Accepted(tr)
  {
    forall i | 0 <= i < |tr|
      ensures AttemptedAt(h, history, signals, tr, i) && tr[i] != Refused
    {
      assert Answered(h, history, signals, tr, i);
    }
    AttemptIsPath(h, history, signals, tr);
  }

  lemma AcceptedIsTrace(h: Script, history: Events, signals: Events, tr: seq<Answer>)
    requires Attempt(h, history, signals, tr) && Accepted(tr)
    ensures Trace(h, history, signals, tr)
  {
    forall i | 0 <= i < |tr|
      ensures Answered(h, history, signals, tr, i)
    {
      assert AttemptedAt(h, history, signals, tr, i);
    }
  }

  lemma PathPrefix(h: Script, tr: seq<Answer>, n: nat)
    requires Path(h, tr) && n <= |tr|
    ensures Path(h, tr[..n])
  {
    forall i | 0 <= i < n
      ensures FitsAt(h, tr[..n], i)
    {
      assert FitsAt(h, tr, i);
      assert tr[..n][..i] == tr[..i];
    }
  }

  lemma AttemptPrefix(h: Script, history: Events, signals: Events, tr: seq<Answer>, n: nat)
    requires Attempt(h, history, signals, tr) && n <= |tr|
    ensures Attempt(h, history, signals, tr[..n])
  {
    forall i | 0 <= i < n
      ensures AttemptedAt(h, history, signals, tr[..n], i)
    {
      assert AttemptedAt(h, history, signals, tr, i);
      assert tr[..n][..i] == tr[..i];
    }
  }

  lemma AttemptExtend(h: Script, history: Events, signals: Events, tr: seq<Answer>, a: Answer)
    requires Attempt(h, history, signals, tr) && h(tr).Asks()
    requires a == Reply(h(tr), history, signals) || (a == Refused && h(tr).Start? && h(tr).call.key !in history)
    ensures Attempt(h, history, signals, tr + [a])
  {
    var next := tr + [a];
    forall i | 0 <= i < |next|
      ensures AttemptedAt(h, history, signals, next, i)
    {
      assert next[..i] == tr[..i];
      if i < |tr| {
        assert AttemptedAt(h, history, signals, tr, i);
      } else {
        assert tr[..i] == tr;
      }
    }
  }

  /** Under await style a refusal can only be the last answer, and ends the run with an error. */
  lemma RefusalIsLast(h: Script, tr: seq<Answer>, i: nat)
    requires RaisesRefused(h) && Path(h, tr) && i < |tr| && tr[i] == Refused
    ensures i == |tr| - 1 && h(tr).Raise?
  {
    var upTo := tr[..i + 1];
    PathPrefix(h, tr, i + 1);
    assert upTo[|upTo| - 1] == Refused;
    assert i + 1 < |tr| ==> FitsAt(h, tr, i + 1);
    assert tr[..|tr|] == tr;
  }

  lemma UnraisedIsTrace(h: Script, history: Events, signals: Events, tr: seq<Answer>)
    requires RaisesRefused(h) && Attempt(h, history, signals, tr)
    ensures !h(tr).Raise? ==> Trace(h, history, signals, tr)
    ensures tr != [] ==> Trace(h, history, signals, tr[..|tr| - 1])
  {
    AttemptIsPath(h, history, signals, tr);
    forall i | 0 <= i < |tr| && tr[i] == Refused
      ensures i == |tr| - 1 && h(tr).Raise?
    {
      RefusalIsLast(h, tr, i);
    }
    if !h(tr).Raise? {
      AcceptedIsTrace(h, history, signals, tr);
    }
    if tr != [] {
      AttemptPrefix(h, history, signals, tr, |tr| - 1);
      AcceptedIsTrace(h, history, signals, tr[..|tr| - 1]);
    }
  }

  lemma InsertsStarts(h: Script, tr: seq<Answer>, k: Key)
    ensures Inserts(h, tr, k) ==> Starts(h, tr, k)
    ensures Path(h, tr) && Accepted(tr) && Starts(h, tr, k) ==> Inserts(h, tr, k)
  {
    if Path(h, tr) && Accepted(tr) && Starts(h, tr, k) {
      var i :| 0 <= i < |tr| && StartedAt(h, tr, i, k);
      assert FitsAt(h, tr, i);
    }
  }

  lemma TracePrefix(h: Script, history: Events, signals: Events, tr: seq<Answer>, n: nat)
    requires Trace(h, history, signals, tr) && n <= |tr|
    ensures Trace(h, history, signals, tr[..n])
  {
    forall i | 0 <= i < n
      ensures Answered(h, history, signals, tr[..n], i)
    {
      assert Answered(h, history, signals, tr, i);
      assert tr[..n][..i] == tr[..i];
    }
  }

  lemma TraceExtend(h: Script, history: Events, signals: Events, tr: seq<Answer>)
    requires Trace(h, history, signals, tr) && h(tr).Asks()
    ensures Trace(h, history, signals, tr + [Reply(h(tr), history, signals)])
  {
    var next := tr + [Reply(h(tr), history, signals)];
    forall i | 0 <= i < |next|
      ensures Answered(h, history, signals, next, i)
    {
      assert next[..i] == tr[..i];
      if i < |tr| {
        assert Answered(h, history, signals, tr, i);
      } else {
        assert tr[..i] == tr;
      }
    }
  }

  lemma StartsGrow(h: Script, tr: seq<Answer>, n: nat, k: Key)
    requires n <= |tr| && Starts(h, tr[..n], k)
    ensures Starts(h, tr, k)
  {
    var i :| 0 <= i < n && StartedAt(h, tr[..n], i, k);
    assert tr[..n][..i] == tr[..i];
    assert StartedAt(h, tr, i, k);
  }

  /** Replaying on the same events consumes the same answers. */
  lemma {:induction false} TracesAgree(h: Script, history: Events, signals: Events, t: seq<Answer>, u: seq<Answer>)
    requires Trace(h, history, signals, t) && Trace(h, history, signals, u)
    requires |t| <= |u|
    ensures t == u[..|t|]
  {
    if t != [] {
      var n := |t| - 1;
      TracePrefix(h, history, signals, t, n);
      TracesAgree(h, history, signals, t[..n], u);
      assert Answered(h, history, signals, t, n) && Answered(h, history, signals, u, n);
      assert t == t[..n] + [t[n]];
    }
  }

  lemma AskedInside(h: Script, history: Events, signals: Events, tr: seq<Answer>, i: nat)
    requires Trace(h, history, signals, tr) && i < |tr|
    ensures h(tr[..i]).Asks()
  {
    assert Answered(h, history, signals, tr, i);
  }

  /** A replay that returned is the longest one on its events. */
  lemma EndedIsLongest(h: Script, history: Events, signals: Events, t: seq<Answer>, u: seq<Answer>)
    requires Trace(h, history, signals, t) && Trace(h, history, signals, u)
    requires !h(t).Asks()
    ensures |u| <= |t| && u == t[..|u|]
  {
    if |u| > |t| {
      AskedInside(h, history, signals, u, |t|);
      TracesAgree(h, history, signals, t, u);
    }
    TracesAgree(h, history, signals, u, t);
  }

  /** Every answer of tr is settled: nothing along it was still missing. */
  predicate Solid(tr: seq<Answer>) {
    forall i :: 0 <= i < |tr| ==> tr[i] != NotYet
  }

  /** The answers of tr without a trailing suspension or refusal. */
  function Settled(tr: seq<Answer>): seq<Answer> {
    if tr != [] && (tr[|tr| - 1] == NotYet || tr[|tr| - 1] == Refused) then tr[..|tr| - 1] else tr
  }

  /** What was answered stays answered the same way when events are only added. */
  lemma SolidGrows(h: Script, h0: Events, s0: Events, h1: Events, s1: Events, tr: seq<Answer>)
    requires Trace(h, h0, s0, tr) && Solid(tr)
    requires Within(h0, h1) && Within(s0, s1)
    ensures Trace(h, h1, s1, tr)
  {
    forall i | 0 <= i < |tr|
      ensures Answered(h, h1, s1, tr, i)
    {
      assert Answered(h, h0, s0, tr, i);
    }
  }

  lemma SuspensionIsLast(h: Script, history: Events, signals: Events, tr: seq<Answer>, i: nat)
    requires Propagates(h) && Trace(h, history, signals, tr)
    requires i < |tr| && tr[i] == NotYet
    ensures i == |tr| - 1
  {
    if i < |tr| - 1 {
      var upTo := tr[..i + 1];
      TracePrefix(h, history, signals, tr, i + 1);
      TraceIsAttempt(h, history, signals, upTo);
      assert upTo[|upTo| - 1] == NotYet;
      AskedInside(h, history, signals, tr, i + 1);
    }
  }

  /** Where suspension propagates, only the last answer can be a suspension. */
  lemma SettledIsSolid(h: Script, history: Events, signals: Events, tr: seq<Answer>)
    requires Propagates(h) && Trace(h, history, signals, tr)
    ensures Solid(Settled(tr))
    ensures h(tr) != Suspend ==> Settled(tr) == tr
    ensures Trace(h, history, signals, Settled(tr))
  {
    TraceIsAttempt(h, history, signals, tr);
    forall i | 0 <= i < |tr| && tr[i] == NotYet
      ensures i == |tr| - 1
    {
      SuspensionIsLast(h, history, signals, tr, i);
    }
    TracePrefix(h, history, signals, tr, |Settled(tr)|);
  }

  /** Each replay's settled answers are a prefix of every later replay's answers. */
  lemma ReplayExtends(h: Script, h0: Events, s0: Events, t: seq<Answer>, h1: Events, s1: Events, u: seq<Answer>)
    requires Propagates(h)
    requires Within(h0, h1) && Within(s0, s1)
    requires Trace(h, h0, s0, t)
    requires Trace(h, h1, s1, u) && !h(u).Asks()
    ensures |Settled(t)| <= |u| && Settled(t) == u[..|Settled(t)|]
  {
    SettledIsSolid(h, h0, s0, t);
    SolidGrows(h, h0, s0, h1, s1, Settled(t));
    EndedIsLongest(h, h1, s1, u, Settled(t));
  }

  ghost predicate Consistently(t: seq<Answer>, u: seq<Answer>) {
    forall i :: 0 <= i < |t| && i < |u| ==> t[i] == u[i]
  }

  /** The answers of tr without a trailing refusal. */
  function Unrefused(tr: seq<Answer>): seq<Answer> {
    if tr != [] && tr[|tr| - 1] == Refused then tr[..|tr| - 1] else tr
  }

  lemma UnrefusedIsTrace(h: Script, history: Events, signals: Events, tr: seq<Answer>)
    requires RaisesRefused(h) && Attempt(h, history, signals, tr)
    ensures Trace(h, history, signals, Unrefused(tr))
  {
    AttemptIsPath(h, history, signals, tr);
    forall i | 0 <= i < |tr| && tr[i] == Refused
      ensures i == |tr| - 1
    {
      RefusalIsLast(h, tr, i);
    }
    AttemptPrefix(h, history, signals, tr, |Unrefused(tr)|);
    AcceptedIsTrace(h, history, signals, Unrefused(tr));
  }

  /** What an attempt has settled is a replay with nothing missing. */
  lemma SettledAttempt(h: Script, history: Events, signals: Events, tr: seq<Answer>)
    requires Awaits(h) && Attempt(h, history, signals, tr)
    ensures Trace(h, history, signals, Settled(tr)) && Solid(Settled(tr))
  {
    UnrefusedIsTrace(h, history, signals, tr);
    SettledIsSolid(h, history, signals, Unrefused(tr));
    if tr != [] && tr[|tr| - 1] == Refused {
      assert AttemptedAt(h, history, signals, tr, |tr| - 1);
      assert Settled(tr) == Unrefused(tr) == Settled(Unrefused(tr));
    }
  }

  /** The same as ReplayExtends when inserts may have been refused. */
  lemma AttemptExtends(h: Script, h0: Events, s0: Events, t: seq<Answer>, h1: Events, s1: Events, u: seq<Answer>)
    requires Awaits(h) && Within(h0, h1) && Within(s0, s1)
    requires Attempt(h, h0, s0, t) && Attempt(h, h1, s1, u)
    ensures Consistently(Settled(t), Unrefused(u))
    ensures !h(u).Asks() && Accepted(u) ==> |Settled(t)| <= |u| && Settled(t) == u[..|Settled(t)|]
  {
    SettledAttempt(h, h0, s0, t);
    UnrefusedIsTrace(h, h1, s1, u);
    SolidGrows(h, h0, s0, h1, s1, Settled(t));
    if |Settled(t)| <= |Unrefused(u)| {
      TracesAgree(h, h1, s1, Settled(t), Unrefused(u));
    } else {
      TracesAgree(h, h1, s1, Unrefused(u), Settled(t));
    }
    if !h(u).Asks() && Accepted(u) {
      EndedIsLongest(h, h1, s1, u, Settled(t));
    }
  }

  /** A suspended replay, run again on fewer events, still suspends and does no more than before. */
  lemma ShrunkStillSuspends(h: Script, h0: Events, s0: Events, h1: Events, s1: Events, tr: seq<Answer>)
      returns (again: seq<Answer>)
    requires Propagates(h)
    requires Within(h0, h1) && Within(s0, s1)
    requires Attempt(h, h1, s1, tr) && h(tr) == Suspend
    ensures Attempt(h, h0, s0, again) && h(again) == Suspend
    ensures 0 < |again| <= |tr| && again[..|again| - 1] == tr[..|again| - 1] && again[|again| - 1] == NotYet
  {
    AttemptIsPath(h, h1, s1, tr);
    var n := FirstMissing(h, h0, s0, h1, s1, tr, 0);
    again := tr[..n] + [NotYet];
    assert again[..n] == tr[..n];
    AttemptExtend(h, h0, s0, tr[..n], NotYet);
    AttemptIsPath(h, h0, s0, again);
  }

  lemma {:induction false} FirstMissing(h: Script, h0: Events, s0: Events, h1: Events, s1: Events, tr: seq<Answer>,
                                        from: nat)
      returns (n: nat)
    requires Within(h0, h1) && Within(s0, s1)
    requires Attempt(h, h1, s1, tr) && tr != [] && tr[|tr| - 1] == NotYet
    requires from < |tr| && Attempt(h, h0, s0, tr[..from])
    ensures n < |tr| && Attempt(h, h0, s0, tr[..n])
    ensures h(tr[..n]).Asks() && Reply(h(tr[..n]), h0, s0) == NotYet
    decreases |tr| - from
  {
    assert AttemptedAt(h, h1, s1, tr, from);
    if Reply(h(tr[..from]), h0, s0) == NotYet {
      n := from;
    } else {
      AttemptExtend(h, h0, s0, tr[..from], tr[from]);
      assert tr[..from + 1] == tr[..from] + [tr[from]];
      n := FirstMissing(h, h0, s0, h1, s1, tr, from + 1);
    }
  }

  // ---- one uninterrupted execution ----

  type Oracle = Key -> Value

  function DirectReply(r: Request, outputs: Oracle, payloads: Oracle): Answer
    requires r.Asks()
  {
    match r
    case Start(_) => Scheduled
    case Get(k) => Got(outputs(k))
    case Receive(k) => Got(payloads(k))
  }

  ghost predicate DirectAt(h: Script, outputs: Oracle, payloads: Oracle, tr: seq<Answer>, i: nat)
    requires i < |tr|
  {
    h(tr[..i]).Asks() && tr[i] == DirectReply(h(tr[..i]), outputs, payloads)
  }

  /** tr is what the handler sees when every await simply yields its value. */
  ghost predicate Direct(h: Script, outputs: Oracle, payloads: Oracle, tr: seq<Answer>) {
    forall i :: 0 <= i < |tr| ==> DirectAt(h, outputs, payloads, tr, i)
  }

  ghost predicate RecordedFrom(events: Events, source: Oracle) {
    forall k :: k in events ==> events[k] == source(k)
  }

  /** Every value the handler asks for along tr is among the events. */
  ghost predicate Supplied(h: Script, history: Events, signals: Events, tr: seq<Answer>) {
    forall i :: 0 <= i < |tr| ==> SuppliedAt(h, history, signals, tr, i)
  }

  ghost predicate SuppliedAt(h: Script, history: Events, signals: Events, tr: seq<Answer>, i: nat)
    requires i < |tr|
  {
    var r := h(tr[..i]);
    (r.Get? ==> r.key in history) && (r.Receive? ==> r.key in signals)
  }

  /** A replay reproduces a direct execution exactly when the values it asks for have been recorded. */
  lemma ReplayIsDirectExecution(h: Script, history: Events, signals: Events, outputs: Oracle, payloads: Oracle,
                                tr: seq<Answer>)
    requires RecordedFrom(history, outputs) && RecordedFrom(signals, payloads)
    requires Direct(h, outputs, payloads, tr)
    ensures Trace(h, history, signals, tr) <==> Supplied(h, history, signals, tr)
  {
    forall i | 0 <= i < |tr|
      ensures Answered(h, history, signals, tr, i) <==> SuppliedAt(h, history, signals, tr, i)
    {
      assert DirectAt(h, outputs, payloads, tr, i);
    }
    if Trace(h, history, signals, tr) {
      forall i | 0 <= i < |tr|
        ensures SuppliedAt(h, history, signals, tr, i)
      {
        assert Answered(h, history, signals, tr, i);
      }
    }
    if Supplied(h, history, signals, tr) {
      forall i | 0 <= i < |tr|
        ensures Answered(h, history, signals, tr, i)
      {
        assert SuppliedAt(h, history, signals, tr, i);
      }
    }
  }

  /** Conversely, whatever a replay has settled is what the direct execution sees. */
  lemma SettledIsDirect(h: Script, history: Events, signals: Events, outputs: Oracle, payloads: Oracle, tr: seq<Answer>)
    requires Propagates(h)
    requires RecordedFrom(history, outputs) && RecordedFrom(signals, payloads)
    requires Trace(h, history, signals, tr)
    ensures Direct(h, outputs, payloads, Settled(tr))
  {
    SettledIsSolid(h, history, signals, tr);
    var t := Settled(tr);
    forall i | 0 <= i < |t|
      ensures DirectAt(h, outputs, payloads, t, i)
    {
      assert Answered(h, history, signals, t, i);
    }
  }

  lemma {:induction false} DirectAgree(h: Script, outputs: Oracle, payloads: Oracle, t: seq<Answer>, u: seq<Answer>)
    requires Direct(h, outputs, payloads, t) && Direct(h, outputs, payloads, u)
    requires |t| <= |u|
    ensures t == u[..|t|]
  {
    if t != [] {
      var n := |t| - 1;
      forall i | 0 <= i < n
        ensures DirectAt(h, outputs, payloads, t[..n], i)
      {
        assert DirectAt(h, outputs, payloads, t, i);
        assert t[..n][..i] == t[..i];
      }
      DirectAgree(h, outputs, payloads, t[..n], u);
      assert DirectAt(h, outputs, payloads, t, n) && DirectAt(h, outputs, payloads, u, n);
      assert t == t[..n] + [t[n]];
    }
  }

  lemma DirectAsked(h: Script, outputs: Oracle, payloads: Oracle, tr: seq<Answer>, i: nat)
    requires Direct(h, outputs, payloads, tr) && i < |tr|
    ensures h(tr[..i]).Asks()
  {
    assert DirectAt(h, outputs, payloads, tr, i);
  }

  /** A replay that ran to the end consumed exactly the answers of the one uninterrupted execution. */
  lemma ReturnedReplayIsDirect(h: Script, history: Events, signals: Events, outputs: Oracle, payloads: Oracle,
                               tr: seq<Answer>, direct: seq<Answer>)
    requires Propagates(h)
    requires RecordedFrom(history, outputs) && RecordedFrom(signals, payloads)
    requires Trace(h, history, signals, tr) && h(tr) == Return
    requires Direct(h, outputs, payloads, direct) && !h(direct).Asks()
    ensures tr == direct
  {
    SettledIsSolid(h, history, signals, tr);
    SettledIsDirect(h, history, signals, outputs, payloads, tr);
    if |tr| < |direct| {
      DirectAsked(h, outputs, payloads, direct, |tr|);
      DirectAgree(h, outputs, payloads, tr, direct);
    } else if |direct| < |tr| {
      DirectAsked(h, outputs, payloads, tr, |direct|);
      DirectAgree(h, outputs, payloads, direct, tr);
    } else {
      DirectAgree(h, outputs, payloads, tr, direct);
    }
  }

  // ---- replays that end ----

  /** On these events the handler runs to its end along tr, and nothing it asked for was missing. */
  ghost predicate EndsOn(h: Script, history: Events, signals: Events, tr: seq<Answer>) {
    Trace(h, history, signals, tr) && Solid(tr) && h(tr) == Return
  }

  /** Whatever the handler starts on a replay that ends, it also gets on that replay. */
  ghost predicate Collects(h: Script) {
    forall history: Events, signals: Events, tr: seq<Answer>, k: Key ::
      EndsOn(h, history, signals, tr) && Starts(h, tr, k) ==> Gets(h, tr, k)
  }

  /** On any events, whatever a replay that ends has started has been recorded. */
  ghost predicate EndsRecorded(h: Script) {
    forall history: Events, signals: Events, tr: seq<Answer>, k: Key ::
      EndsOn(h, history, signals, tr) && Starts(h, tr, k) ==> k in history
  }

  /** Whatever the replay has got was recorded. */
  lemma GotIsRecorded(h: Script, history: Events, signals: Events, tr: seq<Answer>, k: Key)
    requires Trace(h, history, signals, tr) && Solid(tr) && Gets(h, tr, k)
    ensures k in history
  {
    var i :| 0 <= i < |tr| && GotAt(h, tr, i, k);
    assert Answered(h, history, signals, tr, i);
  }

  /** What the replay never got makes no difference to it. */
  lemma UngotIsIrrelevant(h: Script, history: Events, signals: Events, tr: seq<Answer>, k: Key)
    requires Trace(h, history, signals, tr) && !Gets(h, tr, k)
    ensures Trace(h, history - {k}, signals, tr)
  {
    forall i | 0 <= i < |tr|
      ensures Answered(h, history - {k}, signals, tr, i)
    {
      assert Answered(h, history, signals, tr, i) && !GotAt(h, tr, i, k);
    }
  }

  /** A handler can end with an activity unrecorded exactly when it can end without having got it. */
  lemma CollectsIff(h: Script)
    ensures Collects(h) <==> EndsRecorded(h)
  {
    if Collects(h) {
      forall history: Events, signals: Events, tr: seq<Answer>, k: Key |
        EndsOn(h, history, signals, tr) && Starts(h, tr, k)
        ensures k in history
      {
        GotIsRecorded(h, history, signals, tr, k);
      }
    }
    if EndsRecorded(h) {
      forall history: Events, signals: Events, tr: seq<Answer>, k: Key |
        EndsOn(h, history, signals, tr) && Starts(h, tr, k)
        ensures Gets(h, tr, k)
      {
        if !Gets(h, tr, k) {
          UngotIsIrrelevant(h, history, signals, tr, k);
          assert EndsOn(h, history - {k}, signals, tr);
        }
      }
    }
  }
}
