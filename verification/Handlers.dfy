/** Handlers written as programs, and the ones the documentation shows, with what the theorems ask of a handler. */
module Handlers {
  import opened Schema
  import opened Replay

  // ---- handlers that only use ExecuteActivity and ReceiveSignal ----

  /** Every error of the context is returned at once; rest says how the handler goes on with the value. */
  datatype Program =
    | Done
    | Fail(unrecoverable: bool)
    | Execute(call: Call, rest: Value -> Program)
    | Await(signal: Key, rest: Value -> Program)

  function Says(p: Program, tr: seq<Answer>): Request
    decreases |tr|
  {
    match p
    case Done => Return
    case Fail(unrecoverable) => Raise(unrecoverable)
    case Execute(call, rest) =>
      if tr == [] then Start(call)
      else if tr[0] == Refused then Raise(false)
      else if |tr| == 1 then Get(call.key)
      else if tr[1].Got? then Says(rest(tr[1].value), tr[2..])
      else Suspend
    case Await(signal, rest) =>
      if tr == [] then Receive(signal)
      else if tr[0].Got? then Says(rest(tr[0].value), tr[1..])
      else Suspend
  }

  function Handler(p: Program): Script {
    (tr: seq<Answer>) => Says(p, tr)
  }

  /** No run of the program makes more than n calls. */
  ghost predicate Depth(p: Program, n: nat)
    decreases n
  {
    match p
    case Done => true
    case Fail(_) => true
    case Execute(_, rest) => n > 0 && forall v :: Depth(rest(v), n - 1)
    case Await(_, rest) => n > 0 && forall v :: Depth(rest(v), n - 1)
  }

  /** What is left of a path after the first call of the program. */
  ghost predicate Continues(p: Program, tr: seq<Answer>, q: Program, n: nat) {
    && n <= |tr|
    && match p
       case Execute(_, rest) => n == 2 && tr[0] == Scheduled && tr[1].Got? && q == rest(tr[1].value)
       case Await(_, rest) => n == 1 && tr[0].Got? && q == rest(tr[0].value)
       case _ => false
  }

  lemma Shifted(p: Program, tr: seq<Answer>, q: Program, n: nat)
    requires Path(Handler(p), tr) && Continues(p, tr, q, n)
    ensures Path(Handler(q), tr[n..]) && Says(p, tr) == Says(q, tr[n..])
    ensures forall k :: Starts(Handler(q), tr[n..], k) ==> Starts(Handler(p), tr, k)
    ensures forall k :: Gets(Handler(q), tr[n..], k) ==> Gets(Handler(p), tr, k)
    ensures forall k :: Starts(Handler(p), tr, k) ==> Starts(Handler(q), tr[n..], k) || (p.Execute? && k == p.call.key)
  {
    forall i | 0 <= i <= |tr| - n
      ensures Says(p, tr[..i + n]) == Says(q, tr[n..][..i])
    {
      assert tr[..i + n][n..] == tr[n..][..i];
    }
    assert tr[..|tr|] == tr && tr[n..][..|tr| - n] == tr[n..];
    forall i | 0 <= i < |tr| - n
      ensures FitsAt(Handler(q), tr[n..], i)
    {
      assert FitsAt(Handler(p), tr, i + n);
    }
    forall k | Starts(Handler(q), tr[n..], k)
      ensures Starts(Handler(p), tr, k)
    {
      var i :| 0 <= i < |tr| - n && StartedAt(Handler(q), tr[n..], i, k);
      assert StartedAt(Handler(p), tr, i + n, k);
    }
    forall k | Gets(Handler(q), tr[n..], k)
      ensures Gets(Handler(p), tr, k)
    {
      var i :| 0 <= i < |tr| - n && GotAt(Handler(q), tr[n..], i, k);
      assert GotAt(Handler(p), tr, i + n, k);
    }
    forall k | Starts(Handler(p), tr, k)
      ensures Starts(Handler(q), tr[n..], k) || (p.Execute? && k == p.call.key)
    {
      var i :| 0 <= i < |tr| && StartedAt(Handler(p), tr, i, k);
      if i >= n {
        assert tr[..i] == tr[..(i - n) + n];
        assert StartedAt(Handler(q), tr[n..], i - n, k);
      }
    }
  }

  /** How a path of a program begins. */
  lemma Begins(p: Program, tr: seq<Answer>)
    requires Path(Handler(p), tr) && tr != []
    ensures match p
      case Execute(_, _) =>
        || tr == [Refused] || tr == [Scheduled] || tr == [Scheduled, NotYet]
        || (|tr| >= 2 && tr[0] == Scheduled && tr[1].Got?)
      case Await(_, _) => tr == [NotYet] || tr[0].Got?
      case _ => false
  {
    assert FitsAt(Handler(p), tr, 0);
    assert tr[..0] == [];
    if |tr| >= 2 {
      assert FitsAt(Handler(p), tr, 1);
      assert tr[..1] == [tr[0]];
    }
    if |tr| >= 3 {
      assert FitsAt(Handler(p), tr, 2);
      assert tr[..2] == [tr[0], tr[1]];
    }
  }

  /** Where a path of a program stands. */
  lemma {:induction false} Stands(p: Program, tr: seq<Answer>)
    requires Path(Handler(p), tr)
    ensures tr != [] && tr[|tr| - 1] == NotYet <==> Says(p, tr) == Suspend
    ensures tr != [] && tr[|tr| - 1] == Refused ==> Says(p, tr).Raise?
    ensures Says(p, tr).Get? ==> Starts(Handler(p), tr, Says(p, tr).key)
    decreases |tr|
  {
    if tr != [] {
      Begins(p, tr);
      if p.Execute? && |tr| >= 2 && tr[1].Got? {
        Shifted(p, tr, p.rest(tr[1].value), 2);
        Stands(p.rest(tr[1].value), tr[2..]);
      } else if p.Await? && tr[0].Got? {
        Shifted(p, tr, p.rest(tr[0].value), 1);
        Stands(p.rest(tr[0].value), tr[1..]);
      } else if tr == [Scheduled] {
        assert tr[..0] == [];
        assert StartedAt(Handler(p), tr, 0, p.call.key);
      }
    }
  }

  lemma {:induction false} CollectsAlong(p: Program, tr: seq<Answer>, k: Key)
    requires Path(Handler(p), tr) && Says(p, tr) == Return && Starts(Handler(p), tr, k)
    ensures Gets(Handler(p), tr, k)
    decreases |tr|
  {
    Begins(p, tr);
    if p.Execute? {
      Shifted(p, tr, p.rest(tr[1].value), 2);
      if k == p.call.key {
        assert tr[..1] == [Scheduled];
        assert GotAt(Handler(p), tr, 1, k);
      } else {
        CollectsAlong(p.rest(tr[1].value), tr[2..], k);
      }
    } else {
      Shifted(p, tr, p.rest(tr[0].value), 1);
      CollectsAlong(p.rest(tr[0].value), tr[1..], k);
    }
  }

  lemma {:induction false} ShortPaths(p: Program, tr: seq<Answer>, n: nat)
    requires Depth(p, n) && Path(Handler(p), tr) && Says(p, tr).Asks()
    ensures |tr| < 2 * n
    decreases |tr|
  {
    if tr != [] {
      Begins(p, tr);
      if p.Execute? && |tr| >= 2 {
        Shifted(p, tr, p.rest(tr[1].value), 2);
        ShortPaths(p.rest(tr[1].value), tr[2..], n - 1);
      } else if p.Await? {
        Shifted(p, tr, p.rest(tr[0].value), 1);
        ShortPaths(p.rest(tr[0].value), tr[1..], n - 1);
      }
    }
  }

  /** Every handler made of ExecuteActivity and ReceiveSignal alone meets all that is asked of handlers. */
  lemma ProgramsQualify(p: Program)
    ensures Awaits(Handler(p)) && FuturesStarted(Handler(p)) && Collects(Handler(p))
    ensures forall n: nat :: Depth(p, n) ==> Bounded(Handler(p), 2 * n)
  {
    var h := Handler(p);
    forall tr: seq<Answer> | Path(h, tr)
      ensures tr != [] && tr[|tr| - 1] == NotYet <==> h(tr) == Suspend
      ensures tr != [] && tr[|tr| - 1] == Refused ==> h(tr).Raise?
      ensures h(tr).Get? ==> Starts(h, tr, h(tr).key)
    {
      Stands(p, tr);
    }
    forall history: Events, signals: Events, tr: seq<Answer>, k: Key | EndsOn(h, history, signals, tr)
      && Starts(h, tr, k)
      ensures Gets(h, tr, k)
    {
      TraceIsAttempt(h, history, signals, tr);
      CollectsAlong(p, tr, k);
    }
    forall n: nat | Depth(p, n)
      ensures Bounded(h, 2 * n)
    {
      forall tr: seq<Answer> | Path(h, tr) && h(tr).Asks()
        ensures |tr| < 2 * n
      {
        ShortPaths(p, tr, n);
      }
    }
  }

  /** The example's order workflow: charge, wait for the signal, and send the mail if it says so. */
  function Order(charge: Call, notify: Key, shouldNotify: Value -> bool, email: Value -> Call): Program {
    Execute(charge, (charged: Value) =>
      Await(notify, (answer: Value) =>
        if shouldNotify(answer) then Execute(email(charged), (sent: Value) => Done) else Done))
  }

  lemma OrderQualifies(charge: Call, notify: Key, shouldNotify: Value -> bool, email: Value -> Call)
    ensures var h := Handler(Order(charge, notify, shouldNotify, email));
      Awaits(h) && FuturesStarted(h) && Collects(h) && Bounded(h, 6)
  {
    var p := Order(charge, notify, shouldNotify, email);
    forall charged, answer
      ensures Depth(p.rest(charged).rest(answer), 1)
    {
      forall sent | shouldNotify(answer)
        ensures Depth(p.rest(charged).rest(answer).rest(sent), 0)
      {
      }
    }
    forall charged
      ensures Depth(p.rest(charged), 2)
    {
    }
    assert Depth(p, 3);
    ProgramsQualify(p);
  }

  // ---- starting several activities before getting any ----

  /** The documented fan-out: two starts, then two gets. */
  function FanOut(a: Call, b: Call): Script {
    (tr: seq<Answer>) =>
      if tr != [] && tr[|tr| - 1] == Refused then Raise(false)
      else if tr != [] && tr[|tr| - 1] == NotYet then Suspend
      else if |tr| == 0 then Start(a)
      else if |tr| == 1 then Start(b)
      else if |tr| == 2 then Get(a.key)
      else if |tr| == 3 then Get(b.key)
      else Return
  }

  lemma FanOutPath(a: Call, b: Call, tr: seq<Answer>)
    requires Path(FanOut(a, b), tr)
    ensures |tr| <= 4 && (forall i :: 0 <= i < |tr| - 1 ==> tr[i] != Refused && tr[i] != NotYet)
    ensures |tr| >= 1 ==> StartedAt(FanOut(a, b), tr, 0, a.key)
    ensures |tr| >= 2 ==> StartedAt(FanOut(a, b), tr, 1, b.key)
    ensures |tr| >= 3 ==> GotAt(FanOut(a, b), tr, 2, a.key)
    ensures |tr| >= 4 ==> GotAt(FanOut(a, b), tr, 3, b.key)
  {
    forall i | 0 <= i < |tr| - 1
      ensures tr[i] != Refused && tr[i] != NotYet
    {
      assert FitsAt(FanOut(a, b), tr, i + 1);
      assert tr[..i + 1][i] == tr[i];
    }
    assert |tr| > 4 ==> FitsAt(FanOut(a, b), tr, 4);
    forall i | 0 <= i < |tr|
      ensures i < 4
      ensures FanOut(a, b)(tr[..i]) ==
        (if i == 0 then Start(a) else if i == 1 then Start(b) else if i == 2 then Get(a.key) else Get(b.key))
    {
      assert FitsAt(FanOut(a, b), tr, i);
      assert i > 0 ==> tr[..i][i - 1] == tr[i - 1];
    }
  }

  /** It collects what it starts, so it meets all that is asked of handlers. */
  lemma FanOutQualifies(a: Call, b: Call)
    ensures var h := FanOut(a, b); Awaits(h) && FuturesStarted(h) && Collects(h) && Bounded(h, 4)
  {
    var h := FanOut(a, b);
    forall tr: seq<Answer> | Path(h, tr)
      ensures |tr| <= 4 && (h(tr).Asks() ==> |tr| < 4) && (h(tr).Get? ==> Starts(h, tr, h(tr).key))
    {
      FanOutPath(a, b, tr);
    }
    forall history: Events, signals: Events, tr: seq<Answer>, k: Key | EndsOn(h, history, signals, tr)
      && Starts(h, tr, k)
      ensures Gets(h, tr, k)
    {
      TraceIsAttempt(h, history, signals, tr);
      FanOutPath(a, b, tr);
      var i :| 0 <= i < |tr| && StartedAt(h, tr, i, k);
      assert i < 2;
      assert GotAt(h, tr, i + 2, k);
    }
  }

  // ---- handlers outside the hypotheses ----

  /** Starts an activity and returns. */
  function FireAndForget(call: Call): Script {
    (tr: seq<Answer>) => if tr == [] then Start(call) else if tr[0] == Refused then Raise(false) else Return
  }

  lemma FireAndForgetPath(call: Call, tr: seq<Answer>)
    requires Path(FireAndForget(call), tr)
    ensures tr == [] || tr == [Scheduled] || tr == [Refused]
  {
    if tr != [] {
      assert FitsAt(FireAndForget(call), tr, 0);
      assert tr[..1][0] == tr[0];
      assert |tr| > 1 ==> FitsAt(FireAndForget(call), tr, 1);
    }
  }

  lemma FireAndForgetEnds(call: Call)
    ensures !Collects(FireAndForget(call))
  {
    var h, tr := FireAndForget(call), [Scheduled];
    assert tr[..0] == [];
    assert Answered(h, map[], map[], tr, 0);
    assert EndsOn(h, map[], map[], tr);
    assert StartedAt(h, tr, 0, call.key);
    assert Starts(h, tr, call.key) && !Gets(h, tr, call.key);
  }

  /** It meets every hypothesis but Collects. */
  lemma FireAndForgetDoesNotCollect(call: Call)
    ensures var h := FireAndForget(call); Awaits(h) && FuturesStarted(h) && Bounded(h, 1) && !Collects(h)
  {
    forall tr: seq<Answer> | Path(FireAndForget(call), tr)
      ensures tr == [] || tr == [Scheduled] || tr == [Refused]
    {
      FireAndForgetPath(call, tr);
    }
    FireAndForgetEnds(call);
  }

  /** Ignores the error of the start and gets the future it was given. */
  function Heedless(call: Call): Script {
    (tr: seq<Answer>) =>
      if tr == [] then Start(call)
      else if |tr| == 1 then Get(call.key)
      else if tr[1] == NotYet then Suspend
      else Return
  }

  /** It propagates suspension all the same, and meets every hypothesis but RaisesRefused. */
  lemma HeedlessIsNotAwaitStyle(call: Call)
    ensures var h := Heedless(call);
      Propagates(h) && FuturesStarted(h) && Collects(h) && Bounded(h, 2) && !RaisesRefused(h)
  {
    var h := Heedless(call);
    forall tr: seq<Answer> | Path(h, tr) && tr != []
      ensures (tr[0] == Scheduled || tr[0] == Refused) && |tr| <= 2 && StartedAt(h, tr, 0, call.key)
      ensures |tr| == 2 ==> (tr[1] == NotYet || tr[1].Got?) && GotAt(h, tr, 1, call.key)
    {
      assert FitsAt(h, tr, 0);
      assert |tr| > 1 ==> FitsAt(h, tr, 1);
      assert |tr| > 2 ==> FitsAt(h, tr, 2);
    }
    forall history: Events, signals: Events, tr: seq<Answer>, k: Key | EndsOn(h, history, signals, tr)
      && Starts(h, tr, k)
      ensures Gets(h, tr, k)
    {
      TraceIsAttempt(h, history, signals, tr);
      var i :| 0 <= i < |tr| && StartedAt(h, tr, i, k);
      assert GotAt(h, tr, 1, call.key);
    }
    assert FitsAt(h, [Refused], 0);
    assert Path(h, [Refused]);
  }
}
