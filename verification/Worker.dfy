/** The polling loop both workers share, with its semaphore, its wait group and its stop channel. */
module Worker {
  import opened Sets

  /** Where the polling goroutine is. Claims are numbered in the order the loop received them;
      full says that storage returned as many as it was asked for. */
  datatype Loop =
    | Selecting                                  // in the outer select
    | Polling                                    // about to read the free slots
    | Fetching(size: nat)                        // the claim query is running
    | Acquiring(next: nat, end: nat, full: bool) // about to take a slot for claim number next
    | Spawning(next: nat, end: nat, full: bool)  // holds a slot for it, goroutine not started yet
    | CheckingStop
    | Exited

  datatype Stopping = NotCalled | Waiting | Returned(inTime: bool)

  datatype Config = Config(concurrency: nat, batchSize: nat)

  datatype State = State(
    loop: Loop,
    stopped: bool,          // the stop channel is closed
    sem: nat,               // len(sem)
    wg: int,                // the wait group's counter
    holding: set<nat>,      // handlers at work; each holds a slot
    leaving: set<nat>,      // handlers that released their slot but have not left the wait group
    finished: set<nat>,     // handlers that are gone
    claimed: nat,           // claims received from storage so far
    dispatched: seq<nat>,   // claim numbers in the order their goroutines were started
    stop: Stopping)

  const STARTED := State(Selecting, false, 0, 1, {}, {}, {}, 0, [], NotCalled)

  datatype Step =
    | SeeStop
    | SeeTick
    | ReadSlots
    | FetchFails
    | FetchReturns(count: nat)
    | Acquire
    | Spawn
    | CheckStop
    | Release(handler: nat)
    | Leave(handler: nat)
    | CallStop
    | StopReturns
    | StopTimesOut

  predicate Enabled(cfg: Config, s: State, e: Step) {
    match e
    case SeeStop => s.loop == Selecting && s.stopped
    case SeeTick => s.loop == Selecting   // also when stopped: select picks any ready case
    case ReadSlots => s.loop == Polling
    case FetchFails => s.loop.Fetching?
    case FetchReturns(count) => s.loop.Fetching? && count <= s.loop.size
    case Acquire => s.loop.Acquiring? && s.sem < cfg.concurrency   // a send on a full channel blocks
    case Spawn => s.loop.Spawning?
    case CheckStop => s.loop == CheckingStop
    case Release(i) => i in s.holding && s.sem > 0
    case Leave(i) => i in s.leaving
    case CallStop => s.stop == NotCalled
    case StopReturns => s.stop == Waiting && s.wg == 0
    case StopTimesOut => s.stop == Waiting
  }

  function Exit(s: State): State {
    s.(loop := Exited, wg := s.wg - 1)
  }

  function Next(cfg: Config, s: State, e: Step): State
    requires Enabled(cfg, s, e)
  {
    match e
    case SeeStop => Exit(s)
    case SeeTick => s.(loop := Polling)
    case ReadSlots =>
      if s.sem >= cfg.concurrency then s.(loop := Selecting)
      else s.(loop := Fetching(Least(cfg.concurrency - s.sem, cfg.batchSize)))
    case FetchFails => s.(loop := Selecting)
    case FetchReturns(count) =>
      s.(claimed := s.claimed + count,
         loop := if count == 0 then Selecting else Acquiring(s.claimed, s.claimed + count, count == s.loop.size))
    case Acquire => s.(sem := s.sem + 1, loop := Spawning(s.loop.next, s.loop.end, s.loop.full))
    case Spawn =>
      var i := s.loop.next;
      s.(holding := s.holding + {i}, wg := s.wg + 1, dispatched := s.dispatched + [i],
         loop := if i + 1 < s.loop.end then Acquiring(i + 1, s.loop.end, s.loop.full)
                 else if s.loop.full then CheckingStop
                 else Selecting)
    case CheckStop => if s.stopped then Exit(s) else s.(loop := Polling)
    case Release(i) => s.(holding := s.holding - {i}, leaving := s.leaving + {i}, sem := s.sem - 1)
    case Leave(i) => s.(leaving := s.leaving - {i}, finished := s.finished + {i}, wg := s.wg - 1)
    case CallStop => s.(stopped := true, stop := Waiting)
    case StopReturns => s.(stop := Returned(true))
    case StopTimesOut => s.(stop := Returned(false))
  }

  ghost predicate Runs(cfg: Config, s: State, es: seq<Step>)
    decreases |es|
  {
    es != [] ==> Enabled(cfg, s, es[0]) && Runs(cfg, Next(cfg, s, es[0]), es[1..])
  }

  ghost function After(cfg: Config, s: State, es: seq<Step>): State
    requires Runs(cfg, s, es)
    decreases |es|
  {
    if es == [] then s else After(cfg, Next(cfg, s, es[0]), es[1..])
  }

  // ---- the invariant ----

  /** How many claims have been handed to a goroutine. */
  function Handed(s: State): nat {
    if s.loop.Acquiring? || s.loop.Spawning? then s.loop.next else s.claimed
  }

  ghost predicate Counted(cfg: Config, s: State) {
    && s.sem == |s.holding| + (if s.loop.Spawning? then 1 else 0)
    && s.wg == (if s.loop == Exited then 0 else 1) + |s.holding| + |s.leaving|
    && s.sem <= cfg.concurrency
  }

  /** The slots seen free when the batch was sized are still free for what is left of it. */
  ghost predicate RoomLeft(cfg: Config, s: State) {
    match s.loop
    case Fetching(size) => s.sem + size <= cfg.concurrency
    case Acquiring(next, end, _) => next < end == s.claimed && s.sem + (end - next) <= cfg.concurrency
    case Spawning(next, end, _) => next < end == s.claimed && s.sem + (end - next) <= cfg.concurrency + 1
    case _ => true
  }

  ghost predicate DispatchedOnce(s: State) {
    && |s.dispatched| == Handed(s)
    && (forall i :: 0 <= i < |s.dispatched| ==> s.dispatched[i] == i)
    && s.holding !! s.leaving && s.holding !! s.finished && s.leaving !! s.finished
    && (forall i :: i in s.holding || i in s.leaving || i in s.finished <==> 0 <= i < |s.dispatched|)
  }

  ghost predicate StopHonest(s: State) {
    && (s.stop != NotCalled ==> s.stopped)
    && (s.stop == Returned(true) ==> s.loop == Exited && s.holding == {} && s.leaving == {})
    && (s.loop == Exited ==> s.stopped)
  }

  ghost predicate Sound(cfg: Config, s: State) {
    Counted(cfg, s) && RoomLeft(cfg, s) && DispatchedOnce(s) && StopHonest(s)
  }

  lemma LoopStep(cfg: Config, s: State, e: Step)
    requires Sound(cfg, s) && Enabled(cfg, s, e) && !e.Spawn? && !e.Release? && !e.Leave?
    ensures Sound(cfg, Next(cfg, s, e))
  {
  }

  lemma HandlerStep(cfg: Config, s: State, e: Step)
    requires Sound(cfg, s) && Enabled(cfg, s, e) && (e.Spawn? || e.Release? || e.Leave?)
    ensures Sound(cfg, Next(cfg, s, e))
  {
    match e
    case Spawn => SpawnStep(cfg, s);
    case Release(i) => ReleaseStep(cfg, s, i);
    case Leave(i) => LeaveStep(cfg, s, i);
  }

  lemma SpawnStep(cfg: Config, s: State)
    requires Sound(cfg, s) && Enabled(cfg, s, Spawn)
    ensures Sound(cfg, Next(cfg, s, Spawn))
  {
  }

  lemma ReleaseStep(cfg: Config, s: State, i: nat)
    requires Sound(cfg, s) && Enabled(cfg, s, Release(i))
    ensures Sound(cfg, Next(cfg, s, Release(i)))
  {
  }

  lemma LeaveStep(cfg: Config, s: State, i: nat)
    requires Sound(cfg, s) && Enabled(cfg, s, Leave(i))
    ensures Sound(cfg, Next(cfg, s, Leave(i)))
  {
  }

  lemma SoundStep(cfg: Config, s: State, e: Step)
    requires Sound(cfg, s) && Enabled(cfg, s, e)
    ensures Sound(cfg, Next(cfg, s, e))
  {
    if e.Spawn? || e.Release? || e.Leave? {
      HandlerStep(cfg, s, e);
    } else {
      LoopStep(cfg, s, e);
    }
  }

  lemma {:induction false} AlwaysSound(cfg: Config, s: State, es: seq<Step>)
    requires Sound(cfg, s) && Runs(cfg, s, es)
    ensures Sound(cfg, After(cfg, s, es))
    decreases |es|
  {
    if es != [] {
      SoundStep(cfg, s, es[0]);
      AlwaysSound(cfg, Next(cfg, s, es[0]), es[1..]);
    }
  }

  /** len(sem) counts the handlers at work plus a slot just taken, never exceeds the configured concurrency,
      and the loop never blocks on taking a slot, whenever handlers release theirs. */
  lemma BoundedConcurrency(cfg: Config, es: seq<Step>)
    requires Runs(cfg, STARTED, es)
    ensures var s := After(cfg, STARTED, es);
      && s.sem == |s.holding| + (if s.loop.Spawning? then 1 else 0)
      && |s.holding| <= s.sem <= cfg.concurrency
      && (s.loop.Acquiring? ==> Enabled(cfg, s, Acquire))
      && (forall i :: i in s.holding ==> Enabled(cfg, s, Release(i)))
  {
    AlwaysSound(cfg, STARTED, es);
  }

  /** A stopped worker stays as it is. */
  lemma {:induction false} NothingFollows(cfg: Config, s: State, es: seq<Step>)
    requires Sound(cfg, s) && s.stop == Returned(true) && Runs(cfg, s, es)
    ensures After(cfg, s, es) == s
    decreases |es|
  {
    assert forall e :: !Enabled(cfg, s, e);
  }

  /** When Stop returns nil the loop has exited, no handler is in flight, every claim the loop ever received
      was dispatched exactly once, in order, and has finished; and nothing follows. */
  lemma GracefulStop(cfg: Config, es: seq<Step>, later: seq<Step>)
    requires Runs(cfg, STARTED, es) && After(cfg, STARTED, es).stop == Returned(true)
    requires Runs(cfg, After(cfg, STARTED, es), later)
    ensures var s := After(cfg, STARTED, es);
      && s.loop == Exited && s.holding == {} && s.leaving == {}
      && |s.dispatched| == s.claimed && (forall i :: 0 <= i < s.claimed ==> s.dispatched[i] == i)
      && (forall i :: i in s.finished <==> 0 <= i < s.claimed)
      && After(cfg, s, later) == s
  {
    AlwaysSound(cfg, STARTED, es);
    NothingFollows(cfg, After(cfg, STARTED, es), later);
  }

  // ---- when the loop polls again at once ----

  /** How many claims the loop asked storage for last, and how many it received. */
  datatype Batch = Batch(asked: nat, received: nat)

  /** The smaller of the slots free right now and the batch size. */
  function Room(cfg: Config, s: State): nat {
    if s.sem >= cfg.concurrency then 0
    else if cfg.concurrency - s.sem <= cfg.batchSize then cfg.concurrency - s.sem
    else cfg.batchSize
  }

  function Noted(cfg: Config, s: State, b: Batch, e: Step): Batch {
    match e
    case ReadSlots => Batch(Room(cfg, s), 0)
    case FetchReturns(count) => b.(received := count)
    case _ => b
  }

  /** The last batch of a run, read off the steps alone. */
  ghost function LastBatch(cfg: Config, s: State, es: seq<Step>, b: Batch): Batch
    requires Runs(cfg, s, es)
    decreases |es|
  {
    if es == [] then b else LastBatch(cfg, Next(cfg, s, es[0]), es[1..], Noted(cfg, s, b, es[0]))
  }

  ghost predicate KnowsBatch(s: State, b: Batch) {
    match s.loop
    case Fetching(size) => size == b.asked && b.received == 0
    case Acquiring(next, end, full) => next < end && 0 < b.received <= b.asked && (full <==> b.received == b.asked)
    case Spawning(next, end, full) => next < end && 0 < b.received <= b.asked && (full <==> b.received == b.asked)
    case CheckingStop => 0 < b.received == b.asked
    case _ => true
  }

  lemma KnowsBatchStep(cfg: Config, s: State, b: Batch, e: Step)
    requires KnowsBatch(s, b) && Enabled(cfg, s, e)
    ensures KnowsBatch(Next(cfg, s, e), Noted(cfg, s, b, e))
  {
  }

  lemma {:induction false} AlwaysKnowsBatch(cfg: Config, s: State, es: seq<Step>, b: Batch)
    requires KnowsBatch(s, b) && Runs(cfg, s, es)
    ensures KnowsBatch(After(cfg, s, es), LastBatch(cfg, s, es, b))
    decreases |es|
  {
    if es != [] {
      KnowsBatchStep(cfg, s, b, es[0]);
      AlwaysKnowsBatch(cfg, Next(cfg, s, es[0]), es[1..], Noted(cfg, s, b, es[0]));
    }
  }

  /** The loop comes to poll only on a tick, or at once after a batch of which it received all it had asked for,
      and then only when it has not been stopped; and it exits only when it has been. */
  lemma PollsAgainIff(cfg: Config, es: seq<Step>, e: Step)
    requires Runs(cfg, STARTED, es) && Enabled(cfg, After(cfg, STARTED, es), e)
    ensures var s, b := After(cfg, STARTED, es), LastBatch(cfg, STARTED, es, Batch(0, 0)); var t := Next(cfg, s, e);
      && (t.loop == Polling && s.loop != Polling ==>
            e == SeeTick || (e == CheckStop && 0 < b.received == b.asked && !s.stopped))
      && (e == CheckStop ==> t.loop == if s.stopped then Exited else Polling)
      && (e == Spawn && !t.loop.Acquiring? ==>
            if b.received == b.asked then t.loop == CheckingStop else t.loop == Selecting)
      && (t.loop == Exited && s.loop != Exited ==> s.stopped)
  {
    AlwaysKnowsBatch(cfg, STARTED, es, Batch(0, 0));
  }

  // ---- one pass of the loop, as the code does it ----

  lemma {:induction false} OneMoreStep(cfg: Config, s: State, es: seq<Step>, e: Step)
    requires Runs(cfg, s, es) && Enabled(cfg, After(cfg, s, es), e)
    ensures Runs(cfg, s, es + [e]) && After(cfg, s, es + [e]) == Next(cfg, After(cfg, s, es), e)
    decreases |es|
  {
    if es == [] {
      assert [e][1..] == [];
    } else {
      OneMoreStep(cfg, Next(cfg, s, es[0]), es[1..], e);
      assert (es + [e])[1..] == es[1..] + [e];
    }
  }

  class Poller {
    const cfg: Config
    var stopped: bool
    var sem: nat
    var wg: int
    var holding: set<nat>
    var leaving: set<nat>
    var finished: set<nat>
    var claimed: nat
    var dispatched: seq<nat>
    var stop: Stopping

    constructor (cfg: Config)
      ensures this.cfg == cfg && At(Selecting) == STARTED
    {
      this.cfg := cfg;
      stopped, sem, wg, stop := false, 0, 1, NotCalled;
      holding, leaving, finished, claimed, dispatched := {}, {}, {}, 0, [];
    }

    /** The worker's state while its loop is at the given place. */
    function At(loop: Loop): State
      reads this
    {
      State(loop, stopped, sem, wg, holding, leaving, finished, claimed, dispatched, stop)
    }

    /** The worker got here from s by es. */
    ghost predicate Tracks(s: State, es: seq<Step>, loop: Loop)
      reads this
    {
      Runs(cfg, s, es) && After(cfg, s, es) == At(loop) && Sound(cfg, At(loop))
    }

    /** The machine takes the step that was just taken. */
    lemma Did(loop: Loop, e: Step, s: State, es: seq<Step>)
      requires Runs(cfg, s, es) && Sound(cfg, After(cfg, s, es)) && Enabled(cfg, After(cfg, s, es), e)
      requires Next(cfg, After(cfg, s, es), e) == At(loop)
      ensures Tracks(s, es + [e], loop)
    {
      OneMoreStep(cfg, s, es, e);
      SoundStep(cfg, After(cfg, s, es), e);
    }

    /** Any number of times, a handler releases its slot or leaves the wait group, or Stop is called. */
    method Meanwhile(loop: Loop, ghost s: State, ghost es0: seq<Step>) returns (ghost es: seq<Step>)
      requires Tracks(s, es0, loop)
      modifies this
      ensures Tracks(s, es, loop) && claimed == old(claimed) && es0 <= es
    {
      es := es0;
      var times: int := *;
      while times > 0
        invariant Tracks(s, es, loop) && claimed == old(claimed) && es0 <= es
        decreases times
      {
        es := OneMoment(loop, s, es);
        times := times - 1;
      }
    }

    method OneMoment(loop: Loop, ghost s: State, ghost es0: seq<Step>) returns (ghost es: seq<Step>)
      requires Tracks(s, es0, loop)
      modifies this
      ensures Tracks(s, es, loop) && claimed == old(claimed) && es0 <= es
    {
      var i: int := *;
      ghost var e := CallStop;
      if 0 <= i && i in holding && sem > 0 {
        e := Release(i);
        holding, leaving, sem := holding - {i}, leaving + {i}, sem - 1;
      } else if 0 <= i && i in leaving {
        e := Leave(i);
        leaving, finished, wg := leaving - {i}, finished + {i}, wg - 1;
      } else if stop == NotCalled {
        stopped, stop := true, Waiting;
      } else {
        return es0;
      }
      Did(loop, e, s, es0);
      es := es0 + [e];
    }

    /** The send never blocks. */
    method TakeSlot(next: nat, end: nat, full: bool, ghost s: State, ghost es0: seq<Step>) returns (ghost es: seq<Step>)
      requires Tracks(s, es0, Acquiring(next, end, full))
      modifies this
      ensures Tracks(s, es, Spawning(next, end, full)) && claimed == old(claimed) && es0 <= es
    {
      es := Meanwhile(Acquiring(next, end, full), s, es0);
      assert sem < cfg.concurrency;
      sem := sem + 1;
      Did(Spawning(next, end, full), Acquire, s, es);
      es := es + [Acquire];
    }

    /** Takes a slot and starts the goroutine for claim number next. */
    method Dispatch(next: nat, end: nat, full: bool, ghost s: State, ghost es0: seq<Step>) returns (ghost es: seq<Step>)
      requires Tracks(s, es0, Acquiring(next, end, full))
      modifies this
      ensures next < end == claimed == old(claimed) && es0 <= es
      ensures Tracks(s, es, if next + 1 < end then Acquiring(next + 1, end, full) else if full then CheckingStop
        else Selecting)
    {
      es := TakeSlot(next, end, full, s, es0);
      es := Meanwhile(Spawning(next, end, full), s, es);
      holding, wg, dispatched := holding + {next}, wg + 1, dispatched + [next];
      Did(if next + 1 < end then Acquiring(next + 1, end, full) else if full then CheckingStop
        else Selecting, Spawn, s, es);
      es := es + [Spawn];
    }

    /** Step number at of the run reads the free slots, and their number, within the batch size, is asked for. */
    ghost predicate AsksFor(s: State, es: seq<Step>, at: nat, asked: nat) {
      && at < |es| && es[at] == ReadSlots && Runs(cfg, s, es[..at])
      && var free := cfg.concurrency - After(cfg, s, es[..at]).sem;
         asked == if free <= cfg.batchSize then free else cfg.batchSize
    }

    lemma AskedBefore(s: State, es: seq<Step>, more: seq<Step>, asked: nat)
      requires es + [ReadSlots] <= more && Runs(cfg, s, es)
      requires var free := cfg.concurrency - After(cfg, s, es).sem;
        asked == if free <= cfg.batchSize then free else cfg.batchSize
      ensures AsksFor(s, more, |es|, asked)
    {
      assert more[..|es|] == (es + [ReadSlots])[..|es|] == es;
      assert more[|es|] == (es + [ReadSlots])[|es|];
    }

    /** Asks storage for as many claims as there are free slots, within the batch size. */
    method Fetch(ghost s: State, ghost es0: seq<Step>)
        returns (asked: nat, received: nat, ghost es: seq<Step>, ghost at: nat)
      requires Tracks(s, es0, Polling)
      modifies this
      ensures es0 <= es && |es0| <= at && AsksFor(s, es, at, asked)
      ensures claimed == old(claimed) + received && received <= asked
      ensures Tracks(s, es, if received == 0 then Selecting else Acquiring(old(claimed), claimed, received == asked))
    {
      es := Meanwhile(Polling, s, es0);
      at := |es|;
      ghost var before := es;
      var free := cfg.concurrency - sem;
      asked, received := Least(free, cfg.batchSize), 0;
      if free == 0 {
        Did(Selecting, ReadSlots, s, es);
        es := es + [ReadSlots];
        AskedBefore(s, before, es, asked);
        return;
      }
      Did(Fetching(asked), ReadSlots, s, es);
      received, es := Receive(asked, s, es + [ReadSlots]);
      AskedBefore(s, before, es, asked);
    }

    /** The claim query returns at most what it was asked for, or fails. */
    method Receive(asked: nat, ghost s: State, ghost es0: seq<Step>) returns (received: nat, ghost es: seq<Step>)
      requires Tracks(s, es0, Fetching(asked))
      modifies this
      ensures es0 <= es && claimed == old(claimed) + received && received <= asked
      ensures Tracks(s, es, if received == 0 then Selecting else Acquiring(old(claimed), claimed, received == asked))
    {
      es := Meanwhile(Fetching(asked), s, es0);
      var count: int := *;
      if count < 0 || count > asked {
        Did(Selecting, FetchFails, s, es);
        return 0, es + [FetchFails];
      }
      received, claimed := count, claimed + count;
      Did(if count == 0 then Selecting else Acquiring(claimed - count, claimed, count == asked),
          FetchReturns(count), s, es);
      es := es + [FetchReturns(count)];
    }

    /** One batch. It asks for as many claims as there are free slots, within the batch size, and whatever handlers do
        meanwhile, every claim received so far has then been dispatched exactly once, in order, within the configured
        concurrency. The queue counts as drained unless it received all it had asked for. */
    method ProcessTasks(ghost s: State, ghost es0: seq<Step>)
        returns (drained: bool, asked: nat, received: nat, ghost es: seq<Step>, ghost at: nat)
      requires Tracks(s, es0, Polling)
      modifies this
      ensures Tracks(s, es, if drained then Selecting else CheckingStop)
      ensures es0 <= es && |es0| <= at && AsksFor(s, es, at, asked)
      ensures claimed == old(claimed) + received && received <= asked
      ensures !drained <==> 0 < received == asked
      ensures |dispatched| == claimed && (forall i :: 0 <= i < claimed ==> dispatched[i] == i)
      ensures |holding| <= sem <= cfg.concurrency
    {
      asked, received, es, at := Fetch(s, es0);
      if received == 0 {
        drained := true;
        return;
      }
      ghost var fetched := es;
      var first, end, full := claimed - received, claimed, received == asked;
      for next := first to end
        invariant claimed == end && fetched <= es
        invariant Tracks(s, es, if next < end then Acquiring(next, end, full) else if full then CheckingStop
          else Selecting)
      {
        es := Dispatch(next, end, full, s, es);
      }
      AskedStill(s, fetched, es, at, asked);
      drained := received < asked;
    }

    lemma AskedStill(s: State, es: seq<Step>, more: seq<Step>, at: nat, asked: nat)
      requires AsksFor(s, es, at, asked) && es <= more
      ensures AsksFor(s, more, at, asked)
    {
      assert more[..at] == more[..|es|][..at] == es[..at];
      assert more[at] == more[..|es|][at] == es[at];
    }
  }
}
