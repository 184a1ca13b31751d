/** Closing an asset reader once, for any number of callers that may be cancelled while they wait. */
module AssetClose {
  import opened Wrappers

  /** How the physical close ended: well, with an error, or cancelled itself. */
  datatype Outcome = Fine | Broken | Stopped

  datatype CloseTask = NotStarted | Running | Done(outcome: Outcome)

  /** How a call of close ends for its caller. */
  datatype Ending = Returns | RaisesFailure | RaisesCancelled

  datatype Reader = Reader(closed: bool, task: CloseTask, starts: nat)

  /** The first caller starts the close, later ones join it, and once it is done there is nothing to wait for. */
  function Arrived(r: Reader): (Reader, bool) {
    match r.task
    case NotStarted => (Reader(true, Running, r.starts + 1), true)
    case Running => (r, true)
    case Done(_) => (r, false)
  }

  /** A joined caller's end: its own cancellation first, then what the close itself did. */
  function Leaving(cancelled: bool, outcome: Outcome): Ending {
    if cancelled || outcome.Stopped? then RaisesCancelled
    else if outcome.Broken? then RaisesFailure
    else Returns
  }

  /** Leaving a `with` block: an error of the block itself comes before anything the close raises. */
  datatype BlockEnd = BlockReturns | BlockRaises | CloseRaises(ending: Ending)

  function Exited(blockRaised: bool, ending: Ending): BlockEnd {
    if blockRaised then BlockRaises
    else if ending.Returns? then BlockReturns
    else CloseRaises(ending)
  }

  /** One wait for the shielded close: it ends because the caller was cancelled, or the close is done. */
  datatype Round = Round(cancelled: bool, done: bool)

  /** The waits of one caller: each ends for a reason, and only the last finds the close done. */
  ghost predicate Waits(rounds: seq<Round>) {
    && rounds != [] && rounds[|rounds| - 1].done
    && (forall i :: 0 <= i < |rounds| - 1 ==> !rounds[i].done)
    && forall i :: 0 <= i < |rounds| ==> rounds[i].cancelled || rounds[i].done
  }

  /** The caller was cancelled in one of its first waits. */
  ghost predicate Cancelled(rounds: seq<Round>, k: nat)
    requires k <= |rounds|
  {
    exists i :: 0 <= i < k && rounds[i].cancelled
  }

  class AssetReadInfo {
    var closed: bool
    var task: CloseTask
    var starts: nat

    function State(): Reader
      reads this
    {
      Reader(closed, task, starts)
    }

    constructor ()
      ensures State() == Reader(false, NotStarted, 0)
    {
      closed, task, starts := false, NotStarted, 0;
    }

    method Admits() returns (admitted: bool)
      ensures admitted == !closed
    {
      admitted := !closed;
    }

    method Arrive() returns (waits: bool)
      modifies this
      ensures (State(), waits) == Arrived(old(State()))
    {
      if task.NotStarted? {
        closed := true;
        task, starts := Running, starts + 1;
      } else if task.Done? {
        return false;
      }
      return true;
    }

    /** The waiting loop of one caller: a cancellation is remembered, and waiting goes on. */
    static method AwaitClose(rounds: seq<Round>, outcome: Outcome) returns (ending: Ending)
      requires Waits(rounds)
      ensures ending == Leaving(Cancelled(rounds, |rounds|), outcome)
    {
      var cancellation := false;
      var done := false;
      var k := 0;
      while !done
        invariant 0 <= k <= |rounds| && (done <==> k == |rounds|)
        invariant cancellation <==> Cancelled(rounds, k) || (done && outcome.Stopped?)
        decreases |rounds| - k, !done
      {
        var round := rounds[k];
        k := k + 1;
        done := round.done;
        if round.cancelled {
          if !cancellation { cancellation := true; }
        } else if outcome.Stopped? {
          if !cancellation { cancellation := true; }
        } else if outcome.Broken? {
          break;
        }
      }
      if outcome.Fine? {
        return if cancellation then RaisesCancelled else Returns;
      }
      if cancellation { return RaisesCancelled; }
      return if outcome.Broken? then RaisesFailure else RaisesCancelled;
    }

    /** The end of a `with` block around the reader. */
    static method Exit(blockRaised: bool, rounds: seq<Round>, outcome: Outcome) returns (end: BlockEnd)
      requires Waits(rounds)
      ensures end == Exited(blockRaised, Leaving(Cancelled(rounds, |rounds|), outcome))
    {
      var ending := AwaitClose(rounds, outcome);
      if !blockRaised {
        return if ending.Returns? then BlockReturns else CloseRaises(ending);
      }
      return BlockRaises;
    }
  }

  // ---------- the waiting code, from one wait to the next ----------

  /** Where a caller of close stands: in its wait, with the cancellation it remembers, or at its end. */
  datatype Frame = Suspended(cancellation: bool) | Ended(ending: Ending)

  /** After the loop: the close's result, or the remembered cancellation. */
  function Concluded(cancellation: bool, outcome: Outcome): Ending {
    match outcome
    case Fine => if cancellation then RaisesCancelled else Returns
    case Broken => if cancellation then RaisesCancelled else RaisesFailure
    case Stopped => RaisesCancelled
  }

  /** The guard of the loop, and what follows it. */
  function Tested(task: CloseTask, cancellation: bool): Frame {
    if task.Done? then Ended(Concluded(cancellation, task.outcome)) else Suspended(cancellation)
  }

  /**
    The wait ends. A cancellation of this caller is remembered and the guard is tested again; a
    close that was itself cancelled looks just the same; one that failed breaks out of the loop.
   */
  function Woken(task: CloseTask, cancellation: bool, cancelled: bool): Frame
    requires cancelled || task.Done?
  {
    if cancelled then Tested(task, true)
    else
      match task.outcome
      case Fine => Tested(task, cancellation)
      case Stopped => Tested(task, true)
      case Broken => Ended(Concluded(cancellation, Broken))
  }

  // ---------- many callers ----------

  /**
    `pending` is a cancellation that its wait has not yet raised. `asked` remembers whether it was
    ever cancelled while it waited, and `rounds` how each of its waits ended; the code sees neither.
   */
  datatype Caller = Caller(joined: bool, frame: Frame, pending: bool, asked: bool, rounds: seq<Round>)

  /** `admitted` notes, for every read that was let in, how many closes had started by then. */
  datatype World = World(reader: Reader, callers: map<nat, Caller>, admitted: seq<nat>)

  const START := World(Reader(false, NotStarted, 0), map[], [])

  datatype Event =
    | Arrive(caller: nat)
    | Cancel(caller: nat)
    | Settle(outcome: Outcome)
    | Wake(caller: nat)
    | ReadIn

  predicate Waiting(w: World, c: nat) {
    c in w.callers && w.callers[c].frame.Suspended?
  }

  /** A wait ends because its caller was cancelled or because the close is done; any order may come. */
  predicate Legal(w: World, e: Event) {
    match e
    case Arrive(c) => c !in w.callers
    case Cancel(c) => Waiting(w, c)
    case Settle(_) => w.reader.task.Running?
    case Wake(c) => Waiting(w, c) && (w.callers[c].pending || w.reader.task.Done?)
    case ReadIn => true
  }

  function Resumed(task: CloseTask, c: Caller): Caller
    requires c.frame.Suspended? && (c.pending || task.Done?)
  {
    c.(frame := Woken(task, c.frame.cancellation, c.pending), pending := false,
       rounds := c.rounds + [Round(c.pending, task.Done?)])
  }

  function Step(w: World, e: Event): World
    requires Legal(w, e)
  {
    match e
    case Arrive(c) =>
      var (reader, waits) := Arrived(w.reader);
      var frame := if waits then Tested(reader.task, false) else Ended(Returns);
      w.(reader := reader, callers := w.callers[c := Caller(waits, frame, false, false, [])])
    case Cancel(c) => w.(callers := w.callers[c := w.callers[c].(pending := true, asked := true)])
    case Settle(outcome) => w.(reader := w.reader.(task := Done(outcome)))
    case Wake(c) => w.(callers := w.callers[c := Resumed(w.reader.task, w.callers[c])])
    case ReadIn => if w.reader.closed then w else w.(admitted := w.admitted + [w.reader.starts])
  }

  predicate Runs(w: World, events: seq<Event>)
    decreases events
  {
    events == [] || (Legal(w, events[0]) && Runs(Step(w, events[0]), events[1..]))
  }

  function Run(w: World, events: seq<Event>): World
    requires Runs(w, events)
    decreases events
  {
    if events == [] then w else Run(Step(w, events[0]), events[1..])
  }

  /** Every wait so far ended by a cancellation, before the close was done. */
  ghost predicate StillWaits(rounds: seq<Round>) {
    forall i :: 0 <= i < |rounds| ==> rounds[i].cancelled && !rounds[i].done
  }

  ghost predicate CallerOk(task: CloseTask, c: Caller) {
    match c.frame
    case Suspended(cancellation) =>
      && c.joined && !task.NotStarted? && StillWaits(c.rounds)
      && (cancellation <==> Cancelled(c.rounds, |c.rounds|)) && (c.asked <==> cancellation || c.pending)
    case Ended(ending) =>
      && task.Done?
      && if c.joined then
           && Waits(c.rounds) && (c.asked <==> Cancelled(c.rounds, |c.rounds|))
           && ending == Leaving(c.asked, task.outcome)
         else ending.Returns?
  }

  ghost predicate Inv(w: World) {
    && w.reader.starts == (if w.reader.task.NotStarted? then 0 else 1)
    && w.reader.closed == !w.reader.task.NotStarted?
    && (w.reader.task.NotStarted? <==> w.callers == map[])
    && (forall c :: c in w.callers ==> CallerOk(w.reader.task, w.callers[c]))
    && forall i :: 0 <= i < |w.admitted| ==> w.admitted[i] == 0
  }

  lemma CancelledMore(rounds: seq<Round>, r: Round)
    ensures Cancelled(rounds + [r], |rounds| + 1) <==> Cancelled(rounds, |rounds|) || r.cancelled
  {
    var more := rounds + [r];
    if i :| 0 <= i < |rounds| && rounds[i].cancelled { assert more[i].cancelled; }
    if r.cancelled { assert more[|rounds|].cancelled; }
    if i :| 0 <= i < |more| && more[i].cancelled { assert i == |rounds| || rounds[i].cancelled; }
  }

  /** One wake: the caller leaves if the close is done, and otherwise waits on. */
  lemma WakeOk(task: CloseTask, c: Caller)
    requires CallerOk(task, c) && c.frame.Suspended? && (c.pending || task.Done?)
    ensures CallerOk(task, Resumed(task, c))
    ensures Resumed(task, c).frame.Ended? <==> task.Done?
  {
    CancelledMore(c.rounds, Round(c.pending, task.Done?));
  }

  lemma StepKeeps(w: World, e: Event)
    requires Inv(w) && Legal(w, e)
    ensures Inv(Step(w, e))
  {
    var w' := Step(w, e);
    match e
    case Arrive(c) => assert c in w'.callers;
    case Settle(_) =>
      forall c | c in w'.callers ensures CallerOk(w'.reader.task, w'.callers[c]) { assert CallerOk(w.reader.task, w.callers[c]); }
    case Wake(c) => WakeOk(w.reader.task, w.callers[c]); assert c in w'.callers;
    case Cancel(c) => assert c in w'.callers;
    case ReadIn =>
  }

  lemma {:induction false} RunKeeps(w: World, events: seq<Event>)
    requires Inv(w) && Runs(w, events)
    ensures Inv(Run(w, events))
    decreases events
  {
    if events != [] {
      StepKeeps(w, events[0]);
      RunKeeps(Step(w, events[0]), events[1..]);
    }
  }

  /**
    For any callers and cancellations, in any order of settling, cancelling and waking: the
    physical close starts exactly once, with the first caller, and no read was let in after it.
    A caller that ended found the close done. One that was cancelled while it waited ends cancelled
    even if the close failed, one that was not ends as the close did, and one that came when it was
    done returned at once.
   */
  lemma OneCloseForAll(events: seq<Event>)
    requires Runs(START, events)
    ensures var w := Run(START, events);
            && w.reader.starts == (if w.callers == map[] then 0 else 1)
            && (forall i :: 0 <= i < |w.admitted| ==> w.admitted[i] == 0)
            && (forall c :: c in w.callers && w.callers[c].frame.Ended? ==>
                  && w.reader.task.Done?
                  && (w.callers[c].frame.ending.RaisesCancelled? <==>
                        w.callers[c].joined && (w.callers[c].asked || w.reader.task.outcome.Stopped?))
                  && (w.callers[c].frame.ending.RaisesFailure? <==>
                        w.callers[c].joined && !w.callers[c].asked && w.reader.task.outcome.Broken?))
  {
    RunKeeps(START, events);
    var w := Run(START, events);
    forall c | c in w.callers && w.callers[c].frame.Ended? ensures CallerOk(w.reader.task, w.callers[c]) {}
  }

  /**
    In every run a waiting caller that wakes leaves if and only if the close is done, and once it
    is done everyone who waits can wake: nobody leaves earlier, and nobody is kept.
   */
  lemma LeavesIffDone(events: seq<Event>, c: nat)
    requires Runs(START, events) && Waiting(Run(START, events), c)
    ensures var w := Run(START, events);
            && (w.reader.task.Done? ==> Legal(w, Wake(c)))
            && (Legal(w, Wake(c)) ==> (!Waiting(Step(w, Wake(c)), c) <==> w.reader.task.Done?))
  {
    RunKeeps(START, events);
    var w := Run(START, events);
    if Legal(w, Wake(c)) { WakeOk(w.reader.task, w.callers[c]); }
  }

  /**
    The waits of every caller that left are a schedule of the waiting loop, which ends for it just
    as the caller did.
   */
  method ReplayLoop(ghost events: seq<Event>, ghost c: nat, caller: Caller, outcome: Outcome) returns (ending: Ending)
    requires Runs(START, events) && c in Run(START, events).callers && Run(START, events).callers[c] == caller
    requires Run(START, events).reader.task == Done(outcome) && caller.joined && caller.frame.Ended?
    ensures ending == caller.frame.ending
  {
    RunKeeps(START, events);
    assert CallerOk(Run(START, events).reader.task, caller);
    ending := AssetReadInfo.AwaitClose(caller.rounds, outcome);
  }

  /** A block that raised raises its own error, whatever the close does; otherwise the close decides. */
  lemma BlockErrorComesFirst(blockRaised: bool, ending: Ending)
    ensures Exited(blockRaised, ending).BlockRaises? <==> blockRaised
    ensures Exited(blockRaised, ending).BlockReturns? <==> !blockRaised && ending.Returns?
    ensures !blockRaised && !ending.Returns? ==> Exited(blockRaised, ending) == CloseRaises(ending)
  {}
}
