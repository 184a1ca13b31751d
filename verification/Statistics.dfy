/**
  Daily product statistics: facts queue their day, and a worker recomputes queued days. Times are
  microseconds since the epoch; Seoul is nine hours ahead; days are counted from the epoch's.
 */
module Statistics {
  import opened Wrappers

  const DAY := 24 * 60 * 60 * 1_000_000
  const SEOUL := 9 * 60 * 60 * 1_000_000

  function StatisticsDay(instant: int): int {
    (instant + SEOUL) / DAY
  }

  /** The first instant of a day, and the first after it. */
  function DayBounds(day: int): (int, int) {
    (day * DAY - SEOUL, (day + 1) * DAY - SEOUL)
  }

  predicate InDay(instant: int, day: int) {
    DayBounds(day).0 <= instant < DayBounds(day).1
  }

  /** The windows lie end to end, and an instant is in exactly the window of its day. */
  lemma DaysTile(instant: int, day: int)
    ensures InDay(instant, day) <==> StatisticsDay(instant) == day
    ensures DayBounds(day).1 == DayBounds(day + 1).0 && DayBounds(day).0 < DayBounds(day).1
  {
    var d := StatisticsDay(instant);
    assert d * DAY <= instant + SEOUL < (d + 1) * DAY;
  }

  // ---------- facts and figures ----------

  datatype Fact = Fact(product: nat, instant: int, user: nat, amount: int)
  datatype Figures = Figures(events: nat, users: set<nat>, amount: int)
  datatype Work = Work(product: nat, day: int)

  const NOTHING := Figures(0, {}, 0)

  predicate Belongs(f: Fact, w: Work) {
    f.product == w.product && InDay(f.instant, w.day)
  }

  /** The figures of a product's day, from all facts in its window. */
  function Computed(facts: seq<Fact>, w: Work): Figures {
    if facts == [] then NOTHING
    else
      var n := |facts| - 1;
      var rest := Computed(facts[..n], w);
      if Belongs(facts[n], w) then Figures(rest.events + 1, rest.users + {facts[n].user}, rest.amount + facts[n].amount) else rest
  }

  /** The stored facts and figures, and the days waiting to be recomputed. */
  datatype State = State(facts: seq<Fact>, queue: set<Work>, stored: map<Work, Figures>)

  function Stored(s: State, w: Work): Figures {
    if w in s.stored then s.stored[w] else NOTHING
  }

  function WorkOf(f: Fact): Work {
    Work(f.product, StatisticsDay(f.instant))
  }

  /** A new fact and its queue row, in one transaction. */
  function Added(s: State, f: Fact): State {
    s.(facts := s.facts + [f], queue := s.queue + {WorkOf(f)})
  }

  function DaysBefore(product: nat, now: int, offset: int): Work {
    Work(product, StatisticsDay(now) - offset)
  }

  /** Repair: the last days of the published products are queued again. */
  function Requeued(s: State, products: set<nat>, now: int, days: int): Option<State> {
    if !(1 <= days <= 31) then None
    else Some(s.(queue := s.queue + set p, offset | p in products && 0 <= offset <= days :: DaysBefore(p, now, offset)))
  }

  /** One claimed day: recomputed, stored and taken off the queue. */
  function Rebuilt(s: State, w: Work): State {
    State(s.facts, s.queue - {w}, s.stored[w := Computed(s.facts, w)])
  }

  /** Every day that is not queued shows what recomputing it would give. */
  ghost predicate Fresh(s: State) {
    forall w :: w !in s.queue ==> Stored(s, w) == Computed(s.facts, w)
  }

  // ---------- the worker ----------

  datatype Processed = Done(count: nat) | BadLimit | Failed

  function Min(a: nat, b: nat): nat {
    if a < b then a else b
  }

  class StatisticsTables {
    var facts: seq<Fact>
    var queue: set<Work>
    var stored: map<Work, Figures>

    function Now(): State
      reads this
    {
      State(facts, queue, stored)
    }

    constructor ()
      ensures Now() == State([], {}, map[])
    {
      facts, queue, stored := [], {}, map[];
    }

    method Add(f: Fact)
      modifies this
      ensures Now() == Added(old(Now()), f)
    {
      facts := facts + [f];
      queue := queue + {WorkOf(f)};
    }

    /** Fact by fact through one day's window. */
    method RebuildDay(w: Work)
      modifies this`stored
      ensures stored == old(stored)[w := Computed(facts, w)]
    {
      var (start, end) := DayBounds(w.day);
      var events: nat, users, amount := 0, {}, 0;
      for i := 0 to |facts|
        invariant Figures(events, users, amount) == Computed(facts[..i], w)
      {
        var f := facts[i];
        assert facts[..i + 1][..i] == facts[..i];
        if f.product == w.product && start <= f.instant < end {
          events, users, amount := events + 1, users + {f.user}, amount + f.amount;
        }
      }
      assert facts[..|facts|] == facts;
      stored := stored[w := Figures(events, users, amount)];
    }

    /** What a rollback puts back. */
    method Rollback(savedQueue: set<Work>, savedStored: map<Work, Figures>)
      modifies this`queue, this`stored
      ensures queue == savedQueue && stored == savedStored
    {
      queue, stored := savedQueue, savedStored;
    }

    /**
      One claimed day in one transaction: its rows are deleted, written again, and taken off the
      queue. If the transaction dies, after any number of these writes or at its commit, every
      write it made is undone.
     */
    method RebuildClaimed(work: Work, diesAfter: Option<nat>) returns (committed: bool)
      requires work in queue
      modifies this
      ensures committed == diesAfter.None?
      ensures Now() == if committed then Rebuilt(old(Now()), work) else old(Now())
    {
      var savedQueue, savedStored := queue, stored;
      if diesAfter == Some(0) { return false; }
      stored := stored - {work};
      if diesAfter == Some(1) { Rollback(savedQueue, savedStored); return false; }
      RebuildDay(work);
      assert stored == savedStored[work := Computed(facts, work)];
      if diesAfter == Some(2) { Rollback(savedQueue, savedStored); return false; }
      queue := queue - {work};
      if diesAfter.Some? { Rollback(savedQueue, savedStored); return false; }
      return true;
    }

    /** Day by day; the transaction after `failsAfter` good ones dies after that many of its writes. */
    method ProcessPending(limit: int, failsAfter: nat, writes: nat) returns (r: Processed)
      modifies this
      ensures facts == old(facts) && queue <= old(queue)
      ensures !(1 <= limit <= 1000) ==> r == BadLimit && Now() == old(Now())
      ensures 1 <= limit <= 1000 ==>
                var due := Min(limit, |old(queue)|);
                && |old(queue)| - |queue| == Min(due, failsAfter)
                && r == (if failsAfter < due then Failed else Done(due))
      ensures forall w :: w in old(queue) - queue ==> Stored(Now(), w) == Computed(facts, w)
      ensures forall w :: w !in old(queue) - queue ==> Stored(Now(), w) == Stored(old(Now()), w)
    {
      if !(1 <= limit <= 1000) { return BadLimit; }
      var processed := 0;
      while processed < limit
        invariant 0 <= processed <= limit && processed <= failsAfter
        invariant facts == old(facts) && queue <= old(queue) && |queue| == |old(queue)| - processed
        invariant forall w :: w in old(queue) - queue ==> Stored(Now(), w) == Computed(facts, w)
        invariant forall w :: w !in old(queue) - queue ==> Stored(Now(), w) == Stored(old(Now()), w)
      {
        if queue == {} { break; }
        var work :| work in queue;
        var committed := RebuildClaimed(work, if processed == failsAfter then Some(writes) else None);
        if !committed { return Failed; }
        processed := processed + 1;
      }
      return Done(processed);
    }
  }

  // ---------- runs ----------

  datatype Event =
    | Add(fact: Fact)
    | Requeue(products: set<nat>, now: int, days: int)
    | Rebuild(work: Work)

  function Step(s: State, e: Event): State {
    match e
    case Add(f) => Added(s, f)
    case Requeue(products, now, days) => var r := Requeued(s, products, now, days); if r.None? then s else r.value
    case Rebuild(w) => if w in s.queue then Rebuilt(s, w) else s
  }

  function Run(s: State, events: seq<Event>): State
    decreases events
  {
    if events == [] then s else Run(Step(s, events[0]), events[1..])
  }

  lemma AddKeepsFresh(s: State, f: Fact)
    requires Fresh(s)
    ensures Fresh(Added(s, f))
  {
    var s' := Added(s, f);
    forall w | w !in s'.queue ensures Stored(s', w) == Computed(s'.facts, w) {
      assert s'.facts[..|s.facts|] == s.facts;
      DaysTile(f.instant, w.day);
      assert Stored(s, w) == Computed(s.facts, w);
    }
  }

  lemma StepKeepsFresh(s: State, e: Event)
    requires Fresh(s)
    ensures Fresh(Step(s, e))
  {
    var s' := Step(s, e);
    match e
    case Add(f) => AddKeepsFresh(s, f);
    case Requeue(_, _, _) =>
      forall w | w !in s'.queue ensures Stored(s', w) == Computed(s'.facts, w) { assert Stored(s, w) == Computed(s.facts, w); }
    case Rebuild(work) =>
      forall w | w !in s'.queue ensures Stored(s', w) == Computed(s'.facts, w) {
        if w != work || work !in s.queue { assert Stored(s, w) == Computed(s.facts, w); }
      }
  }

  /** In every reachable state, a day that is not queued shows the figures of all facts in its window. */
  lemma {:induction false} EveryDayFresh(s: State, events: seq<Event>)
    requires Fresh(s)
    ensures Fresh(Run(s, events))
    decreases events
  {
    if events != [] {
      StepKeepsFresh(s, events[0]);
      EveryDayFresh(Step(s, events[0]), events[1..]);
    }
  }

  /** A batch that did or did not fail keeps this: what it took off the queue it also recomputed. */
  lemma BatchKeepsFresh(s: State, s': State)
    requires Fresh(s) && s'.facts == s.facts && s'.queue <= s.queue
    requires forall w :: w in s.queue - s'.queue ==> Stored(s', w) == Computed(s'.facts, w)
    requires forall w :: w !in s.queue - s'.queue ==> Stored(s', w) == Stored(s, w)
    ensures Fresh(s')
  {
    forall w | w !in s'.queue ensures Stored(s', w) == Computed(s'.facts, w) {
      if w !in s.queue { assert Stored(s, w) == Computed(s.facts, w); }
    }
  }

  /** With an empty queue every figure is what recomputing everything would give. */
  lemma DrainedIsExact(events: seq<Event>, w: Work)
    requires Run(State([], {}, map[]), events).queue == {}
    ensures var s := Run(State([], {}, map[]), events); Stored(s, w) == Computed(s.facts, w)
  {
    EveryDayFresh(State([], {}, map[]), events);
  }

  /** The windows of different days share no fact, and every fact is in the window it queued. */
  lemma FactInItsDay(f: Fact, w: Work)
    ensures Belongs(f, w) <==> w == WorkOf(f)
  {
    DaysTile(f.instant, w.day);
  }

  // ---------- what the figures are ----------

  /** The facts of a product's day, in order. */
  function Mine(facts: seq<Fact>, w: Work): seq<Fact> {
    if facts == [] then []
    else Mine(facts[..|facts| - 1], w) + (if Belongs(facts[|facts| - 1], w) then [facts[|facts| - 1]] else [])
  }

  function Total(facts: seq<Fact>): int {
    if facts == [] then 0 else facts[0].amount + Total(facts[1..])
  }

  lemma {:induction false} TotalOfTwo(a: seq<Fact>, b: seq<Fact>)
    ensures Total(a + b) == Total(a) + Total(b)
  {
    if a == [] {
      assert a + b == b;
    } else {
      assert (a + b)[1..] == a[1..] + b;
      TotalOfTwo(a[1..], b);
    }
  }

  lemma {:induction false} MineAre(facts: seq<Fact>, w: Work)
    ensures forall f :: f in Mine(facts, w) <==> f in facts && f.product == w.product && StatisticsDay(f.instant) == w.day
  {
    if facts != [] {
      var n := |facts| - 1;
      MineAre(facts[..n], w);
      DaysTile(facts[n].instant, w.day);
      assert facts == facts[..n] + [facts[n]];
    }
  }

  /**
    A day's figures: how many facts of that product fall on that day of the Seoul calendar, which
    users they are of, and the sum of their amounts.
   */
  lemma {:induction false} FiguresAre(facts: seq<Fact>, w: Work)
    ensures Computed(facts, w).events == |Mine(facts, w)|
    ensures forall u :: u in Computed(facts, w).users <==> exists f :: f in Mine(facts, w) && f.user == u
    ensures Computed(facts, w).amount == Total(Mine(facts, w))
  {
    if facts != [] {
      var n := |facts| - 1;
      var front, last := Mine(facts[..n], w), facts[n];
      FiguresAre(facts[..n], w);
      if Belongs(last, w) {
        TotalOfTwo(front, [last]);
        forall u ensures u in Computed(facts, w).users <==> exists f :: f in Mine(facts, w) && f.user == u {
          if u == last.user { assert last in Mine(facts, w); }
          if f :| f in front && f.user == u { assert f in Mine(facts, w); }
        }
      } else {
        assert Mine(facts, w) == front;
      }
    }
  }

  /** A repair queues, of the given products, today and the days before it as far back as asked, and no other. */
  lemma RequeuesExactly(s: State, products: set<nat>, now: int, days: int, w: Work)
    ensures Requeued(s, products, now, days).Some? <==> 1 <= days <= 31
    ensures 1 <= days <= 31 ==>
              var s' := Requeued(s, products, now, days).value;
              && s'.facts == s.facts && s'.stored == s.stored
              && (w in s'.queue <==>
                    || w in s.queue
                    || (w.product in products && StatisticsDay(now) - days <= w.day <= StatisticsDay(now)))
  {
    if 1 <= days <= 31 && w.product in products && StatisticsDay(now) - days <= w.day <= StatisticsDay(now) {
      var offset := StatisticsDay(now) - w.day;
      assert w == DaysBefore(w.product, now, offset);
    }
  }

  /** The first day of 2024 begins in Seoul at three in the afternoon of the day before, by Greenwich. */
  lemma SeoulMidnight()
    ensures DayBounds(19723) == (1704034800_000000, 1704121200_000000)
    ensures StatisticsDay(1704034800_000000) == 19723 && StatisticsDay(1704034800_000000 - 1) == 19722
  {}
}
