/**
  What a sync that starts over can publish, whatever is in the cache; what a sync that goes on
  from the cache can; and that a disposed session is silent.
 */
module ChatReset {
  import opened Wrappers
  import opened ChatServer
  import opened ChatHistory
  import opened ChatAgreement
  import opened ChatSession

  // ---------- a flight keeps what it started from ----------

  ghost predicate KeepsFlight(w: World, v: nat, r: Read) {
    v <= w.session.version && (v in w.flights ==> w.flights[v] == r)
  }

  lemma {:induction false} FlightKept(w: World, events: seq<Event>, v: nat, r: Read, srv: Timeline, c: string)
    requires Possible(w, events, srv, c) && KeepsFlight(w, v, r)
    ensures KeepsFlight(ChatSession.After(w, events, srv, c), v, r)
    decreases events
  {
    if events != [] { FlightKept(Apply(w, events[0], srv, c).0, events[1..], v, r, srv, c); }
  }

  /** The read that a sync begins, at the end of any run. */
  ghost predicate Concludes(w: World, reset: bool, events: seq<Event>, e: Event, srv: Timeline, c: string) {
    && !w.session.disposed && e.Finish? && e.version == w.session.version + 1
    && Happens(Apply(w, Begin(reset), srv, c).0, events, e, srv, c)
  }

  ghost function AtEnd(w: World, reset: bool, events: seq<Event>, e: Event, srv: Timeline, c: string): World
    requires Concludes(w, reset, events, e, srv, c)
  {
    ChatSession.After(Apply(w, Begin(reset), srv, c).0, events, srv, c)
  }

  /**
    From every world, whatever its cache holds: a read begun with reset that publishes, after any
    events in between, shows the server's own list exactly if its last page saw one revision, and
    no dropped row.
   */
  lemma ResetSyncIsExact(w: World, events: seq<Event>, e: Event, srv: Timeline, c: string)
    requires Runs(srv, c) && Inv(w, srv, c) && Concludes(w, true, events, e, srv, c)
    ensures ExactPublication(AtEnd(w, true, events, e, srv, c), e, srv, c)
  {
    var w1 := Apply(w, Begin(true), srv, c).0;
    var w2 := AtEnd(w, true, events, e, srv, c);
    StepKeeps(w, Begin(true), srv, c);
    RunKeeps(w1, events, srv, c);
    FlightKept(w1, events, e.version, Read(None, w.now), srv, c);
    FinishAgrees(w2, e, srv, c);
  }

  /**
    A read begun without reset that publishes without a restart is exact if and only if its last
    page saw one revision and the cache, as it was when the read began, held no dropped row.
   */
  lemma SyncIsExactIff(w: World, events: seq<Event>, e: Event, srv: Timeline, c: string)
    requires Runs(srv, c) && Inv(w, srv, c) && Concludes(w, false, events, e, srv, c)
    requires Incremental(w.session.conversation, w.session.history)
    requires ReadHistorySpec(e.feed, e.cursors, e.first, w.session.conversation, w.session.history).0.Done?
    ensures ExactIff(Settled(AtEnd(w, false, events, e, srv, c), e), e.schedule, e.first, w.session.history.value, srv)
  {
    var w1 := Apply(w, Begin(false), srv, c).0;
    StepKeeps(w, Begin(false), srv, c);
    RunKeeps(w1, events, srv, c);
    FlightKept(w1, events, e.version, Read(w.session.history, w.now), srv, c);
    SameRoom(w1, events, srv, c);
    FlightExactIff(AtEnd(w, false, events, e, srv, c), e, srv, c);
  }

  lemma {:induction false} SameRoom(w: World, events: seq<Event>, srv: Timeline, c: string)
    requires Possible(w, events, srv, c)
    ensures ChatSession.After(w, events, srv, c).session.conversation == w.session.conversation
    decreases events
  {
    if events != [] { SameRoom(Apply(w, events[0], srv, c).0, events[1..], srv, c); }
  }

  // ---------- a disposed session ----------

  lemma {:induction false} StaysDisposed(w: World, events: seq<Event>, srv: Timeline, c: string)
    requires Possible(w, events, srv, c) && w.session.disposed
    ensures ChatSession.After(w, events, srv, c).session.disposed
    decreases events
  {
    if events != [] { StaysDisposed(Apply(w, events[0], srv, c).0, events[1..], srv, c); }
  }

  /** After a disposal nothing is handed to the page any more, by no read and no append. */
  lemma DisposedIsSilent(w: World, events: seq<Event>, e: Event, srv: Timeline, c: string)
    requires Happens(Apply(w, Dispose, srv, c).0, events, e, srv, c)
    ensures Publication(Apply(w, Dispose, srv, c).0, events, e, srv, c) == Nothing
  {
    StaysDisposed(Apply(w, Dispose, srv, c).0, events, srv, c);
  }

  /** A read that may still publish hands over its history, or its error. */
  lemma LiveReadPublishes(w: World, e: Event, srv: Timeline, c: string)
    requires e.Finish? && Enabled(w, e, srv, c) && !w.session.disposed && e.version == w.session.version
    ensures Apply(w, e, srv, c).1 == if Settled(w, e).0.Done? then Shown(Settled(w, e).0.history) else Thrown
    ensures Settled(w, e).0.Done? ==> Apply(w, e, srv, c).0.session.history == Some(Settled(w, e).0.history)
    ensures !Settled(w, e).0.Done? ==> Apply(w, e, srv, c).0.session == w.session
  {}

  /** Of all rows handed to append, exactly those of the room reach a history that has been read. */
  lemma AppendTakesIff(s: Session, m: Message)
    ensures Appended(s, m).1.Shown? <==>
              !s.disposed && s.history.Some? && ConversationKey(m.conversation) == ConversationKey(s.conversation)
    ensures Appended(s, m).1.Shown? ==>
              Appended(s, m).0.history == Some(Appended(s, m).1.history)
              && m.id in Ids(Appended(s, m).1.history.messages)
              && Appended(s, m).1.history.cursor == s.history.value.cursor
    ensures !Appended(s, m).1.Shown? ==> Appended(s, m) == (s, Nothing)
  {
    if s.history.Some? { MergeSpec(s.history.value.messages, m); }
  }

  // ---------- a reset drops the late row ----------

  const RESET_WORLD := World(2, Session("room", Some(STALE), 3, false), map[3 := Read(None, 2)], {LATE.id}, {}, 2)

  const RESET_RUN := [Begin(false), Wait(2), ReadNewer(1), ChatSession.Append(LATE, 1), Begin(true)]

  lemma ResetRunEnd()
    ensures Possible(FRESH_WORLD, RESET_RUN[3..], LateTimeline, "room")
    ensures ChatSession.After(FRESH_WORLD, RESET_RUN[3..], LateTimeline, "room") == RESET_WORLD
  {
    LateAppendStep();
    assert Apply(STALE_WORLD, Begin(true), LateTimeline, "room").0 == RESET_WORLD;
    OneMore(STALE_WORLD, Begin(true), [], LateTimeline, "room");
    OneMore(FRESH_WORLD, ChatSession.Append(LATE, 1), [Begin(true)], LateTimeline, "room");
    assert RESET_RUN[3..] == [ChatSession.Append(LATE, 1)] + [Begin(true)];
  }

  /**
    The run of the late append, with a sync that starts over instead of going on: the row the
    server has dropped is gone again.
   */
  lemma ResetDropsLateRow()
    ensures var w0 := NewWorld("room", 0);
            && Happens(w0, RESET_RUN, ReadNewer(3), LateTimeline, "room")
            && ChatSession.After(w0, RESET_RUN, LateTimeline, "room").session.history == Some(STALE)
            && Publication(w0, RESET_RUN, ReadNewer(3), LateTimeline, "room") == Shown(REREAD)
    ensures LATE in STALE.messages && LATE !in REREAD.messages
  {
    LateRunStart();
    assert RESET_RUN[..3] == LATE_RUN[..3];
    ResetRunEnd();
    Joined(NewWorld("room", 0), RESET_RUN[..3], RESET_RUN[3..], LateTimeline, "room");
    assert RESET_RUN == RESET_RUN[..3] + RESET_RUN[3..];
    NewerIsReading();
    NewerIsRead();
    assert BOTH[1] == LATE && [FIRST][0] == FIRST;
  }

  // ---------- a cache behind the server, and the cache of another room ----------

  /** One attempt at a server that stands still ends well, or finds that the cache's revision is not the server's. */
  lemma StillAttempt(srv: Timeline, t: nat, id: string, c: string, k: nat, previous: Option<History>)
    requires Runs(srv, c) && ConversationKey(c) == ConversationKey(id)
    requires previous.Some? ==> CacheTracks(previous.value, srv(t)) && CacheClean(previous.value, srv(t))
    ensures Reading(Frozen(srv(t)), CursorsUpTo(srv(t).clock), srv, Still(t), id, c)
    ensures var r := ReadHistorySpec(Frozen(srv(t)), CursorsUpTo(srv(t).clock), k, id, previous).0;
            && !r.Error? && (r.Done? ==> Exact(r.history, srv(t)))
            && (r.HistoryChanged? ==> Incremental(id, previous) && previous.value.revision != Some(srv(t).revision))
  {
    var feed, cursors, s := Frozen(srv(t)), CursorsUpTo(srv(t).clock), Still(t);
    FrozenIsReading(srv, t, id, c);
    AlwaysValid(srv, c, t);
    StartTracks(id, previous, srv(t));
    var inc, st := Incremental(id, previous), Start(id, previous);
    ReadIsJustified(feed, cursors, srv, s, id, c, inc, k, st);
    ReadIsExact(feed, cursors, srv, s, id, c, inc, k, st);
    var r := ReadFrom(feed, cursors, id, inc, k, st);
    assert !RequestLost(feed, r.1 - 1) by { NothingLost(srv(t), r.1 - 1); }
  }

  /**
    However far a cache of rows the server still has lies behind, a read that goes on from it
    publishes the server's list, over a restart if the revision has moved.
   */
  lemma StillServerIsRead(srv: Timeline, t: nat, id: string, c: string, k: nat, previous: Option<History>)
    requires Runs(srv, c) && ConversationKey(c) == ConversationKey(id)
    requires previous.Some? ==> CacheTracks(previous.value, srv(t)) && CacheClean(previous.value, srv(t))
    ensures Reading(Frozen(srv(t)), CursorsUpTo(srv(t).clock), srv, Still(t), id, c)
    ensures var r := ReadConversationSpec(Frozen(srv(t)), CursorsUpTo(srv(t).clock), k, id, previous).0;
            r.Done? && Exact(r.history, srv(t))
  {
    StillAttempt(srv, t, id, c, k, previous);
    var first := ReadHistorySpec(Frozen(srv(t)), CursorsUpTo(srv(t).clock), k, id, previous);
    StillAttempt(srv, t, id, c, first.1, None);
  }

  /** The cache of another room, or one that does not know its revision, is not read on from. */
  lemma OnlyOwnCacheIsUsed(feed: Feed, cursors: set<Cursor>, k: nat, id: string, h: History)
    requires FiniteCursors(feed, cursors)
    requires ConversationKey(h.conversation) != ConversationKey(id) || h.revision.None?
    ensures ReadConversationSpec(feed, cursors, k, id, Some(h)) == ReadConversationSpec(feed, cursors, k, id, None)
  {}
}
