/**
  One room's in-memory cache: sync, append and dispose, with late completions fenced off by a
  version counter. The class is the client object; the functions say what each of its
  synchronous segments does; the world puts it beside a server and any number of reads.
 */
module ChatSession {
  import opened Wrappers
  import opened ChatServer
  import opened ChatHistory
  import opened ChatAgreement

  datatype Session = Session(conversation: string, history: Option<History>, version: nat, disposed: bool)

  /** What a segment hands to the page: nothing (null), a history to show, or an exception. */
  datatype Published = Nothing | Shown(history: History) | Thrown

  // ---------- the segments ----------

  function Disposed(s: Session): Session {
    s.(disposed := true, version := s.version + 1)
  }

  /** The first segment of sync: take a version and remember what to read on from. */
  function Begun(s: Session): Session {
    if s.disposed then s else s.(version := s.version + 1)
  }

  function ReadOnFrom(s: Session, reset: bool): Option<History> {
    if reset then None else s.history
  }

  /** The second segment of sync, once the read that took `version` has settled. */
  function Finished(s: Session, version: nat, outcome: Outcome): (Session, Published) {
    if s.disposed || version != s.version then (s, Nothing)
    else if outcome.Done? then (s.(history := Some(outcome.history)), Shown(outcome.history))
    else (s, Thrown)
  }

  predicate Accepts(s: Session, m: Message) {
    !s.disposed && s.history.Some? && ConversationKey(m.conversation) == ConversationKey(s.conversation)
  }

  function AppendedHistory(h: History, m: Message): History {
    var saved := Get(h.messages, m.id);
    h.(messages := MergeMessages(h.messages, m),
       revision := if saved.Some? && saved.value.revision != m.revision then None else h.revision)
  }

  function Appended(s: Session, m: Message): (Session, Published) {
    if !Accepts(s, m) then (s, Nothing)
    else
      var h := AppendedHistory(s.history.value, m);
      (s.(version := s.version + 1, history := Some(h)), Shown(h))
  }

  class ConversationHistorySession {
    const conversationId: string
    var history: Option<History>
    var version: nat
    var disposed: bool

    function State(): Session
      reads this
    {
      Session(conversationId, history, version, disposed)
    }

    constructor (conversationId: string)
      ensures State() == Session(conversationId, None, 0, false)
    {
      this.conversationId := conversationId;
      history, version, disposed := None, 0, false;
    }

    method Dispose()
      modifies this
      ensures State() == Disposed(old(State()))
    {
      disposed := true;
      version := version + 1;
    }

    /** `taken` is absent when the session is disposed and no read starts. */
    method BeginSync(reset: bool) returns (taken: Option<nat>, previous: Option<History>)
      modifies this
      ensures State() == Begun(old(State()))
      ensures taken == (if old(disposed) then None else Some(version))
      ensures taken.Some? ==> previous == ReadOnFrom(old(State()), reset)
    {
      if disposed { return None, None; }
      version := version + 1;
      return Some(version), if reset then None else history;
    }

    method FinishSync(taken: nat, outcome: Outcome) returns (published: Published)
      modifies this
      ensures (State(), published) == Finished(old(State()), taken, outcome)
    {
      if disposed || taken != version { return Nothing; }
      if !outcome.Done? { return Thrown; }
      history := Some(outcome.history);
      return Shown(outcome.history);
    }

    method Append(message: Message) returns (published: Published)
      modifies this
      ensures (State(), published) == Appended(old(State()), message)
    {
      if disposed || history.None?
         || ConversationKey(message.conversation) != ConversationKey(conversationId) { return Nothing; }
      var h := history.value;
      var saved := Get(h.messages, message.id);
      version := version + 1;
      h := h.(messages := MergeMessages(h.messages, message),
              revision := if saved.Some? && saved.value.revision != message.revision then None else h.revision);
      history := Some(h);
      return Shown(h);
    }
  }

  // ---------- the world ----------

  /** A read in flight: what it reads on from, and when it started. */
  datatype Read = Read(previous: Option<History>, started: nat)

  /**
    `saves` are the ids of all confirmed saves handed to append. `missed` are those for which it
    found no history while a read was in flight, until a read begun later publishes. `readBy` is
    when the read behind the cached history had finished.
   */
  datatype World = World(now: nat, session: Session, flights: map<nat, Read>,
                         saves: set<string>, missed: set<string>, readBy: nat)

  datatype Event =
    | Wait(until: nat)
    | Begin(reset: bool)
    | Finish(version: nat, feed: Feed, cursors: set<Cursor>, schedule: Schedule, first: nat)
    | Append(message: Message, confirmedAt: nat)
    | Dispose

  ghost function Settled(w: World, e: Event): (Outcome, nat)
    requires e.Finish? && e.version in w.flights && FiniteCursors(e.feed, e.cursors)
  {
    ReadConversationSpec(e.feed, e.cursors, e.first, w.session.conversation, w.flights[e.version].previous)
  }

  /** A read settles after its last request; a save is confirmed only after the server made it. */
  ghost predicate Enabled(w: World, e: Event, srv: Timeline, c: string) {
    match e
    case Wait(until) => w.now <= until
    case Begin(_) => true
    case Finish(version, feed, cursors, s, first) =>
      && version in w.flights
      && Reading(feed, cursors, srv, s, w.session.conversation, c)
      && w.flights[version].started <= s.tr(first)
      && s.tw(Settled(w, e).1 - 1) <= w.now
    case Append(m, at) => at <= w.now && m in srv(at).messages
    case Dispose => true
  }

  /** The first history is still being read, so append has nothing to add to and fences nothing. */
  predicate Misses(w: World) {
    !w.session.disposed && w.session.history.None? && w.session.version in w.flights
  }

  function AfterAppend(w: World, m: Message): World {
    w.(session := Appended(w.session, m).0, saves := w.saves + {m.id},
       missed := if Misses(w) then w.missed + {m.id} else if Accepts(w.session, m) then w.missed - {m.id} else w.missed)
  }

  ghost function AfterFinish(w: World, version: nat, outcome: Outcome, srv: Timeline): World
    requires version in w.flights
  {
    var (session, published) := Finished(w.session, version, outcome);
    var w' := w.(session := session, flights := w.flights - {version});
    if published.Shown? then w'.(missed := w.missed - srv(w.flights[version].started).issued, readBy := w.now) else w'
  }

  ghost function Apply(w: World, e: Event, srv: Timeline, c: string): (World, Published)
    requires Enabled(w, e, srv, c)
  {
    match e
    case Wait(until) => (w.(now := until), Nothing)
    case Begin(reset) =>
      var s := Begun(w.session);
      (w.(session := s,
          flights := if w.session.disposed then w.flights
                   else w.flights[s.version := Read(ReadOnFrom(w.session, reset), w.now)]), Nothing)
    case Finish(version, _, _, _, _) =>
      (AfterFinish(w, version, Settled(w, e).0, srv), Finished(w.session, version, Settled(w, e).0).1)
    case Append(m, _) => (AfterAppend(w, m), Appended(w.session, m).1)
    case Dispose => (w.(session := Disposed(w.session)), Nothing)
  }

  // ---------- the invariant ----------

  /** The cached rows are in order, once each, and miss nothing behind the checkpoint. */
  ghost predicate GoodCache(h: History, s: Server) {
    NonDescending(h.messages) && UniqueIds(h.messages) && CacheTracks(h, s)
  }

  /** A save the server still holds is in the history. */
  ghost predicate Holds(h: History, id: string, s: Server) {
    id in Ids(s.messages) ==> id in Ids(h.messages)
  }

  /** Nothing can publish a history without this save: not the cache, and not the read in flight. */
  ghost predicate Safe(w: World, id: string, srv: Timeline) {
    w.session.disposed ||
    (&& (w.session.history.Some? ==> Holds(w.session.history.value, id, srv(w.now)))
     && (w.session.version in w.flights ==> id in srv(w.flights[w.session.version].started).issued))
  }

  ghost predicate SavesSafe(w: World, srv: Timeline) {
    && w.saves <= srv(w.now).issued
    && forall id :: id in w.saves - w.missed ==> Safe(w, id, srv)
  }

  ghost predicate GoodSession(w: World, srv: Timeline, c: string) {
    && ConversationKey(c) == ConversationKey(w.session.conversation) && w.readBy <= w.now
    && (w.session.history.Some? ==>
          && GoodCache(w.session.history.value, srv(w.now)) && Genuine(w.session.history.value.messages, srv, w.now)
          && (w.session.history.value.revision.Some? ==> w.session.history.value.revision.value <= srv(w.readBy).revision))
  }

  ghost predicate GoodRead(w: World, v: nat, srv: Timeline)
    requires v in w.flights
  {
    var r := w.flights[v];
    && v <= w.session.version && r.started <= w.now
    && (w.session.history.None? ==> r.previous.None?)
    && (r.previous.Some? ==>
          GoodCache(r.previous.value, srv(r.started)) && Genuine(r.previous.value.messages, srv, r.started))
  }

  ghost predicate GoodReads(w: World, srv: Timeline) {
    forall v :: v in w.flights ==> GoodRead(w, v, srv)
  }

  ghost predicate Inv(w: World, srv: Timeline, c: string) {
    GoodSession(w, srv, c) && GoodReads(w, srv)
  }

  /** The invariant that holds as long as no append is late: no cached row has been dropped. */
  ghost predicate CleanInv(w: World, srv: Timeline) {
    && (w.session.history.Some? ==> CacheClean(w.session.history.value, srv(w.now)))
    && forall v :: v in w.flights ==> CleanRead(w, v, srv)
  }

  /** No row the cached rows of this flight had was dropped when it started. */
  ghost predicate CleanRead(w: World, v: nat, srv: Timeline)
    requires v in w.flights
  {
    w.flights[v].previous.Some? ==> CacheClean(w.flights[v].previous.value, srv(w.flights[v].started))
  }

  lemma CacheLater(srv: Timeline, c: string, i: nat, j: nat, h: History)
    requires Runs(srv, c) && i <= j && CacheTracks(h, srv(i))
    ensures CacheTracks(h, srv(j))
    ensures CacheClean(h, srv(i)) ==> CacheClean(h, srv(j))
  {
    CoversLater(srv, c, i, j, h.messages, CursorPosition(h.cursor));
    Advances(srv, c, i, j);
    if CacheClean(h, srv(i)) && h.revision.Some? { CleanLater(srv, c, i, j, h.messages, h.revision.value); }
  }

  /** An id issued by time i that is held at j was held at every moment between. */
  lemma HeldBetween(srv: Timeline, c: string, i: nat, k: nat, j: nat, id: string)
    requires Runs(srv, c) && i <= k <= j && id in srv(i).issued && id in Ids(srv(j).messages)
    ensures id in Ids(srv(k).messages)
  {
    var m :| m in srv(j).messages && m.id == id;
    Advances(srv, c, i, k);
    HeldThroughout(srv, c, k, j, m);
  }

  lemma HoldsLater(srv: Timeline, c: string, i: nat, j: nat, h: History, id: string)
    requires Runs(srv, c) && i <= j && id in srv(i).issued && Holds(h, id, srv(i))
    ensures Holds(h, id, srv(j))
  {
    if id in Ids(srv(j).messages) { HeldBetween(srv, c, i, i, j, id); }
  }

  lemma GenuineLater(srv: Timeline, i: nat, j: nat, ms: seq<Message>)
    requires i <= j && Genuine(ms, srv, i)
    ensures Genuine(ms, srv, j)
  {
    EverHeldGrows(srv, i, j);
  }

  lemma MergeSpec(previous: seq<Message>, m: Message)
    ensures var ms := MergeMessages(previous, m);
            && NonDescending(ms) && UniqueIds(ms) && Ids(ms) == Ids(previous) + {m.id}
            && forall x :: x in ms ==> x == m || x in previous
  {
    FromListSpec(previous);
    PutNewerSpec(FromList(previous), m);
    var ms := PutNewer(FromList(previous), m);
    SortedSpec(ms);
    SameElements(Sorted(ms), ms);
    UniquePermutes(ms, Sorted(ms));
  }

  /** Unless a newer row of the same id is already cached, the save itself is in the result. */
  lemma MergeTakes(previous: seq<Message>, m: Message)
    requires UniqueIds(previous)
    requires var saved := Get(previous, m.id); saved.Some? ==> saved.value.revision == m.revision
    ensures m in MergeMessages(previous, m)
  {
    var rows := FromList(previous);
    FromListSpec(previous);
    GetSpec(previous, m.id);
    GetSpec(rows, m.id);
    var kept := Get(rows, m.id);
    if kept.Some? { assert kept.value in previous && Get(previous, m.id).value == kept.value; }
    PutSpec(rows, m);
    SortedSpec(PutNewer(rows, m));
    SameElements(Sorted(PutNewer(rows, m)), PutNewer(rows, m));
  }

  lemma AppendGood(h: History, m: Message, s: Server)
    requires GoodCache(h, s)
    ensures var h' := AppendedHistory(h, m);
            && GoodCache(h', s) && Ids(h'.messages) == Ids(h.messages) + {m.id}
            && (h'.revision.Some? ==> h'.revision == h.revision && m in h'.messages)
            && forall x :: x in h'.messages ==> x == m || x in h.messages
  {
    MergeSpec(h.messages, m);
    if AppendedHistory(h, m).revision.Some? { MergeTakes(h.messages, m); }
  }

  lemma AppendGenuine(h: History, m: Message, srv: Timeline, at: nat, now: nat)
    requires Genuine(h.messages, srv, now) && at <= now && m in srv(at).messages
    ensures Genuine(AppendedHistory(h, m).messages, srv, now)
  {
    MergeSpec(h.messages, m);
    EverHeldGrows(srv, at, now);
  }

  /** A confirmed save is timely unless the server dropped it before the cache's own revision. */
  ghost predicate Timely(h: History, m: Message, s: Server) {
    AppendedHistory(h, m).revision == Some(s.revision) ==> m in s.messages
  }

  /** Appending keeps the cache free of dropped rows exactly for timely saves. */
  lemma AppendClean(h: History, m: Message, s: Server)
    requires GoodCache(h, s) && CacheClean(h, s)
    ensures CacheClean(AppendedHistory(h, m), s) <==> Timely(h, m, s)
  {
    AppendGood(h, m, s);
  }

  /** Event order alone: the read behind the cache had finished when the server held the save. */
  lemma PromptIsTimely(h: History, m: Message, srv: Timeline, c: string, readBy: nat, at: nat, now: nat)
    requires Runs(srv, c) && readBy <= at <= now && m in srv(at).messages
    requires h.revision.Some? ==> h.revision.value <= srv(readBy).revision
    ensures Timely(h, m, srv(now))
  {
    Advances(srv, c, readBy, at);
    Advances(srv, c, at, now);
  }

  // ---------- steps ----------

  lemma WaitKeeps(w: World, until: nat, srv: Timeline, c: string)
    requires Runs(srv, c) && Inv(w, srv, c) && w.now <= until
    ensures Inv(w.(now := until), srv, c)
    ensures CleanInv(w, srv) ==> CleanInv(w.(now := until), srv)
  {
    if w.session.history.Some? {
      var h := w.session.history.value;
      CacheLater(srv, c, w.now, until, h);
      GenuineLater(srv, w.now, until, h.messages);
    }
    var w' := w.(now := until);
    forall v | v in w'.flights ensures GoodRead(w', v, srv) { assert GoodRead(w, v, srv); }
  }

  /** When a settled read made its last request, and what it then had. */
  ghost predicate EndsWell(w: World, e: Event, srv: Timeline, r: (Outcome, nat))
    requires e.Finish? && e.version in w.flights
  {
    && r.0.Done? && r.1 > 0
    && e.schedule.tr(r.1 - 1) <= e.schedule.tw(r.1 - 1)
    && w.flights[e.version].started <= e.schedule.tw(r.1 - 1) <= w.now
    && Complete(r.0.history, w.session.conversation, srv(e.schedule.tr(r.1 - 1)), srv(e.schedule.tw(r.1 - 1)))
  }

  /** What a finished read of a flight has, whether or not it may publish. */
  lemma FinishRead(w: World, e: Event, srv: Timeline, c: string)
    requires Runs(srv, c) && GoodReads(w, srv) && e.Finish? && Enabled(w, e, srv, c) && Settled(w, e).0.Done?
    ensures EndsWell(w, e, srv, Settled(w, e))
  {
    var r := w.flights[e.version];
    assert GoodRead(w, e.version, srv);
    if r.previous.Some? { CacheLater(srv, c, r.started, e.schedule.tr(e.first), r.previous.value); }
    ConversationReadAgrees(e.feed, e.cursors, srv, e.schedule, w.session.conversation, c, e.first, r.previous);
    ReadTimes(e.schedule, e.first, Settled(w, e).1 - 1);
  }

  lemma ReadTimes(s: Schedule, first: nat, last: nat)
    requires Monotone(s) && first <= last
    ensures s.tr(first) <= s.tr(last) <= s.tw(last)
  {
    ScheduleAdvances(s, first, last);
    assert RequestInOrder(s, last);
  }

  lemma FinishAgrees(w: World, e: Event, srv: Timeline, c: string)
    requires Runs(srv, c) && GoodReads(w, srv) && e.Finish? && Enabled(w, e, srv, c) && CleanRead(w, e.version, srv)
    ensures AgreeingOutcome(Settled(w, e), srv, e.schedule)
  {
    var r := w.flights[e.version];
    assert GoodRead(w, e.version, srv);
    if r.previous.Some? { CacheLater(srv, c, r.started, e.schedule.tr(e.first), r.previous.value); }
    ConversationReadAgrees(e.feed, e.cursors, srv, e.schedule, w.session.conversation, c, e.first, r.previous);
  }

  lemma FinishGenuine(w: World, e: Event, srv: Timeline, c: string)
    requires Runs(srv, c) && GoodReads(w, srv) && e.Finish? && Enabled(w, e, srv, c) && Settled(w, e).0.Done?
    ensures Genuine(Settled(w, e).0.history.messages, srv, w.now)
  {
    var r := w.flights[e.version];
    assert GoodRead(w, e.version, srv);
    if r.previous.Some? { GenuineLater(srv, r.started, w.now, r.previous.value.messages); }
    ConversationReadIsGenuine(e.feed, e.cursors, srv, e.schedule, w.session.conversation, c, e.first, r.previous, w.now);
  }

  /** A good cache that holds every save issued by then. */
  ghost predicate HoldsIssued(h: History, srv: Timeline, started: nat, now: nat) {
    GoodCache(h, srv(now)) && forall save :: save in srv(started).issued ==> Holds(h, save, srv(now))
  }

  /** A complete read at tw is a good cache ever after, and holds what was issued when it began. */
  lemma CompleteLater(h: History, id: string, srv: Timeline, c: string, started: nat, tr: nat, tw: nat, now: nat)
    requires Runs(srv, c) && tr <= tw && started <= tw <= now && Complete(h, id, srv(tr), srv(tw))
    ensures HoldsIssued(h, srv, started, now)
    ensures CleanAt(h.messages, srv(tr).revision, srv(tw)) ==> CacheClean(h, srv(now))
  {
    Advances(srv, c, tr, tw);
    CacheLater(srv, c, tw, now, h);
    forall save | save in srv(started).issued ensures Holds(h, save, srv(now)) {
      if save in Ids(srv(now).messages) { HeldBetween(srv, c, started, tw, now, save); }
    }
  }

  /** What a read that may publish shows. */
  lemma FinishShows(w: World, e: Event, srv: Timeline, c: string)
    requires Runs(srv, c) && GoodReads(w, srv) && e.Finish? && Enabled(w, e, srv, c) && Settled(w, e).0.Done?
    ensures HoldsIssued(Settled(w, e).0.history, srv, w.flights[e.version].started, w.now)
    ensures CleanRead(w, e.version, srv) ==> CacheClean(Settled(w, e).0.history, srv(w.now))
  {
    var r := Settled(w, e);
    FinishRead(w, e, srv, c);
    if CleanRead(w, e.version, srv) { FinishAgrees(w, e, srv, c); }
    EndedLater(w, e, srv, c, r);
  }

  lemma EndedLater(w: World, e: Event, srv: Timeline, c: string, r: (Outcome, nat))
    requires Runs(srv, c) && e.Finish? && e.version in w.flights && EndsWell(w, e, srv, r)
    ensures HoldsIssued(r.0.history, srv, w.flights[e.version].started, w.now)
    ensures AgreeingOutcome(r, srv, e.schedule) ==> CacheClean(r.0.history, srv(w.now))
  {
    CompleteLater(r.0.history, w.session.conversation, srv, c, w.flights[e.version].started,
                  e.schedule.tr(r.1 - 1), e.schedule.tw(r.1 - 1), w.now);
  }

  lemma FinishKeeps(w: World, e: Event, srv: Timeline, c: string)
    requires Runs(srv, c) && Inv(w, srv, c) && e.Finish? && Enabled(w, e, srv, c)
    ensures Inv(Apply(w, e, srv, c).0, srv, c)
  {
    var w' := Apply(w, e, srv, c).0;
    forall v | v in w'.flights ensures GoodRead(w', v, srv) { assert GoodRead(w, v, srv); }
    if Finished(w.session, e.version, Settled(w, e).0).1.Shown? {
      FinishShows(w, e, srv, c);
      FinishGenuine(w, e, srv, c);
    }
  }

  lemma AppendKeeps(w: World, m: Message, at: nat, srv: Timeline, c: string)
    requires Runs(srv, c) && Inv(w, srv, c) && Enabled(w, Append(m, at), srv, c)
    ensures Inv(AfterAppend(w, m), srv, c)
  {
    var w' := AfterAppend(w, m);
    forall v | v in w'.flights ensures GoodRead(w', v, srv) { assert GoodRead(w, v, srv); }
    if Accepts(w.session, m) {
      AppendGood(w.session.history.value, m, srv(w.now));
      AppendGenuine(w.session.history.value, m, srv, at, w.now);
    }
  }

  lemma StepKeeps(w: World, e: Event, srv: Timeline, c: string)
    requires Runs(srv, c) && Inv(w, srv, c) && Enabled(w, e, srv, c)
    ensures Inv(Apply(w, e, srv, c).0, srv, c)
  {
    var w' := Apply(w, e, srv, c).0;
    match e
    case Wait(until) => WaitKeeps(w, until, srv, c);
    case Finish(_, _, _, _, _) => FinishKeeps(w, e, srv, c);
    case Append(m, at) => AppendKeeps(w, m, at, srv, c);
    case _ =>
      forall v | v in w'.flights ensures GoodRead(w', v, srv) {
        if v in w.flights { assert GoodRead(w, v, srv); }
      }
  }

  ghost predicate AppendsTimely(w: World, e: Event, srv: Timeline) {
    e.Append? && Accepts(w.session, e.message) ==> Timely(w.session.history.value, e.message, srv(w.now))
  }

  /** What the caller sees: the read behind the cache was over when this save was confirmed. */
  predicate AppendsPrompt(w: World, e: Event) {
    e.Append? ==> w.readBy <= e.confirmedAt
  }

  lemma StepKeepsClean(w: World, e: Event, srv: Timeline, c: string)
    requires Runs(srv, c) && Inv(w, srv, c) && Enabled(w, e, srv, c) && CleanInv(w, srv)
    ensures AppendsTimely(w, e, srv) <==> CleanInv(Apply(w, e, srv, c).0, srv)
  {
    match e
    case Wait(until) => WaitKeeps(w, until, srv, c);
    case Begin(_) =>
    case Finish(version, _, _, _, _) =>
      if Finished(w.session, version, Settled(w, e).0).1.Shown? { FinishShows(w, e, srv, c); }
    case Append(m, at) =>
      if Accepts(w.session, m) { AppendClean(w.session.history.value, m, srv(w.now)); }
    case Dispose =>
  }

  // ---------- one save ----------

  lemma VersionsTaken(w: World, srv: Timeline)
    requires GoodReads(w, srv)
    ensures forall v :: v in w.flights ==> v <= w.session.version
  {
    forall v | v in w.flights ensures v <= w.session.version { assert GoodRead(w, v, srv); }
  }

  lemma AppendSafe(w: World, m: Message, at: nat, srv: Timeline, c: string, id: string)
    requires Runs(srv, c) && Inv(w, srv, c) && Enabled(w, Append(m, at), srv, c)
    requires Safe(w, id, srv) || (id == m.id && !Misses(w))
    ensures Safe(AfterAppend(w, m), id, srv)
  {
    if Accepts(w.session, m) {
      AppendGood(w.session.history.value, m, srv(w.now));
      VersionsTaken(w, srv);
    }
  }

  /** Once nothing can publish a history without it, that stays so. */
  lemma StepSafe(w: World, e: Event, srv: Timeline, c: string, id: string)
    requires Runs(srv, c) && Inv(w, srv, c) && Enabled(w, e, srv, c)
    requires id in srv(w.now).issued && Safe(w, id, srv)
    ensures Safe(Apply(w, e, srv, c).0, id, srv) && id in srv(Apply(w, e, srv, c).0.now).issued
  {
    match e
    case Wait(until) =>
      Advances(srv, c, w.now, until);
      if !w.session.disposed && w.session.history.Some? { HoldsLater(srv, c, w.now, until, w.session.history.value, id); }
    case Finish(version, _, _, _, _) =>
      if Finished(w.session, version, Settled(w, e).0).1.Shown? { FinishShows(w, e, srv, c); }
    case Append(m, at) => AppendSafe(w, m, at, srv, c, id);
    case _ =>
  }

  ghost predicate ShowsIt(published: Published, id: string, s: Server) {
    published.Shown? ==> Holds(published.history, id, s)
  }

  lemma SafeIsShown(w: World, e: Event, srv: Timeline, c: string, id: string)
    requires Runs(srv, c) && Inv(w, srv, c) && Enabled(w, e, srv, c)
    requires id in srv(w.now).issued && Safe(w, id, srv)
    ensures ShowsIt(Apply(w, e, srv, c).1, id, srv(w.now))
  {
    if e.Finish? && Finished(w.session, e.version, Settled(w, e).0).1.Shown? { FinishShows(w, e, srv, c); }
    if e.Append? { AppendSafe(w, e.message, e.confirmedAt, srv, c, id); }
  }

  // ---------- runs ----------

  function NewWorld(id: string, now: nat): World {
    World(now, Session(id, None, 0, false), map[], {}, {}, now)
  }

  ghost predicate Possible(w: World, events: seq<Event>, srv: Timeline, c: string)
    decreases events
  {
    events == [] || (Enabled(w, events[0], srv, c) && Possible(Apply(w, events[0], srv, c).0, events[1..], srv, c))
  }

  ghost function After(w: World, events: seq<Event>, srv: Timeline, c: string): World
    requires Possible(w, events, srv, c)
    decreases events
  {
    if events == [] then w else After(Apply(w, events[0], srv, c).0, events[1..], srv, c)
  }

  /** What an event hands to the page at the end of a run. */
  ghost predicate Happens(w: World, events: seq<Event>, e: Event, srv: Timeline, c: string) {
    Possible(w, events, srv, c) && Enabled(After(w, events, srv, c), e, srv, c)
  }

  ghost function Publication(w: World, events: seq<Event>, e: Event, srv: Timeline, c: string): Published
    requires Happens(w, events, e, srv, c)
  {
    Apply(After(w, events, srv, c), e, srv, c).1
  }

  ghost predicate AllTimely(w: World, events: seq<Event>, srv: Timeline, c: string)
    requires Possible(w, events, srv, c)
    decreases events
  {
    events == [] || (AppendsTimely(w, events[0], srv) && AllTimely(Apply(w, events[0], srv, c).0, events[1..], srv, c))
  }

  ghost predicate AllPrompt(w: World, events: seq<Event>, srv: Timeline, c: string)
    requires Possible(w, events, srv, c)
    decreases events
  {
    events == [] || (AppendsPrompt(w, events[0]) && AllPrompt(Apply(w, events[0], srv, c).0, events[1..], srv, c))
  }

  lemma {:induction false} RunKeeps(w: World, events: seq<Event>, srv: Timeline, c: string)
    requires Runs(srv, c) && Inv(w, srv, c) && Possible(w, events, srv, c)
    ensures Inv(After(w, events, srv, c), srv, c)
    ensures CleanInv(w, srv) && AllTimely(w, events, srv, c) ==> CleanInv(After(w, events, srv, c), srv)
    decreases events
  {
    if events != [] {
      StepKeeps(w, events[0], srv, c);
      if CleanInv(w, srv) { StepKeepsClean(w, events[0], srv, c); }
      RunKeeps(Apply(w, events[0], srv, c).0, events[1..], srv, c);
    }
  }

  lemma {:induction false} PromptRunIsTimely(w: World, events: seq<Event>, srv: Timeline, c: string)
    requires Runs(srv, c) && Inv(w, srv, c) && Possible(w, events, srv, c) && AllPrompt(w, events, srv, c)
    ensures AllTimely(w, events, srv, c)
    decreases events
  {
    if events != [] {
      var e := events[0];
      if e.Append? && Accepts(w.session, e.message) {
        PromptIsTimely(w.session.history.value, e.message, srv, c, w.readBy, e.confirmedAt, w.now);
      }
      StepKeeps(w, e, srv, c);
      PromptRunIsTimely(Apply(w, e, srv, c).0, events[1..], srv, c);
    }
  }

  lemma {:induction false} RunSafe(w: World, events: seq<Event>, srv: Timeline, c: string, id: string)
    requires Runs(srv, c) && Inv(w, srv, c) && Possible(w, events, srv, c)
    requires id in srv(w.now).issued && Safe(w, id, srv)
    ensures Safe(After(w, events, srv, c), id, srv) && id in srv(After(w, events, srv, c).now).issued
    decreases events
  {
    if events != [] {
      StepSafe(w, events[0], srv, c, id);
      StepKeeps(w, events[0], srv, c);
      RunSafe(Apply(w, events[0], srv, c).0, events[1..], srv, c, id);
    }
  }

  lemma StepSavesSafe(w: World, e: Event, srv: Timeline, c: string)
    requires Runs(srv, c) && Inv(w, srv, c) && SavesSafe(w, srv) && Enabled(w, e, srv, c)
    ensures SavesSafe(Apply(w, e, srv, c).0, srv)
  {
    var w' := Apply(w, e, srv, c).0;
    Advances(srv, c, w.now, w'.now);
    if e.Append? {
      AlwaysValid(srv, c, e.confirmedAt);
      Advances(srv, c, e.confirmedAt, w.now);
    }
    forall id | id in w'.saves - w'.missed ensures Safe(w', id, srv) {
      if id in w.saves - w.missed { StepSafe(w, e, srv, c, id); }
      else if e.Append? { AppendSafe(w, e.message, e.confirmedAt, srv, c, id); }
      else { FinishShows(w, e, srv, c); }
    }
  }

  lemma {:induction false} RunSavesSafe(w: World, events: seq<Event>, srv: Timeline, c: string)
    requires Runs(srv, c) && Inv(w, srv, c) && SavesSafe(w, srv) && Possible(w, events, srv, c)
    ensures SavesSafe(After(w, events, srv, c), srv)
    decreases events
  {
    if events != [] {
      StepSavesSafe(w, events[0], srv, c);
      StepKeeps(w, events[0], srv, c);
      RunSavesSafe(Apply(w, events[0], srv, c).0, events[1..], srv, c);
    }
  }

  /** What holds of the history an event publishes. */
  ghost predicate GoodPublication(w: World, e: Event, srv: Timeline, c: string)
    requires Enabled(w, e, srv, c)
  {
    var (w', published) := Apply(w, e, srv, c);
    published.Shown? ==>
      && GoodCache(published.history, srv(w.now))
      && (forall id :: id in w'.saves - w'.missed ==> Holds(published.history, id, srv(w.now)))
      && (e.Append? ==> e.message.id in Ids(published.history.messages))
      && (e.Finish? ==> e.version == w.session.version && !w.session.disposed)
  }

  /** A completed read publishes the server's own list exactly if its last page saw one revision. */
  ghost predicate ExactPublication(w: World, e: Event, srv: Timeline, c: string)
    requires Enabled(w, e, srv, c)
  {
    var published := Apply(w, e, srv, c).1;
    published.Shown? && e.Finish? ==>
      var last := Settled(w, e).1 - 1;
      last >= 0 && Agrees(published.history, srv(e.schedule.tr(last)), srv(e.schedule.tw(last)))
  }

  lemma StepPublishes(w: World, e: Event, srv: Timeline, c: string)
    requires Runs(srv, c) && Inv(w, srv, c) && SavesSafe(w, srv) && Enabled(w, e, srv, c)
    ensures GoodPublication(w, e, srv, c)
    ensures CleanInv(w, srv) ==> ExactPublication(w, e, srv, c)
  {
    var (w', published) := Apply(w, e, srv, c);
    if published.Shown? {
      StepKeeps(w, e, srv, c);
      StepSavesSafe(w, e, srv, c);
      if e.Finish? { FinishRead(w, e, srv, c); }
      if e.Finish? && CleanInv(w, srv) { FinishAgrees(w, e, srv, c); }
      if e.Append? { AppendGood(w.session.history.value, e.message, srv(w.now)); }
      forall id | id in w'.saves - w'.missed ensures Holds(published.history, id, srv(w.now)) {
        assert Safe(w', id, srv);
      }
    }
  }

  /**
    Over every run of syncs, appends, disposal and late completions: whatever event publishes a
    history, that history is in order with unique ids and holds every confirmed save the server
    still holds, except those missed: append found no history for them while the first read was
    in flight, and no read begun later has published. A read publishes only if no sync, no append
    that found a history and no disposal came after it started. If every append is timely, or if
    every save was confirmed after the read behind the cache was over, what a read publishes is
    the server's own list exactly if its last page saw one revision.
   */
  lemma EveryPublishedHistory(id: string, start: nat, events: seq<Event>, e: Event, srv: Timeline, c: string)
    requires Runs(srv, c) && ConversationKey(c) == ConversationKey(id)
    requires Happens(NewWorld(id, start), events, e, srv, c)
    ensures GoodPublication(After(NewWorld(id, start), events, srv, c), e, srv, c)
    ensures AllTimely(NewWorld(id, start), events, srv, c) || AllPrompt(NewWorld(id, start), events, srv, c) ==>
              ExactPublication(After(NewWorld(id, start), events, srv, c), e, srv, c)
  {
    var w0 := NewWorld(id, start);
    assert Inv(w0, srv, c) && CleanInv(w0, srv) && SavesSafe(w0, srv);
    RunKeeps(w0, events, srv, c);
    RunSavesSafe(w0, events, srv, c);
    if AllPrompt(w0, events, srv, c) { PromptRunIsTimely(w0, events, srv, c); }
    StepPublishes(After(w0, events, srv, c), e, srv, c);
  }

  // ---------- exactly which saves are kept ----------

  /** From here on, every history that is published while the server holds the save has it. */
  ghost predicate KeptFrom(w: World, id: string, srv: Timeline, c: string) {
    forall events, e :: Happens(w, events, e, srv, c) ==>
      ShowsIt(Publication(w, events, e, srv, c), id, srv(After(w, events, srv, c).now))
  }

  lemma SafeIsKept(w: World, id: string, srv: Timeline, c: string)
    requires Runs(srv, c) && Inv(w, srv, c) && id in srv(w.now).issued && Safe(w, id, srv)
    ensures KeptFrom(w, id, srv, c)
  {
    forall events, e | Happens(w, events, e, srv, c)
      ensures ShowsIt(Publication(w, events, e, srv, c), id, srv(After(w, events, srv, c).now))
    {
      RunKeeps(w, events, srv, c);
      RunSafe(w, events, srv, c, id);
      SafeIsShown(After(w, events, srv, c), e, srv, c, id);
    }
  }

  lemma {:induction false} TimeMovesOn(w: World, events: seq<Event>, srv: Timeline, c: string)
    requires Possible(w, events, srv, c)
    ensures w.now <= After(w, events, srv, c).now
    decreases events
  {
    if events != [] { TimeMovesOn(Apply(w, events[0], srv, c).0, events[1..], srv, c); }
  }

  /** A save the server has dropped is never held again, so no history owes it. */
  lemma GoneIsKept(w: World, id: string, srv: Timeline, c: string)
    requires Runs(srv, c) && id in srv(w.now).issued && id !in Ids(srv(w.now).messages)
    ensures KeptFrom(w, id, srv, c)
  {
    forall events, e | Happens(w, events, e, srv, c)
      ensures ShowsIt(Publication(w, events, e, srv, c), id, srv(After(w, events, srv, c).now))
    {
      TimeMovesOn(w, events, srv, c);
      var now := After(w, events, srv, c).now;
      if id in Ids(srv(now).messages) { HeldBetween(srv, c, w.now, w.now, now, id); }
    }
  }

  /** The first read, answered as of its start, publishes a history without a save made since. */
  lemma MissedIsLost(w: World, id: string, srv: Timeline, c: string)
    requires Runs(srv, c) && Inv(w, srv, c) && Misses(w) && id in Ids(srv(w.now).messages)
    requires id !in srv(w.flights[w.session.version].started).issued
    ensures !KeptFrom(w, id, srv, c)
  {
    var v := w.session.version;
    assert GoodRead(w, v, srv);
    var t := w.flights[v].started;
    FrozenRead(srv, t, w.session.conversation, c);
    var e := Finish(v, Frozen(srv(t)), CursorsUpTo(srv(t).clock), Still(t), 0);
    assert Happens(w, [], e, srv, c);
    AlwaysValid(srv, c, t);
    assert Publication(w, [], e, srv, c).history.messages == srv(t).messages;
    assert !ShowsIt(Publication(w, [], e, srv, c), id, srv(w.now));
  }

  /**
    A confirmed save is in every later history if and only if append found a history, or no read
    of an undisposed session was in flight, or that read began after the save was made, or the
    server no longer holds it.
   */
  lemma SaveKeptIff(w: World, m: Message, at: nat, srv: Timeline, c: string)
    requires Runs(srv, c) && Inv(w, srv, c) && Enabled(w, Append(m, at), srv, c)
    ensures KeptFrom(AfterAppend(w, m), m.id, srv, c) <==>
              || !Misses(w) || m.id in srv(w.flights[w.session.version].started).issued
              || m.id !in Ids(srv(w.now).messages)
    ensures Accepts(w.session, m) ==> KeptFrom(AfterAppend(w, m), m.id, srv, c)
  {
    var w' := AfterAppend(w, m);
    AppendKeeps(w, m, at, srv, c);
    AlwaysValid(srv, c, at);
    Advances(srv, c, at, w.now);
    if m.id !in Ids(srv(w.now).messages) {
      GoneIsKept(w', m.id, srv, c);
    } else if !Misses(w) {
      AppendSafe(w, m, at, srv, c, m.id);
      SafeIsKept(w', m.id, srv, c);
    } else if m.id in srv(w.flights[w.session.version].started).issued {
      SafeIsKept(w', m.id, srv, c);
    } else {
      MissedIsLost(w', m.id, srv, c);
    }
  }

  // ---------- exactly what fences a read ----------

  /** Whatever happens from here on, the read that took this version hands nothing to the page. */
  ghost predicate FencedFrom(w: World, v: nat, srv: Timeline, c: string) {
    forall events, e :: Happens(w, events, e, srv, c) && e.Finish? && e.version == v ==>
      Publication(w, events, e, srv, c) == Nothing
  }

  predicate Fenced(s: Session, v: nat) {
    s.disposed || v < s.version
  }

  lemma {:induction false} StaysFenced(w: World, events: seq<Event>, v: nat, srv: Timeline, c: string)
    requires Possible(w, events, srv, c) && Fenced(w.session, v)
    ensures Fenced(After(w, events, srv, c).session, v)
    decreases events
  {
    if events != [] { StaysFenced(Apply(w, events[0], srv, c).0, events[1..], v, srv, c); }
  }

  function NoAnswers(k: nat, x: Option<Cursor>): Reply {
    NetworkError
  }

  lemma LiveReadIsHeard(w: World, v: nat, srv: Timeline, c: string)
    requires Runs(srv, c) && Inv(w, srv, c) && v in w.flights && v == w.session.version && !w.session.disposed
    ensures !FencedFrom(w, v, srv, c)
  {
    assert GoodRead(w, v, srv);
    var s := Still(w.now);
    forall k: nat ensures RequestInOrder(s, k) {}
    var e := Finish(v, NoAnswers, {}, s, 0);
    assert Reading(NoAnswers, {}, srv, s, w.session.conversation, c);
    assert Settled(w, e) == (Error, 1);
    assert Happens(w, [], e, srv, c) && Publication(w, [], e, srv, c) == Thrown;
  }

  lemma FencedIff(w: World, v: nat, srv: Timeline, c: string)
    requires Runs(srv, c) && Inv(w, srv, c) && v in w.flights
    ensures FencedFrom(w, v, srv, c) <==> Fenced(w.session, v)
  {
    assert GoodRead(w, v, srv);
    if Fenced(w.session, v) {
      forall events, e | Happens(w, events, e, srv, c) && e.Finish? && e.version == v
        ensures Publication(w, events, e, srv, c) == Nothing
      {
        StaysFenced(w, events, v, srv, c);
      }
    } else {
      LiveReadIsHeard(w, v, srv, c);
    }
  }

  /**
    Of all events exactly a sync, a disposal and an append that found a history fence off the read
    in flight for good; an append that returned nothing does not.
   */
  lemma ReadFencedIff(w: World, e: Event, v: nat, srv: Timeline, c: string)
    requires Runs(srv, c) && Inv(w, srv, c) && Enabled(w, e, srv, c) && v in w.flights && !(e.Finish? && e.version == v)
    ensures FencedFrom(Apply(w, e, srv, c).0, v, srv, c) <==>
              || w.session.disposed || v < w.session.version || e.Begin? || e.Dispose?
              || (e.Append? && Apply(w, e, srv, c).1.Shown?)
  {
    assert GoodRead(w, v, srv);
    StepKeeps(w, e, srv, c);
    FencedIff(Apply(w, e, srv, c).0, v, srv, c);
  }

  // ---------- a save delivered before the first history ----------

  lemma OneMore(w: World, e: Event, rest: seq<Event>, srv: Timeline, c: string)
    requires Enabled(w, e, srv, c) && Possible(Apply(w, e, srv, c).0, rest, srv, c)
    ensures Possible(w, [e] + rest, srv, c)
    ensures After(w, [e] + rest, srv, c) == After(Apply(w, e, srv, c).0, rest, srv, c)
  {
    assert ([e] + rest)[1..] == rest;
  }

  const BLANK := Server(1, [], {}, 0)
  const EARLY := [Begin(false), Wait(1), Append(FIRST, 1)]

  function EarlyTimeline(t: nat): Server {
    if t == 0 then BLANK else HELD
  }

  lemma EarlyTimelineRuns()
    ensures Runs(EarlyTimeline, "room")
  {
    assert AppendStep(BLANK, HELD) by { assert HELD.messages[..0] == BLANK.messages; }
    forall t: nat ensures StepAt(EarlyTimeline, t) {}
  }

  const EARLY_WORLD := World(1, Session("room", None, 1, false), map[1 := Read(None, 0)], {FIRST.id}, {FIRST.id}, 0)

  lemma EarlyRun()
    ensures Possible(NewWorld("room", 0), EARLY, EarlyTimeline, "room")
    ensures After(NewWorld("room", 0), EARLY, EarlyTimeline, "room") == EARLY_WORLD
  {
    var srv, c := EarlyTimeline, "room";
    var w0 := NewWorld(c, 0);
    var w1 := Apply(w0, Begin(false), srv, c).0;
    var w2 := Apply(w1, Wait(1), srv, c).0;
    assert FIRST in srv(1).messages;
    OneMore(w2, Append(FIRST, 1), [], srv, c);
    OneMore(w1, Wait(1), [Append(FIRST, 1)], srv, c);
    OneMore(w0, Begin(false), [Wait(1), Append(FIRST, 1)], srv, c);
    assert EARLY == [Begin(false)] + [Wait(1), Append(FIRST, 1)];
  }

  lemma BlankIsRead()
    ensures Runs(EarlyTimeline, "room") && Reading(Frozen(BLANK), {}, EarlyTimeline, Still(0), "room", "room")
    ensures ReadConversationSpec(Frozen(BLANK), {}, 0, "room", None) == (Done(History("room", [], Some(1), None)), 1)
  {
    EarlyTimelineRuns();
    forall k: nat ensures RequestInOrder(Still(0), k) {}
    assert PageOf(1, [], None) == Page([], None, Some(1), NoRow);
    assert ReadFrom(Frozen(BLANK), {}, "room", false, 0, Start("room", None)) == (Done(History("room", [], Some(1), None)), 1);
  }

  /**
    The first read is on its way when a save is confirmed. Append has no history yet and returns
    nothing, the read goes on to publish what it saw before, and the save is missing.
   */
  lemma EarlySaveIsMissed()
    ensures Runs(EarlyTimeline, "room")
    ensures var e := Finish(1, Frozen(BLANK), {}, Still(0), 0);
            var w0 := NewWorld("room", 0);
            && Happens(w0, EARLY, e, EarlyTimeline, "room")
            && var w := After(w0, EARLY, EarlyTimeline, "room");
               && w.saves == {FIRST.id} && w.now == 1 && FIRST in EarlyTimeline(1).messages
               && Publication(w0, EARLY, e, EarlyTimeline, "room") == Shown(History("room", [], Some(1), None))
  {
    EarlyRun();
    BlankIsRead();
    assert FIRST in EarlyTimeline(1).messages;
  }

  // ---------- a late append ----------

  const LATE := Message("b", "room", "user", "late", 2, 1)

  const BOTH := [FIRST, LATE]
  const LONGER := Server(1, BOTH, {"a", "b"}, 2)
  const NEWER := Server(2, [FIRST], {"a", "b"}, 2)
  const REREAD := History("room", [FIRST], Some(2), Some(Cursor(1)))
  const STALE := History("room", BOTH, Some(2), Some(Cursor(1)))

  /** The server holds one message, takes the save, and is rewound. */
  function LateTimeline(t: nat): Server {
    if t == 0 then HELD else if t == 1 then LONGER else NEWER
  }

  function ReadNewer(version: nat): Event {
    Finish(version, Frozen(NEWER), {}, Still(2), 0)
  }

  /** The first read sees the rewound list; then the answer to the save, made before, arrives. */
  const LATE_RUN := [Begin(false), Wait(2), ReadNewer(1), Append(LATE, 1), Begin(false)]

  lemma LateTimelineRuns()
    ensures Runs(LateTimeline, "room") && LATE in LateTimeline(1).messages
  {
    assert Valid(HELD);
    assert AppendStep(HELD, LONGER) by { assert LONGER.messages[..1] == HELD.messages; }
    assert RewindStep(LONGER, NEWER) by { assert LONGER.messages[..1] == NEWER.messages; }
    forall t: nat ensures StepAt(LateTimeline, t) {}
    assert BOTH[1] == LATE;
  }

  lemma TwoRowLists()
    ensures FromList(BOTH) == BOTH && Sorted(BOTH) == BOTH && AppendedHistory(REREAD, LATE) == STALE
  {
    OneRowLists();
    assert BOTH[..1] == [FIRST] && [FIRST][1..] == [];
    assert Put([], LATE) == [LATE] && Put([FIRST], LATE) == BOTH;
    assert Insert(LATE, []) == [LATE] && Insert(LATE, [FIRST]) == BOTH;
    assert Get([FIRST], LATE.id) == None;
  }

  lemma NewerPages()
    ensures PageOf(2, [FIRST], None) == Page([FIRST], None, Some(2), At(Cursor(1)))
    ensures PageOf(2, [FIRST], Some(Cursor(1))) == Page([], None, Some(2), At(Cursor(1)))
    ensures FiniteCursors(Frozen(NEWER), {})
  {
    assert [FIRST][1..] == [] && ChatServer.After([FIRST][1..], 0) == [] && ChatServer.After([FIRST][1..], 1) == [];
    assert ChatServer.After([FIRST], 1) == [];
    assert ChatServer.After([FIRST], 0) == [FIRST] + [];
    forall k: nat, x: Option<Cursor> ensures Frozen(NEWER)(k, x).page.next.None? {
      var p := CursorPosition(x);
      assert ChatServer.After([FIRST][1..], p) == [];
      assert |ChatServer.After([FIRST], p)| <= 1;
    }
  }

  lemma NewerIsReading()
    ensures Reading(Frozen(NEWER), {}, LateTimeline, Still(2), "room", "room")
  {
    LateTimelineRuns();
    NewerPages();
    forall k: nat ensures RequestInOrder(Still(2), k) {}
  }

  lemma FirstIsAbsorbed()
    ensures AbsorbItems("room", false, [], [FIRST]) == Kept([FIRST])
  {
    assert [FIRST][1..] == [];
    assert PutNewer([], FIRST) == [FIRST];
  }

  lemma NewerIsRead()
    ensures FiniteCursors(Frozen(NEWER), {})
    ensures ReadConversationSpec(Frozen(NEWER), {}, 0, "room", None) == (Done(REREAD), 1)
  {
    NewerPages();
    OneRowLists();
    NewerAbsorbed();
    assert ReadFrom(Frozen(NEWER), {}, "room", false, 0, Start("room", None)) == (Done(REREAD), 1);
  }

  lemma LastPageAbsorbed(id: string, st: Loop, page: Page, ms: seq<Message>)
    requires st.revision.Unset? && HasCheckpoint(page) && page.next.None? && page.sync.At?
    requires AbsorbItems(id, false, st.messages, page.items) == Kept(ms)
    ensures AbsorbPage(id, false, st, page)
         == Continue(Loop(ms, None, Known(page.revision.value), Some(page.sync.cursor), st.seen))
  {}

  lemma NewerAbsorbed()
    ensures AbsorbPage("room", false, Start("room", None), PageOf(2, [FIRST], None))
         == Continue(Loop([FIRST], None, Known(2), Some(Cursor(1)), {}))
  {
    NewerPages();
    FirstIsAbsorbed();
    LastPageAbsorbed("room", Start("room", None), Page([FIRST], None, Some(2), At(Cursor(1))), [FIRST]);
  }

  /** Reading on from the cache with the late save: the checkpoint lies behind it, so it stays. */
  lemma StaleIsRead()
    ensures FiniteCursors(Frozen(NEWER), {})
    ensures ReadConversationSpec(Frozen(NEWER), {}, 0, "room", Some(STALE)) == (Done(STALE), 1)
  {
    NewerPages();
    TwoRowLists();
    var st := Start("room", Some(STALE));
    assert AbsorbPage("room", true, st, PageOf(2, [FIRST], Some(Cursor(1))))
        == Continue(Loop(BOTH, None, Known(2), Some(Cursor(1)), {Cursor(1)}));
    assert ReadFrom(Frozen(NEWER), {}, "room", true, 0, st) == (Done(STALE), 1);
  }

  const FRESH_WORLD := World(2, Session("room", Some(REREAD), 1, false), map[], {}, {}, 2)
  const STALE_WORLD := World(2, Session("room", Some(STALE), 2, false), map[], {LATE.id}, {}, 2)
  const READING_WORLD := World(2, Session("room", Some(STALE), 3, false), map[3 := Read(Some(STALE), 2)], {LATE.id}, {}, 2)

  const WAITED_WORLD := World(2, Session("room", None, 1, false), map[1 := Read(None, 0)], {}, {}, 0)

  lemma FirstReadStep()
    ensures Enabled(WAITED_WORLD, ReadNewer(1), LateTimeline, "room")
    ensures Apply(WAITED_WORLD, ReadNewer(1), LateTimeline, "room").0 == FRESH_WORLD
  {
    NewerIsReading();
    NewerIsRead();
    assert WAITED_WORLD.flights - {1} == map[];
  }

  lemma WaitedStep()
    ensures Possible(NewWorld("room", 0), [Begin(false), Wait(2)], LateTimeline, "room")
    ensures After(NewWorld("room", 0), [Begin(false), Wait(2)], LateTimeline, "room") == WAITED_WORLD
  {
    var w0 := NewWorld("room", 0);
    var w1 := Apply(w0, Begin(false), LateTimeline, "room").0;
    assert Apply(w1, Wait(2), LateTimeline, "room").0 == WAITED_WORLD;
    OneMore(w1, Wait(2), [], LateTimeline, "room");
    OneMore(w0, Begin(false), [Wait(2)], LateTimeline, "room");
    assert [Begin(false), Wait(2)] == [Begin(false)] + [Wait(2)];
  }

  lemma ReadStep()
    ensures Possible(WAITED_WORLD, [ReadNewer(1)], LateTimeline, "room")
    ensures After(WAITED_WORLD, [ReadNewer(1)], LateTimeline, "room") == FRESH_WORLD
  {
    FirstReadStep();
    OneMore(WAITED_WORLD, ReadNewer(1), [], LateTimeline, "room");
  }

  lemma LateRunStart()
    ensures Possible(NewWorld("room", 0), LATE_RUN[..3], LateTimeline, "room")
    ensures After(NewWorld("room", 0), LATE_RUN[..3], LateTimeline, "room") == FRESH_WORLD
  {
    WaitedStep();
    ReadStep();
    Joined(NewWorld("room", 0), [Begin(false), Wait(2)], [ReadNewer(1)], LateTimeline, "room");
    assert LATE_RUN[..3] == [Begin(false), Wait(2)] + [ReadNewer(1)];
  }

  lemma LateSaveIsGone()
    ensures LATE !in NEWER.messages
  {
    assert [FIRST][0] == FIRST;
  }

  lemma AppendedTo(w: World, m: Message, h: History)
    requires Accepts(w.session, m) && AppendedHistory(w.session.history.value, m) == h
    ensures AfterAppend(w, m) == w.(session := w.session.(version := w.session.version + 1, history := Some(h)),
                                    saves := w.saves + {m.id}, missed := w.missed - {m.id})
  {}

  lemma LateAppended()
    ensures AfterAppend(FRESH_WORLD, LATE) == STALE_WORLD && Accepts(FRESH_WORLD.session, LATE)
  {
    TwoRowLists();
    assert LATE.conversation == FRESH_WORLD.session.conversation;
    AppendedTo(FRESH_WORLD, LATE, STALE);
  }

  lemma LateAppendStep()
    ensures Enabled(FRESH_WORLD, Append(LATE, 1), LateTimeline, "room")
    ensures Apply(FRESH_WORLD, Append(LATE, 1), LateTimeline, "room").0 == STALE_WORLD
    ensures !AppendsTimely(FRESH_WORLD, Append(LATE, 1), LateTimeline)
  {
    LateTimelineRuns();
    LateAppended();
    LateSaveIsGone();
  }

  lemma LateRunEnd()
    ensures Possible(FRESH_WORLD, LATE_RUN[3..], LateTimeline, "room")
    ensures After(FRESH_WORLD, LATE_RUN[3..], LateTimeline, "room") == READING_WORLD
  {
    LateAppendStep();
    assert Apply(STALE_WORLD, Begin(false), LateTimeline, "room").0 == READING_WORLD;
    OneMore(STALE_WORLD, Begin(false), [], LateTimeline, "room");
    OneMore(FRESH_WORLD, Append(LATE, 1), [Begin(false)], LateTimeline, "room");
    assert LATE_RUN[3..] == [Append(LATE, 1)] + [Begin(false)];
  }

  lemma {:induction false} Joined(w: World, first: seq<Event>, rest: seq<Event>, srv: Timeline, c: string)
    requires Possible(w, first, srv, c) && Possible(After(w, first, srv, c), rest, srv, c)
    ensures Possible(w, first + rest, srv, c)
    ensures After(w, first + rest, srv, c) == After(After(w, first, srv, c), rest, srv, c)
    decreases first
  {
    if first == [] {
      assert first + rest == rest;
    } else {
      Joined(Apply(w, first[0], srv, c).0, first[1..], rest, srv, c);
      assert (first + rest)[1..] == first[1..] + rest;
    }
  }

  /**
    A save confirmed before a rewind dropped it, delivered after the first read already saw the
    newer revision: it is not timely, and the next incremental read publishes a row the server
    no longer holds.
   */
  lemma LateAppendSurvives()
    ensures Runs(LateTimeline, "room") && LATE in LateTimeline(1).messages
    ensures var w0 := NewWorld("room", 0);
            && Happens(w0, LATE_RUN, ReadNewer(3), LateTimeline, "room")
            && Publication(w0, LATE_RUN, ReadNewer(3), LateTimeline, "room") == Shown(STALE)
            && After(w0, LATE_RUN, LateTimeline, "room").now == 2
    ensures LATE in STALE.messages && LATE !in LateTimeline(2).messages
  {
    LateTimelineRuns();
    LateRunStart();
    LateRunEnd();
    Joined(NewWorld("room", 0), LATE_RUN[..3], LATE_RUN[3..], LateTimeline, "room");
    assert LATE_RUN == LATE_RUN[..3] + LATE_RUN[3..];
    NewerIsReading();
    StaleIsRead();
    assert BOTH[1] == LATE;
  }

  // ---------- exactly which incremental reads are exact ----------

  lemma FlightReadsOn(w: World, e: Event, srv: Timeline, c: string)
    requires Runs(srv, c) && GoodReads(w, srv) && e.Finish? && Enabled(w, e, srv, c) && GoesOn(w, e)
    ensures ReadsOn(e.feed, e.cursors, srv, e.schedule, w.session.conversation, c, e.first, w.flights[e.version].previous.value)
  {
    assert GoodRead(w, e.version, srv);
    var r := w.flights[e.version];
    CacheLater(srv, c, r.started, e.schedule.tr(e.first), r.previous.value);
    GenuineLater(srv, r.started, e.schedule.tr(e.first), r.previous.value.messages);
  }

  /** The read goes on from a cache that knows its revision, and does not restart. */
  ghost predicate GoesOn(w: World, e: Event)
    requires e.Finish? && e.version in w.flights && FiniteCursors(e.feed, e.cursors)
  {
    && Incremental(w.session.conversation, w.flights[e.version].previous)
    && ReadHistorySpec(e.feed, e.cursors, e.first, w.session.conversation, w.flights[e.version].previous).0.Done?
  }

  lemma FlightExactIff(w: World, e: Event, srv: Timeline, c: string)
    requires Runs(srv, c) && GoodReads(w, srv) && e.Finish? && Enabled(w, e, srv, c) && GoesOn(w, e)
    ensures ExactIff(Settled(w, e), e.schedule, e.first, w.flights[e.version].previous.value, srv)
  {
    FlightReadsOn(w, e, srv, c);
    IncrementalExactIff(e.feed, e.cursors, srv, e.schedule, w.session.conversation, c, e.first, w.flights[e.version].previous.value);
  }

  /**
    In every run: a read that goes on from the cache without a restart publishes the server's own
    list if and only if its last page saw one revision and the cache it read on from held no
    dropped row.
   */
  lemma IncrementalPublicationIff(id: string, start: nat, events: seq<Event>, e: Event, srv: Timeline, c: string)
    requires Runs(srv, c) && ConversationKey(c) == ConversationKey(id)
    requires Happens(NewWorld(id, start), events, e, srv, c) && e.Finish?
    requires GoesOn(After(NewWorld(id, start), events, srv, c), e)
    ensures var w := After(NewWorld(id, start), events, srv, c);
            ExactIff(Settled(w, e), e.schedule, e.first, w.flights[e.version].previous.value, srv)
  {
    var w0 := NewWorld(id, start);
    assert Inv(w0, srv, c);
    RunKeeps(w0, events, srv, c);
    FlightExactIff(After(w0, events, srv, c), e, srv, c);
  }
}
