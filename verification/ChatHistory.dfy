/**
  The client's cached conversation: one read of the history, page by page, and the restart
  after an observed destructive change.
 */
module ChatHistory {
  import opened Wrappers
  import opened ChatServer

  datatype History = History(conversation: string, messages: seq<Message>,
                             revision: Option<int>, cursor: Option<Cursor>)

  // ---------- conversation keys ----------

  function Lower(s: string): string {
    if s == [] then []
    else [if 'A' <= s[0] <= 'Z' then (s[0] as int + 32) as char else s[0]] + Lower(s[1..])
  }

  function Without(s: string, dropped: string): string {
    if s == [] then []
    else (if s[0] in dropped then [] else [s[0]]) + Without(s[1..], dropped)
  }

  /** Route ids may spell a UUID differently from the canonical API value. */
  function ConversationKey(id: string): string {
    var lower := Lower(id);
    var prefix := "urn:uuid:";
    Without(if prefix <= lower then lower[|prefix|..] else lower, "{}-")
  }

  // ---------- an insertion-ordered Map keyed by message id ----------

  function Get(ms: seq<Message>, id: string): Option<Message> {
    if ms == [] then None else if ms[0].id == id then Some(ms[0]) else Get(ms[1..], id)
  }

  function Put(ms: seq<Message>, m: Message): seq<Message> {
    if ms == [] then [m]
    else if ms[0].id == m.id then [m] + ms[1..]
    else [ms[0]] + Put(ms[1..], m)
  }

  function FromList(ms: seq<Message>): seq<Message> {
    if ms == [] then [] else Put(FromList(ms[..|ms| - 1]), ms[|ms| - 1])
  }

  /** Keep the row with the higher revision, the incoming one on a tie. */
  function PutNewer(ms: seq<Message>, m: Message): seq<Message> {
    var saved := Get(ms, m.id);
    if saved.None? || saved.value.revision <= m.revision then Put(ms, m) else ms
  }

  // ---------- the stable sort by position ----------

  function Insert(m: Message, ms: seq<Message>): seq<Message> {
    if ms == [] || m.position < ms[0].position then [m] + ms
    else [ms[0]] + Insert(m, ms[1..])
  }

  function Sorted(ms: seq<Message>): seq<Message> {
    if ms == [] then [] else Insert(ms[|ms| - 1], Sorted(ms[..|ms| - 1]))
  }

  function MergeMessages(previous: seq<Message>, m: Message): seq<Message> {
    Sorted(PutNewer(FromList(previous), m))
  }

  // ---------- one page ----------

  /** The loop's `revision`: undefined, null, or a number. */
  datatype Revision = Unset | Legacy | Known(number: int)

  datatype Loop = Loop(messages: seq<Message>, cursor: Option<Cursor>, revision: Revision,
                       checkpoint: Option<Cursor>, seen: set<Cursor>)

  datatype Absorbed = Kept(messages: seq<Message>) | Foreign | Conflict

  function AbsorbItem(id: string, incremental: bool, ms: seq<Message>, m: Message): Absorbed {
    var saved := Get(ms, m.id);
    if ConversationKey(m.conversation) != ConversationKey(id) then Foreign
    else if incremental && saved.Some? && (saved.value.revision != m.revision
              || saved.value.content != m.content || saved.value.position != m.position) then Conflict
    else Kept(PutNewer(ms, m))
  }

  function AbsorbItems(id: string, incremental: bool, ms: seq<Message>, items: seq<Message>): Absorbed
    decreases items
  {
    if items == [] then Kept(ms)
    else
      var first := AbsorbItem(id, incremental, ms, items[0]);
      if first.Kept? then AbsorbItems(id, incremental, first.messages, items[1..]) else first
  }

  datatype Turn = Continue(loop: Loop) | Changed | Failed

  predicate HasCheckpoint(page: Page) {
    page.revision.Some? && 0 < page.revision.value <= MAX_SAFE_INTEGER && !page.sync.Missing?
  }

  function PageRevision(page: Page): Revision {
    if HasCheckpoint(page) then Known(page.revision.value) else Legacy
  }

  function Checkpoint(page: Page, before: Option<Cursor>): Option<Cursor> {
    if !HasCheckpoint(page) then before
    else if page.sync.At? then Some(page.sync.cursor) else None
  }

  function AbsorbPage(id: string, incremental: bool, st: Loop, page: Page): Turn {
    if (incremental && !HasCheckpoint(page)) || (st.revision != Unset && st.revision != PageRevision(page)) then Changed
    else
      match AbsorbItems(id, incremental, st.messages, page.items)
      case Foreign => Failed
      case Conflict => Changed
      case Kept(ms) =>
        var checkpoint := Checkpoint(page, st.checkpoint);
        if HasCheckpoint(page) && page.items != [] && checkpoint.None? then Changed
        else if page.next.Some? && page.next.value in st.seen then Failed
        else Continue(Loop(ms, page.next, PageRevision(page), checkpoint,
                           if page.next.Some? then st.seen + {page.next.value} else st.seen))
  }

  // ---------- one read of the whole history ----------

  datatype Reply = Answer(page: Page) | NetworkError

  /** What the k-th request gets back when it asks for the page behind a cursor. */
  type Feed = (nat, Option<Cursor>) -> Reply

  ghost predicate FiniteCursors(feed: Feed, cursors: set<Cursor>) {
    forall k: nat, c: Option<Cursor> {:trigger feed(k, c)} ::
      feed(k, c).Answer? && feed(k, c).page.next.Some? ==> feed(k, c).page.next.value in cursors
  }

  datatype Outcome = Done(history: History) | HistoryChanged | Error

  predicate Incremental(id: string, previous: Option<History>) {
    && previous.Some? && previous.value.revision.Some?
    && ConversationKey(previous.value.conversation) == ConversationKey(id)
  }

  function Start(id: string, previous: Option<History>): Loop {
    if Incremental(id, previous) then
      var h := previous.value;
      Loop(FromList(h.messages), h.cursor, Known(h.revision.value), h.cursor,
           if h.cursor.Some? then {h.cursor.value} else {})
    else Loop([], None, Unset, None, {})
  }

  function Publish(id: string, st: Loop): History {
    History(id, Sorted(st.messages),
            if st.revision.Known? then Some(st.revision.number) else None,
            if st.revision.Known? then st.checkpoint else None)
  }

  /** The outcome, and the index of the first request the read did not make. */
  ghost function ReadFrom(feed: Feed, cursors: set<Cursor>, id: string, incremental: bool, k: nat, st: Loop)
    : (r: (Outcome, nat))
    requires FiniteCursors(feed, cursors)
    ensures r.1 > k
    decreases cursors - st.seen
  {
    match feed(k, st.cursor)
    case NetworkError => (Error, k + 1)
    case Answer(page) =>
      match AbsorbPage(id, incremental, st, page)
      case Changed => (HistoryChanged, k + 1)
      case Failed => (Error, k + 1)
      case Continue(st') =>
        if st'.cursor.None? then (Done(Publish(id, st')), k + 1)
        else
          assert st'.cursor.value in cursors - st.seen && st'.cursor.value !in cursors - st'.seen;
          ReadFrom(feed, cursors, id, incremental, k + 1, st')
  }

  ghost function ReadHistorySpec(feed: Feed, cursors: set<Cursor>, k: nat, id: string, previous: Option<History>)
    : (Outcome, nat)
    requires FiniteCursors(feed, cursors)
  {
    ReadFrom(feed, cursors, id, Incremental(id, previous), k, Start(id, previous))
  }

  /** A detected change restarts the read once, from nothing. */
  ghost function ReadConversationSpec(feed: Feed, cursors: set<Cursor>, k: nat, id: string, previous: Option<History>)
    : (Outcome, nat)
    requires FiniteCursors(feed, cursors)
  {
    var (first, k') := ReadHistorySpec(feed, cursors, k, id, previous);
    if first.HistoryChanged? then ReadHistorySpec(feed, cursors, k', id, None) else (first, k')
  }

  /** The inner loop over one page's rows. */
  method AbsorbEach(id: string, incremental: bool, ms: seq<Message>, items: seq<Message>) returns (absorbed: Absorbed)
    ensures absorbed == AbsorbItems(id, incremental, ms, items)
  {
    var messages := ms;
    var i := 0;
    while i < |items|
      invariant 0 <= i <= |items|
      invariant AbsorbItems(id, incremental, ms, items) == AbsorbItems(id, incremental, messages, items[i..])
    {
      var message := items[i];
      assert items[i..][1..] == items[i + 1..];
      if ConversationKey(message.conversation) != ConversationKey(id) { return Foreign; }
      var saved := Get(messages, message.id);
      if incremental && saved.Some? && (saved.value.revision != message.revision
           || saved.value.content != message.content || saved.value.position != message.position) {
        return Conflict;
      }
      if saved.None? || saved.value.revision <= message.revision {
        messages := Put(messages, message);
      }
      i := i + 1;
    }
    return Kept(messages);
  }

  method ReadHistory(feed: Feed, ghost cursors: set<Cursor>, k: nat, id: string, previous: Option<History>)
    returns (outcome: Outcome, k': nat)
    requires FiniteCursors(feed, cursors)
    ensures (outcome, k') == ReadHistorySpec(feed, cursors, k, id, previous)
  {
    var incremental := Incremental(id, previous);
    var messages := if incremental then FromList(previous.value.messages) else [];
    var cursor := if incremental then previous.value.cursor else None;
    var revision := if incremental then Known(previous.value.revision.value) else Unset;
    var checkpoint := cursor;
    var seen := if cursor.Some? then {cursor.value} else {};
    var reading := true;
    k' := k;
    while reading
      invariant reading ==>
        ReadHistorySpec(feed, cursors, k, id, previous)
        == ReadFrom(feed, cursors, id, incremental, k', Loop(messages, cursor, revision, checkpoint, seen))
      invariant !reading ==>
        ReadHistorySpec(feed, cursors, k, id, previous)
        == (Done(Publish(id, Loop(messages, cursor, revision, checkpoint, seen))), k')
      decreases reading, cursors - seen
    {
      var reply := feed(k', cursor);
      k' := k' + 1;
      if reply.NetworkError? { return Error, k'; }
      var page := reply.page;
      var hasCheckpoint := HasCheckpoint(page);
      var pageRevision := PageRevision(page);
      if (incremental && !hasCheckpoint) || (revision != Unset && revision != pageRevision) {
        return HistoryChanged, k';
      }
      revision := pageRevision;
      var absorbed := AbsorbEach(id, incremental, messages, page.items);
      if absorbed.Foreign? { return Error, k'; }
      if absorbed.Conflict? { return HistoryChanged, k'; }
      messages := absorbed.messages;
      if hasCheckpoint {
        checkpoint := if page.sync.At? then Some(page.sync.cursor) else None;
        if page.items != [] && checkpoint.None? { return HistoryChanged, k'; }
      }
      cursor := page.next;
      if cursor.Some? && cursor.value in seen { return Error, k'; }
      if cursor.Some? {
        assert cursor.value in cursors - seen;
        seen := seen + {cursor.value};
        assert cursor.value !in cursors - seen;
      }
      reading := cursor.Some?;
    }
    outcome := Done(Publish(id, Loop(messages, cursor, revision, checkpoint, seen)));
  }

  method ReadConversationHistory(feed: Feed, ghost cursors: set<Cursor>, k: nat, id: string, previous: Option<History>)
    returns (outcome: Outcome, k': nat)
    requires FiniteCursors(feed, cursors)
    ensures (outcome, k') == ReadConversationSpec(feed, cursors, k, id, previous)
  {
    outcome, k' := ReadHistory(feed, cursors, k, id, previous);
    if outcome.HistoryChanged? {
      outcome, k' := ReadHistory(feed, cursors, k', id, None);
    }
  }
}
