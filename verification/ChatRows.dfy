/**
  What a read makes of any replies whatever, honest or not: which pages it follows, when it
  succeeds, and which row it keeps of each id.

  A read follows pages as long as they name a next cursor. Whether it succeeds depends on those
  pages alone: all rows of the room, one revision, checkpoints where there are rows, no way back;
  and for a read that goes on from a cache, the cache's revision and no changed row. The rest of
  the file is about what a read is made of: the stable sort, the key under which two spellings of
  one id meet, and the length of a server page.
 */
module ChatRows {
  import opened Wrappers
  import opened ChatServer
  import opened ChatHistory
  import opened ChatAgreement

  // ---------- the newest row of each id ----------

  /** No row of the same id has a higher revision, and no later one the same revision. */
  ghost predicate NewestAt(rows: seq<Message>, i: int)
    requires 0 <= i < |rows|
  {
    forall j :: 0 <= j < |rows| && rows[j].id == rows[i].id ==>
      rows[j].revision < rows[i].revision || (rows[j].revision == rows[i].revision && j <= i)
  }

  ghost predicate Newest(rows: seq<Message>, m: Message) {
    exists i :: 0 <= i < |rows| && rows[i] == m && NewestAt(rows, i)
  }

  ghost predicate KeepsNewest(ms: seq<Message>, rows: seq<Message>) {
    && UniqueIds(ms) && Ids(ms) == Ids(rows)
    && forall m :: m in ms <==> Newest(rows, m)
  }

  lemma NewestOfUnique(ms: seq<Message>)
    requires UniqueIds(ms)
    ensures KeepsNewest(ms, ms)
  {
    forall m ensures m in ms <==> Newest(ms, m) {
      if m in ms {
        var i :| 0 <= i < |ms| && ms[i] == m;
        assert NewestAt(ms, i);
      }
    }
  }

  lemma OlderStays(rows: seq<Message>, x: Message, m: Message)
    requires m.id != x.id
    ensures Newest(rows, m) <==> Newest(rows + [x], m)
  {
    var all := rows + [x];
    if Newest(rows, m) {
      var i :| 0 <= i < |rows| && rows[i] == m && NewestAt(rows, i);
      assert all[i] == m && NewestAt(all, i);
    }
    if Newest(all, m) {
      var i :| 0 <= i < |all| && all[i] == m && NewestAt(all, i);
      forall j | 0 <= j < |rows| && rows[j].id == rows[i].id
        ensures rows[j].revision < rows[i].revision || (rows[j].revision == rows[i].revision && j <= i)
      {
        assert all[j] == rows[j];
      }
      assert NewestAt(rows, i);
    }
  }

  /** Between the kept row of this id and the incoming one, the higher revision or the later wins. */
  lemma OfTwo(rows: seq<Message>, x: Message, kept: Message, m: Message)
    requires Newest(rows, kept) && kept.id == x.id && m.id == x.id
    ensures Newest(rows + [x], m) <==> m == if kept.revision <= x.revision then x else kept
  {
    var all := rows + [x];
    var i :| 0 <= i < |rows| && rows[i] == kept && NewestAt(rows, i);
    assert all[i] == kept && all[|rows|] == x;
    if kept.revision <= x.revision {
      forall j | 0 <= j < |all| && all[j].id == x.id ensures all[j].revision <= x.revision {
        if j < |rows| { assert all[j] == rows[j]; }
      }
      assert NewestAt(all, |rows|);
    } else {
      assert NewestAt(all, i);
    }
    if Newest(all, m) {
      var k :| 0 <= k < |all| && all[k] == m && NewestAt(all, k);
      assert all[i].id == m.id;
    }
  }

  lemma FirstOfId(rows: seq<Message>, x: Message, m: Message)
    requires x.id !in Ids(rows) && m.id == x.id
    ensures Newest(rows + [x], m) <==> m == x
  {
    var all := rows + [x];
    forall j | 0 <= j < |rows| ensures all[j].id != x.id { assert rows[j].id in Ids(rows); }
    assert NewestAt(all, |rows|);
  }

  lemma PutNewerTakes(ms: seq<Message>, x: Message, m: Message)
    requires UniqueIds(ms)
    ensures m.id != x.id ==> (m in PutNewer(ms, x) <==> m in ms)
    ensures m.id == x.id && x.id !in Ids(ms) ==> (m in PutNewer(ms, x) <==> m == x)
    ensures forall kept :: kept in ms && kept.id == x.id && m.id == x.id ==>
              (m in PutNewer(ms, x) <==> m == if kept.revision <= x.revision then x else kept)
  {
    PutNewerSpec(ms, x);
    PutSpec(ms, x);
    GetSpec(ms, x.id);
    if m in PutNewer(ms, x) && m.id == x.id && m != x { assert m in ms; }
    if Get(ms, x.id).Some? { OneOfId(ms, Get(ms, x.id).value); }
    OneOfId(PutNewer(ms, x), m);
  }

  lemma OneOfId(ms: seq<Message>, m: Message)
    requires UniqueIds(ms)
    ensures m in ms ==> forall y :: y in ms && y.id == m.id ==> y == m
  {}

  lemma PutNewerKeepsNewest(ms: seq<Message>, rows: seq<Message>, x: Message)
    requires KeepsNewest(ms, rows)
    ensures KeepsNewest(PutNewer(ms, x), rows + [x])
  {
    PutNewerSpec(ms, x);
    IdsAppend(rows, x);
    forall m ensures m in PutNewer(ms, x) <==> Newest(rows + [x], m) {
      PutNewerTakes(ms, x, m);
      if m.id != x.id { OlderStays(rows, x, m); }
      else if x.id !in Ids(ms) { FirstOfId(rows, x, m); }
      else {
        var kept :| kept in ms && kept.id == x.id;
        OfTwo(rows, x, kept, m);
      }
    }
  }

  ghost predicate AllBelong(id: string, items: seq<Message>) {
    forall m :: m in items ==> ConversationKey(m.conversation) == ConversationKey(id)
  }

  /** Rows of one id do not differ in what the client compares. */
  ghost predicate Consistent(rows: seq<Message>) {
    forall i, j :: 0 <= i < j < |rows| && rows[i].id == rows[j].id ==> SameRowAs(rows[i], rows[j])
  }

  predicate SameRowAs(x: Message, y: Message) {
    x.revision == y.revision && x.content == y.content && x.position == y.position
  }

  lemma ConsistentWith(ms: seq<Message>, rows: seq<Message>, x: Message)
    requires KeepsNewest(ms, rows) && Consistent(rows)
    ensures Consistent(rows + [x]) <==> (Get(ms, x.id).Some? ==> SameRowAs(Get(ms, x.id).value, x))
  {
    GetSpec(ms, x.id);
    var all := rows + [x];
    if Get(ms, x.id).Some? {
      var kept := Get(ms, x.id).value;
      assert Newest(rows, kept);
      var i :| 0 <= i < |rows| && rows[i] == kept && NewestAt(rows, i);
      assert all[i] == kept && all[|rows|] == x;
      if SameRowAs(kept, x) {
        forall j | 0 <= j < |rows| && rows[j].id == x.id ensures SameRowAs(rows[j], x) {}
      }
    } else {
      forall j | 0 <= j < |rows| ensures rows[j].id != x.id { assert rows[j].id in Ids(rows); }
    }
  }

  lemma {:induction false} ConsistentBefore(rows: seq<Message>, more: seq<Message>)
    requires Consistent(rows + more)
    ensures Consistent(rows)
  {
    forall i, j | 0 <= i < j < |rows| && rows[i].id == rows[j].id ensures SameRowAs(rows[i], rows[j]) {
      assert (rows + more)[i] == rows[i] && (rows + more)[j] == rows[j];
    }
  }

  /**
    The rows of a page are taken unless one is of another room or, when the read goes on from a
    cache, one differs from a row of its id that is already known.
   */
  lemma {:induction false} ItemsTakenIff(id: string, incremental: bool, ms: seq<Message>, rows: seq<Message>, items: seq<Message>)
    requires KeepsNewest(ms, rows) && (incremental ==> Consistent(rows))
    ensures var a := AbsorbItems(id, incremental, ms, items);
            && (a.Kept? <==> AllBelong(id, items) && (incremental ==> Consistent(rows + items)))
            && (!a.Kept? && AllBelong(id, items) ==> a.Conflict?)
            && (!a.Kept? && (incremental ==> Consistent(rows + items)) ==> a.Foreign?)
            && (a.Kept? ==> KeepsNewest(a.messages, rows + items))
    decreases items
  {
    if items == [] {
      assert rows + items == rows;
    } else {
      var x := items[0];
      assert items == [x] + items[1..];
      assert forall m :: m in items <==> m == x || m in items[1..];
      assert rows + [x] + items[1..] == rows + items;
      if incremental {
        ConsistentWith(ms, rows, x);
        if Consistent(rows + items) { ConsistentBefore(rows + [x], items[1..]); }
      }
      if AbsorbItem(id, incremental, ms, x).Kept? {
        PutNewerKeepsNewest(ms, rows, x);
        ItemsTakenIff(id, incremental, PutNewer(ms, x), rows + [x], items[1..]);
      }
    }
  }

  // ---------- the pages a read follows ----------

  /** Answers to consecutive requests, each behind the cursor the page before it gave. */
  ghost predicate Follows(feed: Feed, k: nat, c: Option<Cursor>, pages: seq<Page>)
    decreases |pages|
  {
    && pages != [] && feed(k, c) == Answer(pages[0])
    && if |pages| == 1 then pages[0].next.None? else pages[0].next.Some? && Follows(feed, k + 1, pages[0].next, pages[1..])
  }

  function Items(pages: seq<Page>): seq<Message> {
    if pages == [] then [] else pages[0].items + Items(pages[1..])
  }

  /** No page points back to a cursor the read has already used. */
  ghost predicate NewCursors(seen: set<Cursor>, pages: seq<Page>) {
    forall i :: 0 <= i < |pages| && pages[i].next.Some? ==>
      pages[i].next.value !in seen && forall j :: 0 <= j < i ==> pages[j].next != pages[i].next
  }

  predicate HasItsCheckpoint(page: Page) {
    page.revision.Some? && 0 < page.revision.value <= MAX_SAFE_INTEGER && page.sync.NoRow? ==> page.items == []
  }

  ghost predicate AllCheckpointed(pages: seq<Page>) {
    forall p :: p in pages ==> HasItsCheckpoint(p)
  }

  ghost predicate OneRevision(pages: seq<Page>, r: Revision) {
    forall p :: p in pages ==> PageRevision(p) == r
  }

  /** A read that ends well has followed the pages to the last one. */
  lemma {:induction false} ReadFollows(feed: Feed, cursors: set<Cursor>, id: string, incremental: bool, k: nat, st: Loop)
    returns (pages: seq<Page>)
    requires FiniteCursors(feed, cursors) && ReadFrom(feed, cursors, id, incremental, k, st).0.Done?
    ensures Follows(feed, k, st.cursor, pages) && ReadFrom(feed, cursors, id, incremental, k, st).1 == k + |pages|
    decreases cursors - st.seen
  {
    var page := feed(k, st.cursor).page;
    var st' := AbsorbPage(id, incremental, st, page).loop;
    if st'.cursor.None? {
      pages := [page];
    } else {
      assert st'.cursor.value in cursors - st.seen && st'.cursor.value !in cursors - st'.seen;
      var rest := ReadFollows(feed, cursors, id, incremental, k + 1, st');
      pages := [page] + rest;
      assert pages[1..] == rest;
    }
  }

  ghost predicate Acceptable(id: string, incremental: bool, st: Loop, pages: seq<Page>, rows: seq<Message>, r: Revision) {
    && (st.revision == Unset || st.revision == r) && OneRevision(pages, r)
    && AllBelong(id, Items(pages)) && AllCheckpointed(pages) && NewCursors(st.seen, pages)
    && (incremental ==> Consistent(rows + Items(pages)))
  }

  lemma SplitPages(id: string, st: Loop, pages: seq<Page>, r: Revision)
    requires pages != []
    ensures OneRevision(pages, r) <==> PageRevision(pages[0]) == r && OneRevision(pages[1..], r)
    ensures AllBelong(id, Items(pages)) <==> AllBelong(id, pages[0].items) && AllBelong(id, Items(pages[1..]))
    ensures AllCheckpointed(pages) <==> HasItsCheckpoint(pages[0]) && AllCheckpointed(pages[1..])
  {
    assert pages == [pages[0]] + pages[1..];
    assert forall p :: p in pages <==> p == pages[0] || p in pages[1..];
  }

  lemma SplitCursors(seen: set<Cursor>, pages: seq<Page>)
    requires pages != []
    ensures pages[0].next.None? ==> (NewCursors(seen, pages) <==> NewCursors(seen, pages[1..]))
    ensures pages[0].next.Some? ==>
              (NewCursors(seen, pages) <==>
                 pages[0].next.value !in seen && NewCursors(seen + {pages[0].next.value}, pages[1..]))
  {
    var rest := pages[1..];
    var more := if pages[0].next.Some? then seen + {pages[0].next.value} else seen;
    if NewCursors(seen, pages) {
      forall i | 0 <= i < |rest| && rest[i].next.Some?
        ensures rest[i].next.value !in more && forall j :: 0 <= j < i ==> rest[j].next != rest[i].next
      {
        assert rest[i] == pages[i + 1];
        forall j | 0 <= j < i ensures rest[j].next != rest[i].next { assert rest[j] == pages[j + 1]; }
        assert pages[0].next != pages[i + 1].next;
      }
    }
    if (pages[0].next.Some? ==> pages[0].next.value !in seen) && NewCursors(more, rest) {
      forall i | 0 <= i < |pages| && pages[i].next.Some?
        ensures pages[i].next.value !in seen && forall j :: 0 <= j < i ==> pages[j].next != pages[i].next
      {
        if i > 0 {
          assert pages[i] == rest[i - 1];
          forall j | 0 <= j < i ensures pages[j].next != pages[i].next {
            if j > 0 { assert pages[j] == rest[j - 1]; }
          }
        }
      }
    }
  }

  ghost predicate ReadsPages(feed: Feed, cursors: set<Cursor>, incremental: bool, k: nat, st: Loop, pages: seq<Page>,
                             rows: seq<Message>) {
    && FiniteCursors(feed, cursors) && Follows(feed, k, st.cursor, pages) && KeepsNewest(st.messages, rows)
    && (incremental ==> Consistent(rows))
  }

  ghost predicate EndsWith(read: Outcome, id: string, pages: seq<Page>, rows: seq<Message>, revision: Revision) {
    && read.Done? && read.history.conversation == id && NonDescending(read.history.messages)
    && KeepsNewest(read.history.messages, rows + Items(pages))
    && read.history.revision == if revision.Known? then Some(revision.number) else None
  }

  lemma SortedKeepsNewest(ms: seq<Message>, rows: seq<Message>)
    requires KeepsNewest(ms, rows)
    ensures KeepsNewest(Sorted(ms), rows) && NonDescending(Sorted(ms))
  {
    SortedSpec(ms);
    SameElements(Sorted(ms), ms);
    UniquePermutes(ms, Sorted(ms));
  }

  /** Whether the first page is taken, given what the read has so far. */
  ghost predicate FirstAcceptable(id: string, incremental: bool, st: Loop, page: Page, rows: seq<Message>, r: Revision) {
    && PageRevision(page) == r && AllBelong(id, page.items) && HasItsCheckpoint(page)
    && (page.next.Some? ==> page.next.value !in st.seen)
    && (incremental ==> Consistent(rows + page.items))
  }

  function SeenAfter(seen: set<Cursor>, page: Page): set<Cursor> {
    if page.next.Some? then seen + {page.next.value} else seen
  }

  /** One page, as the read sees it. */
  lemma PageTakenIff(id: string, incremental: bool, st: Loop, page: Page, rows: seq<Message>, r: Revision)
    requires KeepsNewest(st.messages, rows) && r != Unset && (incremental ==> r.Known? && Consistent(rows))
    requires st.revision == r || (st.revision == Unset && r == PageRevision(page))
    ensures var turn := AbsorbPage(id, incremental, st, page);
            && (turn.Continue? <==> FirstAcceptable(id, incremental, st, page, rows, r))
            && (turn.Continue? ==>
                  && KeepsNewest(turn.loop.messages, rows + page.items) && turn.loop.cursor == page.next
                  && turn.loop.revision == r
                  && turn.loop.seen == SeenAfter(st.seen, page))
  {
    ItemsTakenIff(id, incremental, st.messages, rows, page.items);
  }

  lemma FirstThenRest(id: string, incremental: bool, st: Loop, st': Loop, pages: seq<Page>, rows: seq<Message>, r: Revision)
    requires pages != [] && r != Unset && (st.revision == r || (st.revision == Unset && r == PageRevision(pages[0])))
    requires st'.revision == r && st'.seen == SeenAfter(st.seen, pages[0])
    ensures Acceptable(id, incremental, st, pages, rows, r) <==>
              && FirstAcceptable(id, incremental, st, pages[0], rows, r)
              && Acceptable(id, incremental, st', pages[1..], rows + pages[0].items, r)
  {
    SplitPages(id, st, pages, r);
    SplitCursors(st.seen, pages);
    assert rows + pages[0].items + Items(pages[1..]) == rows + Items(pages);
    if incremental && Consistent(rows + Items(pages)) { ConsistentBefore(rows + pages[0].items, Items(pages[1..])); }
  }

  /** The read ends well exactly for acceptable pages, and then with the newest rows. */
  ghost predicate ReadIff(read: Outcome, id: string, incremental: bool, st: Loop, pages: seq<Page>, rows: seq<Message>, r: Revision) {
    && (read.Done? <==> Acceptable(id, incremental, st, pages, rows, r))
    && (read.Done? ==> EndsWith(read, id, pages, rows, r))
  }

  lemma StopsIff(read: Outcome, id: string, incremental: bool, st: Loop, pages: seq<Page>, rows: seq<Message>, r: Revision)
    requires pages != [] && r != Unset && (st.revision == r || (st.revision == Unset && r == PageRevision(pages[0])))
    requires !read.Done? && !FirstAcceptable(id, incremental, st, pages[0], rows, r)
    ensures ReadIff(read, id, incremental, st, pages, rows, r)
  {
    FirstThenRest(id, incremental, st, Loop([], None, r, None, SeenAfter(st.seen, pages[0])), pages, rows, r);
  }

  lemma GoesOnIff(read: Outcome, id: string, incremental: bool, st: Loop, st': Loop, pages: seq<Page>, rows: seq<Message>, r: Revision)
    requires pages != [] && r != Unset && (st.revision == r || (st.revision == Unset && r == PageRevision(pages[0])))
    requires st'.revision == r && st'.seen == SeenAfter(st.seen, pages[0])
    requires FirstAcceptable(id, incremental, st, pages[0], rows, r)
    requires ReadIff(read, id, incremental, st', pages[1..], rows + pages[0].items, r)
    ensures ReadIff(read, id, incremental, st, pages, rows, r)
  {
    FirstThenRest(id, incremental, st, st', pages, rows, r);
    assert rows + pages[0].items + Items(pages[1..]) == rows + Items(pages);
  }

  lemma EndsIff(id: string, incremental: bool, st: Loop, rows: seq<Message>, r: Revision)
    requires st.revision == r && (incremental ==> Consistent(rows)) && KeepsNewest(st.messages, rows)
    ensures ReadIff(Done(Publish(id, st)), id, incremental, st, [], rows, r)
  {
    assert rows + Items([]) == rows;
    SortedKeepsNewest(st.messages, rows);
  }

  lemma {:induction false} PagesReadIff(feed: Feed, cursors: set<Cursor>, id: string, incremental: bool, k: nat,
                                        st: Loop, pages: seq<Page>, rows: seq<Message>, r: Revision)
    requires ReadsPages(feed, cursors, incremental, k, st, pages, rows) && r != Unset && (incremental ==> r.Known?)
    requires st.revision == r || (st.revision == Unset && r == PageRevision(pages[0]))
    ensures ReadIff(ReadFrom(feed, cursors, id, incremental, k, st).0, id, incremental, st, pages, rows, r)
    decreases |pages|
  {
    var page := pages[0];
    PageTakenIff(id, incremental, st, page, rows, r);
    var turn := AbsorbPage(id, incremental, st, page);
    var read := ReadFrom(feed, cursors, id, incremental, k, st).0;
    if !turn.Continue? {
      StopsIff(read, id, incremental, st, pages, rows, r);
    } else {
      var st' := turn.loop;
      if page.next.Some? {
        assert st'.cursor.value in cursors - st.seen && st'.cursor.value !in cursors - st'.seen;
        PagesReadIff(feed, cursors, id, incremental, k + 1, st', pages[1..], rows + page.items, r);
        assert read == ReadFrom(feed, cursors, id, incremental, k + 1, st').0;
      } else {
        EndsIff(id, incremental, st', rows + page.items, r);
        assert pages[1..] == [] && read == Done(Publish(id, st'));
      }
      GoesOnIff(read, id, incremental, st, st', pages, rows, r);
    }
  }

  predicate Carries(page: Page, number: int) {
    page.revision == Some(number) && 0 < number <= MAX_SAFE_INTEGER && !page.sync.Missing?
  }

  ghost predicate AllCarry(pages: seq<Page>, number: int) {
    forall p :: p in pages ==> Carries(p, number)
  }

  /** All pages carry the same history revision, or, as older servers answer, none carries any. */
  ghost predicate Agree(pages: seq<Page>) {
    || (exists r :: AllCarry(pages, r))
    || (forall p, r :: p in pages ==> !Carries(p, r))
  }

  lemma AgreeIffOne(pages: seq<Page>)
    requires pages != []
    ensures Agree(pages) <==> OneRevision(pages, PageRevision(pages[0]))
  {
    var p0 := pages[0];
    assert p0 in pages;
    forall p | p in pages ensures PageRevision(p).Legacy? <==> forall r :: !Carries(p, r) {
      if PageRevision(p).Known? { assert Carries(p, p.revision.value); }
    }
    if OneRevision(pages, PageRevision(p0)) && PageRevision(p0).Known? {
      assert AllCarry(pages, p0.revision.value);
    }
  }

  /**
    Whatever the server answers: a read that starts from nothing and follows these pages publishes
    if and only if all rows belong to the room, the pages agree on a revision, each page with rows
    carries its checkpoint, and no page points back. It then publishes, in order of position, the
    row of each id with the highest revision, the last such row on a tie.
   */
  lemma FreshReadIff(feed: Feed, cursors: set<Cursor>, id: string, k: nat, pages: seq<Page>)
    requires FiniteCursors(feed, cursors) && Follows(feed, k, None, pages)
    ensures var r := ReadHistorySpec(feed, cursors, k, id, None).0;
            && (r.Done? <==>
                  && AllBelong(id, Items(pages)) && Agree(pages) && AllCheckpointed(pages) && NewCursors({}, pages))
            && (r.Done? ==>
                  && KeepsNewest(r.history.messages, Items(pages)) && NonDescending(r.history.messages)
                  && forall n :: r.history.revision == Some(n) <==> AllCarry(pages, n))
  {
    NewestOfUnique([]);
    AgreeIffOne(pages);
    PagesReadIff(feed, cursors, id, false, k, Start(id, None), pages, [], PageRevision(pages[0]));
    assert [] + Items(pages) == Items(pages);
    assert pages[0] in pages;
  }

  /** The cache a read may go on from: it knows its revision, and has each id once. */
  ghost predicate GoesOnFrom(h: History, id: string) {
    h.revision.Some? && UniqueIds(h.messages) && ConversationKey(h.conversation) == ConversationKey(id)
  }

  /**
    Whatever the server answers: a read that goes on from a cache and follows these pages publishes
    without a restart if and only if all rows belong to the room, every page carries the cache's
    own revision, each page with rows carries its checkpoint, no page points back, also not to the
    cache's cursor, and no row differs from a cached or earlier row of its id.
   */
  lemma OngoingReadIff(feed: Feed, cursors: set<Cursor>, id: string, k: nat, h: History, pages: seq<Page>)
    requires FiniteCursors(feed, cursors) && Follows(feed, k, h.cursor, pages) && GoesOnFrom(h, id)
    ensures var r := ReadHistorySpec(feed, cursors, k, id, Some(h)).0;
            && (r.Done? <==>
                  && AllBelong(id, Items(pages)) && AllCarry(pages, h.revision.value) && AllCheckpointed(pages)
                  && NewCursors(if h.cursor.Some? then {h.cursor.value} else {}, pages)
                  && Consistent(h.messages + Items(pages)))
            && (r.Done? ==>
                  && KeepsNewest(r.history.messages, h.messages + Items(pages)) && NonDescending(r.history.messages)
                  && r.history.revision == h.revision)
  {
    NewestOfUnique(h.messages);
    FromListSame(h.messages);
    PagesReadIff(feed, cursors, id, true, k, Start(id, Some(h)), pages, h.messages, Known(h.revision.value));
    forall p | p in pages ensures Carries(p, h.revision.value) <==> PageRevision(p) == Known(h.revision.value) {}
  }

  /** A read from nothing that publishes has followed such pages. */
  lemma FreshReadFollows(feed: Feed, cursors: set<Cursor>, id: string, k: nat) returns (pages: seq<Page>)
    requires FiniteCursors(feed, cursors) && ReadHistorySpec(feed, cursors, k, id, None).0.Done?
    ensures Follows(feed, k, None, pages)
  {
    pages := ReadFollows(feed, cursors, id, false, k, Start(id, None));
  }

  /** Appending a row keeps, of each id, the newer row, and the incoming one on a tie. */
  lemma MergeKeepsNewest(previous: seq<Message>, m: Message)
    requires UniqueIds(previous)
    ensures KeepsNewest(MergeMessages(previous, m), previous + [m]) && NonDescending(MergeMessages(previous, m))
  {
    NewestOfUnique(previous);
    FromListSame(previous);
    PutNewerKeepsNewest(FromList(previous), previous, m);
    SortedKeepsNewest(PutNewer(FromList(previous), m), previous + [m]);
  }

  lemma {:induction false} PutLast(ms: seq<Message>, m: Message)
    requires m.id !in Ids(ms)
    ensures Put(ms, m) == ms + [m]
  {
    if ms != [] {
      assert ms == [ms[0]] + ms[1..];
      assert ms[0] in ms && forall x :: x in ms[1..] ==> x in ms;
      PutLast(ms[1..], m);
    }
  }

  lemma {:induction false} FromListSame(ms: seq<Message>)
    requires UniqueIds(ms)
    ensures FromList(ms) == ms
  {
    if ms != [] {
      var n := |ms| - 1;
      FromListSame(ms[..n]);
      PutLast(ms[..n], ms[n]);
      assert ms == ms[..n] + [ms[n]];
    }
  }

  // ---------- the sort is stable ----------

  function AtPosition(ms: seq<Message>, p: int): seq<Message> {
    if ms == [] then []
    else (if ms[0].position == p then [ms[0]] else []) + AtPosition(ms[1..], p)
  }

  lemma {:induction false} AtPositionJoins(a: seq<Message>, b: seq<Message>, p: int)
    ensures AtPosition(a + b, p) == AtPosition(a, p) + AtPosition(b, p)
  {
    if a == [] {
      assert a + b == b;
    } else {
      assert (a + b)[1..] == a[1..] + b;
      AtPositionJoins(a[1..], b, p);
    }
  }

  lemma {:induction false} NoneAbove(ms: seq<Message>, p: int)
    requires forall m :: m in ms ==> m.position > p
    ensures AtPosition(ms, p) == []
  {
    if ms != [] {
      assert ms[0] in ms;
      NoneAbove(ms[1..], p);
    }
  }

  lemma AtPositionHead(x: Message, ms: seq<Message>, p: int)
    ensures AtPosition([x] + ms, p) == AtPosition([x], p) + AtPosition(ms, p)
  {
    AtPositionJoins([x], ms, p);
  }

  lemma TailInOrder(ms: seq<Message>)
    requires ms != [] && NonDescending(ms)
    ensures NonDescending(ms[1..])
  {
    var rest := ms[1..];
    forall i, j | 0 <= i < j < |rest| ensures rest[i].position <= rest[j].position {
      assert rest[i] == ms[i + 1] && rest[j] == ms[j + 1];
    }
  }

  lemma InsertedFirst(m: Message, ms: seq<Message>, p: int)
    requires forall x :: x in ms ==> m.position < x.position
    ensures AtPosition([m] + ms, p) == AtPosition(ms, p) + AtPosition([m], p)
  {
    AtPositionHead(m, ms, p);
    if p == m.position { NoneAbove(ms, p); }
  }

  lemma {:induction false} InsertedLast(m: Message, ms: seq<Message>, p: int)
    requires NonDescending(ms)
    ensures AtPosition(Insert(m, ms), p) == AtPosition(ms, p) + AtPosition([m], p)
  {
    if ms == [] {
    } else if m.position < ms[0].position {
      InsertedFirst(m, ms, p);
    } else {
      var x, rest := ms[0], ms[1..];
      TailInOrder(ms);
      InsertedLast(m, rest, p);
      AtPositionHead(x, Insert(m, rest), p);
      AtPositionHead(x, rest, p);
      assert ms == [x] + rest;
    }
  }

  lemma StableStep(first: seq<Message>, m: Message, p: int)
    requires AtPosition(Sorted(first), p) == AtPosition(first, p)
    ensures AtPosition(Insert(m, Sorted(first)), p) == AtPosition(first + [m], p)
  {
    SortedSpec(first);
    InsertedLast(m, Sorted(first), p);
    AtPositionJoins(first, [m], p);
  }

  /** Rows of one position stay in the order they were given in. */
  lemma {:induction false} SortedIsStable(ms: seq<Message>, p: int)
    ensures AtPosition(Sorted(ms), p) == AtPosition(ms, p)
  {
    if ms != [] {
      var n := |ms| - 1;
      SortedIsStable(ms[..n], p);
      StableStep(ms[..n], ms[n], p);
      assert ms == ms[..n] + [ms[n]];
    }
  }

  // ---------- the server's pages ----------

  /** A page holds a hundred rows, or all that are left behind the cursor; then it has no next one. */
  lemma PageIsFull(rev: int, rows: seq<Message>, cursor: Option<Cursor>)
    requires Ordered(rows)
    ensures var page, left := PageOf(rev, rows, cursor), |After(rows, CursorPosition(cursor))|;
            && |page.items| == (if left > 100 then 100 else left) && (page.next.Some? <==> left > 100)
            && (page.next.Some? ==> page.sync == At(page.next.value))
            && page.items == After(rows, CursorPosition(cursor))[..|page.items|]
    ensures MAX_SAFE_INTEGER == 0x20_0000_0000_0000 - 1
  {}

  // ---------- spellings of one room ----------

  predicate NoCapitals(s: string) {
    forall i :: 0 <= i < |s| ==> !('A' <= s[i] <= 'Z')
  }

  predicate NoneOf(s: string, dropped: string) {
    forall i :: 0 <= i < |s| ==> s[i] !in dropped
  }

  lemma {:induction false} LowerSame(s: string)
    requires NoCapitals(s)
    ensures Lower(s) == s
  {
    if s != [] {
      assert forall i :: 0 <= i < |s| - 1 ==> s[1..][i] == s[i + 1];
      LowerSame(s[1..]);
      assert s == [s[0]] + s[1..];
    }
  }

  lemma {:induction false} WithoutSame(s: string, dropped: string)
    requires NoneOf(s, dropped)
    ensures Without(s, dropped) == s
  {
    if s != [] {
      assert forall i :: 0 <= i < |s| - 1 ==> s[1..][i] == s[i + 1];
      WithoutSame(s[1..], dropped);
      assert s == [s[0]] + s[1..];
    }
  }

  lemma {:induction false} WithoutJoins(a: string, b: string, dropped: string)
    ensures Without(a + b, dropped) == Without(a, dropped) + Without(b, dropped)
  {
    if a == [] {
      assert a + b == b;
    } else {
      assert (a + b)[1..] == a[1..] + b;
      WithoutJoins(a[1..], b, dropped);
    }
  }

  lemma WithoutMark(a: string, mark: char, b: string, dropped: string)
    requires NoneOf(a, dropped) && NoneOf(b, dropped) && mark in dropped
    ensures Without(a + [mark] + b, dropped) == a + b
  {
    WithoutSame(a, dropped);
    WithoutSame(b, dropped);
    WithoutJoins(a, [mark], dropped);
    WithoutJoins(a + [mark], b, dropped);
  }

  function Upper(s: string): string {
    if s == [] then []
    else [if 'a' <= s[0] <= 'z' then (s[0] as int - 32) as char else s[0]] + Upper(s[1..])
  }

  lemma {:induction false} LowerOfUpper(s: string)
    ensures Lower(Upper(s)) == Lower(s)
  {
    if s != [] { LowerOfUpper(s[1..]); }
  }

  lemma UrnKey(t: string, id: string)
    requires "urn:uuid:" <= Lower(t) && Lower(t)[9..] == id && NoneOf(id, "{}-")
    ensures ConversationKey(t) == id
  {
    WithoutSame(id, "{}-");
  }

  lemma PlainKey(t: string, id: string)
    requires !("urn:uuid:" <= Lower(t)) && Without(Lower(t), "{}-") == id
    ensures ConversationKey(t) == id
  {}

  lemma NoUrn(s: string)
    requires NoneOf(s, ":")
    ensures !("urn:uuid:" <= s)
  {
    assert "urn:uuid:"[3] == ':';
    assert |s| > 3 ==> s[3] !in ":";
  }

  ghost predicate Plain(s: string) {
    NoCapitals(s) && NoneOf(s, "{}-") && NoneOf(s, ":")
  }

  /** A plain lower-case id is its own key; so are it as a URN, it in capitals, and it with a mark anywhere. */
  lemma SpellingsShareKey(a: string, b: string, mark: char)
    requires Plain(a) && Plain(b) && mark in "{}-"
    ensures ConversationKey(a + b) == a + b
    ensures ConversationKey("urn:uuid:" + (a + b)) == a + b
    ensures ConversationKey(Upper("urn:uuid:" + (a + b))) == a + b
    ensures ConversationKey(a + [mark] + b) == a + b
  {
    IdKey(a + b);
    AsUrn(a + b);
    MarkedKey(a, b, mark);
  }

  lemma IdKey(id: string)
    requires Plain(id)
    ensures ConversationKey(id) == id
  {
    LowerSame(id);
    NoUrn(id);
    WithoutSame(id, "{}-");
  }

  lemma AsUrn(id: string)
    requires Plain(id)
    ensures ConversationKey("urn:uuid:" + id) == id
    ensures ConversationKey(Upper("urn:uuid:" + id)) == id
  {
    var t := "urn:uuid:" + id;
    assert NoCapitals(t);
    LowerSame(t);
    LowerOfUpper(t);
    UrnKey(t, id);
    UrnKey(Upper(t), id);
  }

  lemma MarkedKey(a: string, b: string, mark: char)
    requires Plain(a) && Plain(b) && mark in "{}-"
    ensures ConversationKey(a + [mark] + b) == a + b
  {
    var t := a + [mark] + b;
    LowerSame(t);
    NoUrn(t);
    WithoutMark(a, mark, b, "{}-");
    PlainKey(t, a + b);
  }
}
