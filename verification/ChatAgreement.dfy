/**
  Agreement of a client read with a server that changes underneath it.

  The k-th request reads the revision at time tr(k) and the rows at time tw(k), no earlier
  than that and no later than the next request's revision.
 */
module ChatAgreement {
  import opened Wrappers
  import opened ChatServer
  import opened ChatHistory

  datatype Schedule = Schedule(tr: nat -> nat, tw: nat -> nat)

  ghost predicate RequestInOrder(s: Schedule, k: nat) {
    s.tr(k) <= s.tw(k) <= s.tr(k + 1)
  }

  ghost predicate Monotone(s: Schedule) {
    forall k: nat :: RequestInOrder(s, k)
  }

  /** Each request is lost or answered from the server as it stands at its two read times. */
  ghost predicate Honest(feed: Feed, srv: Timeline, s: Schedule) {
    forall k: nat, c: Option<Cursor> {:trigger feed(k, c)} ::
      feed(k, c).Answer? ==> feed(k, c).page == PageOf(srv(s.tr(k)).revision, srv(s.tw(k)).messages, c)
  }

  ghost predicate Reading(feed: Feed, cursors: set<Cursor>, srv: Timeline, s: Schedule, id: string, c: string) {
    && FiniteCursors(feed, cursors) && Runs(srv, c) && Monotone(s) && Honest(feed, srv, s)
    && ConversationKey(c) == ConversationKey(id)
  }

  // ---------- the insertion-ordered map ----------

  lemma {:induction false} GetSpec(ms: seq<Message>, id: string)
    ensures Get(ms, id).Some? <==> id in Ids(ms)
    ensures Get(ms, id).Some? ==> Get(ms, id).value in ms && Get(ms, id).value.id == id
  {
    if ms != [] {
      GetSpec(ms[1..], id);
      assert forall m :: m in ms <==> m == ms[0] || m in ms[1..];
      assert ms[0] in ms;
      if id in Ids(ms) { assert ms[0].id == id || id in Ids(ms[1..]); }
    }
  }

  lemma {:induction false} PutMembers(ms: seq<Message>, m: Message)
    ensures m in Put(ms, m)
    ensures forall x :: x in Put(ms, m) ==> x == m || x in ms
    ensures forall x :: x in ms && x.id != m.id ==> x in Put(ms, m)
  {
    if ms != [] {
      PutMembers(ms[1..], m);
      assert ms == [ms[0]] + ms[1..];
      assert forall x :: x in ms <==> x == ms[0] || x in ms[1..];
    }
  }

  lemma PutIds(ms: seq<Message>, m: Message)
    ensures Ids(Put(ms, m)) == Ids(ms) + {m.id}
  {
    PutMembers(ms, m);
    GetSpec(ms, m.id);
    forall i | i in Ids(ms) + {m.id} ensures i in Ids(Put(ms, m)) {
      if i != m.id { var x :| x in ms && x.id == i; assert x in Put(ms, m); } else { assert m in Put(ms, m); }
    }
  }

  lemma {:induction false} PutUnique(ms: seq<Message>, m: Message)
    requires UniqueIds(ms)
    ensures UniqueIds(Put(ms, m))
  {
    if ms != [] && ms[0].id != m.id {
      PutUnique(ms[1..], m);
      PutIds(ms[1..], m);
      var t := Put(ms[1..], m);
      assert ms[0].id !in Ids(ms[1..]);
      forall j | 0 <= j < |t| ensures t[j].id != ms[0].id { assert t[j].id in Ids(t); }
    }
  }

  lemma PutSpec(ms: seq<Message>, m: Message)
    ensures m in Put(ms, m)
    ensures Ids(Put(ms, m)) == Ids(ms) + {m.id}
    ensures forall x :: x in Put(ms, m) ==> x == m || x in ms
    ensures forall x :: x in ms && x.id != m.id ==> x in Put(ms, m)
    ensures UniqueIds(ms) ==> UniqueIds(Put(ms, m))
  {
    PutMembers(ms, m);
    PutIds(ms, m);
    if UniqueIds(ms) { PutUnique(ms, m); }
  }

  lemma IdsAppend(ms: seq<Message>, m: Message)
    ensures Ids(ms + [m]) == Ids(ms) + {m.id}
  {
    assert forall x :: x in ms + [m] <==> x in ms || x == m;
  }

  lemma {:induction false} FromListSpec(ms: seq<Message>)
    ensures Ids(FromList(ms)) == Ids(ms) && UniqueIds(FromList(ms))
    ensures forall m :: m in FromList(ms) ==> m in ms
  {
    if ms != [] {
      var n := |ms| - 1;
      FromListSpec(ms[..n]);
      PutSpec(FromList(ms[..n]), ms[n]);
      assert ms == ms[..n] + [ms[n]];
      IdsAppend(ms[..n], ms[n]);
    }
  }

  lemma PutNewerSpec(ms: seq<Message>, m: Message)
    requires UniqueIds(ms)
    ensures UniqueIds(PutNewer(ms, m)) && Ids(PutNewer(ms, m)) == Ids(ms) + {m.id}
    ensures forall x :: x in PutNewer(ms, m) ==> x == m || x in ms
    ensures forall x :: x in ms && x.id != m.id ==> x in PutNewer(ms, m)
  {
    GetSpec(ms, m.id);
    PutSpec(ms, m);
  }

  // ---------- sorting ----------

  ghost predicate NonDescending(ms: seq<Message>) {
    forall i, j :: 0 <= i < j < |ms| ==> ms[i].position <= ms[j].position
  }

  lemma {:induction false} InsertRows(m: Message, ms: seq<Message>)
    ensures multiset(Insert(m, ms)) == multiset(ms) + multiset{m}
  {
    if !(ms == [] || m.position < ms[0].position) {
      InsertRows(m, ms[1..]);
      assert ms == [ms[0]] + ms[1..];
    }
  }

  lemma {:induction false} InsertOrder(m: Message, ms: seq<Message>)
    requires NonDescending(ms)
    ensures NonDescending(Insert(m, ms))
  {
    if !(ms == [] || m.position < ms[0].position) {
      InsertOrder(m, ms[1..]);
      InsertRows(m, ms[1..]);
      var t := Insert(m, ms[1..]);
      forall j | 0 <= j < |t| ensures ms[0].position <= t[j].position {
        assert t[j] in multiset(t);
        assert t[j] in ms[1..] || t[j] == m;
      }
    }
  }

  lemma {:induction false} SortedSpec(ms: seq<Message>)
    ensures NonDescending(Sorted(ms)) && multiset(Sorted(ms)) == multiset(ms)
  {
    if ms != [] {
      var n := |ms| - 1;
      SortedSpec(ms[..n]);
      InsertRows(ms[n], Sorted(ms[..n]));
      InsertOrder(ms[n], Sorted(ms[..n]));
      assert ms == ms[..n] + [ms[n]];
    }
  }

  lemma SameElements(a: seq<Message>, b: seq<Message>)
    requires multiset(a) == multiset(b)
    ensures forall m :: m in a <==> m in b
    ensures |a| == |b| && Ids(a) == Ids(b)
  {
    forall m ensures m in a <==> m in b { assert m in a <==> m in multiset(a); assert m in b <==> m in multiset(b); }
    assert |multiset(a)| == |a| && |multiset(b)| == |b|;
  }

  /** A list with the same rows as a strictly ordered one, each once, sorts to exactly it. */
  lemma {:induction false} SortsTo(ms: seq<Message>, target: seq<Message>)
    requires UniqueIds(ms) && Ordered(target)
    requires forall m :: m in ms <==> m in target
    ensures Sorted(ms) == target
  {
    SortedSpec(ms);
    SameElements(Sorted(ms), ms);
    assert Distinct(Sorted(ms)) by { DistinctFromUnique(ms); DistinctPermutes(ms, Sorted(ms)); }
    assert Distinct(target);
    OrderedUnique(Sorted(ms), target);
  }

  ghost predicate Distinct(ms: seq<Message>) {
    forall i, j :: 0 <= i < j < |ms| ==> ms[i] != ms[j]
  }

  lemma DistinctFromUnique(ms: seq<Message>)
    requires UniqueIds(ms)
    ensures Distinct(ms)
  {}

  lemma {:induction false} DistinctCounts(ms: seq<Message>, m: Message)
    requires Distinct(ms)
    ensures multiset(ms)[m] <= 1
  {
    if ms != [] {
      DistinctCounts(ms[1..], m);
      assert ms == [ms[0]] + ms[1..];
      if m == ms[0] { assert m !in ms[1..]; assert multiset(ms[1..])[m] == 0; }
    }
  }

  lemma DistinctPermutes(a: seq<Message>, b: seq<Message>)
    requires Distinct(a) && multiset(a) == multiset(b)
    ensures Distinct(b)
  {
    forall i, j | 0 <= i < j < |b| ensures b[i] != b[j] {
      if b[i] == b[j] {
        assert b == b[..j] + [b[j]] + b[j + 1..];
        assert b[i] in b[..j] by { assert b[..j][i] == b[i]; }
        assert multiset(b[..j])[b[i]] >= 1;
        assert multiset(b) == multiset(b[..j]) + multiset([b[j]]) + multiset(b[j + 1..]);
        assert multiset(b)[b[i]] >= 2;
        DistinctCounts(a, b[i]);
      }
    }
  }

  lemma TailMembers(a: seq<Message>)
    requires a != [] && Distinct(a)
    ensures forall m :: m in a[1..] <==> m in a && m != a[0]
  {
    assert a == [a[0]] + a[1..];
    forall m | m in a[1..] ensures m != a[0] {
      var k :| 0 <= k < |a[1..]| && a[1..][k] == m;
      assert a[k + 1] == m;
    }
  }

  lemma FirstIn(a: seq<Message>)
    ensures a == [] || a[0] in a
  {}

  lemma SameHeads(a: seq<Message>, b: seq<Message>)
    requires NonDescending(a) && Ordered(b) && a != [] && b != []
    requires a[0] in b && b[0] in a
    ensures a[0] == b[0]
  {
    var i :| 0 <= i < |a| && a[i] == b[0];
    var j :| 0 <= j < |b| && b[j] == a[0];
    assert a[0].position <= a[i].position;
  }

  lemma {:induction false} OrderedUnique(a: seq<Message>, b: seq<Message>)
    requires NonDescending(a) && Distinct(a) && Ordered(b)
    requires forall m :: m in a <==> m in b
    ensures a == b
    decreases |b|
  {
    if b == [] {
      FirstIn(a);
    } else {
      assert b[0] in a && a[0] in b;
      SameHeads(a, b);
      TailMembers(a);
      TailMembers(b);
      OrderedTails(a, b);
      OrderedUnique(a[1..], b[1..]);
      assert a == [a[0]] + a[1..] && b == [b[0]] + b[1..];
    }
  }

  lemma OrderedTails(a: seq<Message>, b: seq<Message>)
    requires NonDescending(a) && Distinct(a) && Ordered(b) && a != [] && b != []
    ensures NonDescending(a[1..]) && Distinct(a[1..]) && Ordered(b[1..]) && Distinct(b)
  {}

  // ---------- what a partial read knows about the server ----------

  /** No row the server holds up to position p is missing (rows are compared by id). */
  ghost predicate Covers(ms: seq<Message>, p: int, s: Server) {
    p <= s.clock && forall m :: m in s.messages && m.position <= p ==> m.id in Ids(ms)
  }

  /** While the server is still at revision r, every cached row is one it holds. */
  ghost predicate CleanAt(ms: seq<Message>, r: int, s: Server) {
    r <= s.revision && (r == s.revision ==> forall m :: m in ms ==> m in s.messages)
  }

  lemma {:induction false} IssuedByClock(srv: Timeline, c: string, i: nat, j: nat, m: Message)
    requires Runs(srv, c) && i <= j && m in srv(j).messages && m.position <= srv(i).clock
    ensures m.id in srv(i).issued
    decreases j - i
  {
    AlwaysValid(srv, c, j);
    if i < j {
      assert StepAt(srv, j - 1);
      Advances(srv, c, i, j - 1);
      var s, s' := srv(j - 1), srv(j);
      var k :| 0 <= k < |s'.messages| && s'.messages[k] == m;
      if AppendStep(s, s') {
        assert k < |s.messages|;
        assert s'.messages[..|s.messages|][k] == m;
        IssuedByClock(srv, c, i, j - 1, m);
      } else {
        var p := s.messages[k];
        assert p in s.messages && p.id == m.id && p.position == m.position;
        IssuedByClock(srv, c, i, j - 1, p);
      }
    }
  }

  lemma CoversLater(srv: Timeline, c: string, i: nat, j: nat, ms: seq<Message>, p: int)
    requires Runs(srv, c) && i <= j && Covers(ms, p, srv(i))
    ensures Covers(ms, p, srv(j))
  {
    Advances(srv, c, i, j);
    forall m | m in srv(j).messages && m.position <= p ensures m.id in Ids(ms) {
      IssuedByClock(srv, c, i, j, m);
      HeldThroughout(srv, c, i, j, m);
    }
  }

  lemma CleanLater(srv: Timeline, c: string, i: nat, j: nat, ms: seq<Message>, r: int)
    requires Runs(srv, c) && i <= j && CleanAt(ms, r, srv(i))
    ensures CleanAt(ms, r, srv(j))
  {
    Advances(srv, c, i, j);
  }

  // ---------- absorbing one page ----------

  lemma IdsFirst(items: seq<Message>)
    requires items != []
    ensures Ids(items) == {items[0].id} + Ids(items[1..])
    ensures forall m :: m in items <==> m == items[0] || m in items[1..]
  {
    assert items == [items[0]] + items[1..];
  }

  lemma {:induction false} AbsorbKeeps(id: string, incremental: bool, ms: seq<Message>, items: seq<Message>)
    requires UniqueIds(ms)
    requires AbsorbItems(id, incremental, ms, items).Kept?
    ensures var ms' := AbsorbItems(id, incremental, ms, items).messages;
            && UniqueIds(ms') && Ids(ms') == Ids(ms) + Ids(items)
            && forall m :: m in ms' ==> m in ms || m in items
    decreases items
  {
    if items != [] {
      PutNewerSpec(ms, items[0]);
      IdsFirst(items);
      AbsorbKeeps(id, incremental, PutNewer(ms, items[0]), items[1..]);
    }
  }

  /** Rows of one consistent server list never conflict with each other. */
  lemma {:induction false} AbsorbSucceeds(id: string, incremental: bool, ms: seq<Message>, items: seq<Message>, rows: seq<Message>)
    requires UniqueIds(rows) && UniqueIds(ms)
    requires forall m :: m in ms || m in items ==> m in rows
    requires forall m :: m in rows ==> ConversationKey(m.conversation) == ConversationKey(id)
    ensures AbsorbItems(id, incremental, ms, items).Kept?
    decreases items
  {
    if items != [] {
      GetSpec(ms, items[0].id);
      assert items[0] in items;
      PutNewerSpec(ms, items[0]);
      AbsorbSucceeds(id, incremental, PutNewer(ms, items[0]), items[1..], rows);
    }
  }

  lemma AfterSpec(rows: seq<Message>, p: int)
    requires Ordered(rows)
    ensures forall m :: m in After(rows, p) <==> m in rows && m.position > p
    ensures Ordered(After(rows, p))
  {
    var k := AfterIsSuffix(rows, p);
    var found := After(rows, p);
    forall m | m in found ensures m in rows && m.position > p {
      var i :| 0 <= i < |found| && found[i] == m;
      assert rows[k + i] == m;
    }
    forall m | m in rows && m.position > p ensures m in found {
      var i :| 0 <= i < |rows| && rows[i] == m;
      assert found[i - k] == m;
    }
  }

  ghost predicate HasRowAt(rows: seq<Message>, p: int) {
    exists m :: m in rows && m.position == p
  }

  /** What the page's own shape says about the rows behind a cursor. */
  lemma PageRows(rev: int, rows: seq<Message>, cursor: Option<Cursor>)
    requires Ordered(rows)
    ensures var page := PageOf(rev, rows, cursor);
            var p := CursorPosition(cursor);
            && (forall m :: m in page.items ==> m in rows && m.position > p)
            && (page.next.None? ==> forall m :: m in rows && m.position > p ==> m in page.items)
            && (page.next.Some? ==>
                  && page.next.value.position > p && HasRowAt(rows, page.next.value.position)
                  && page.sync == At(page.next.value)
                  && forall m :: m in rows && p < m.position <= page.next.value.position ==> m in page.items)
            && (page.items != [] ==> page.sync.At? && HasRowAt(rows, page.sync.cursor.position))
            && (page.items == [] ==> page.sync == if cursor.Some? then At(cursor.value) else NoRow)
            && page.revision == Some(rev)
  {
    var p := CursorPosition(cursor);
    var found := After(rows, p);
    AfterSpec(rows, p);
    var page := PageOf(rev, rows, cursor);
    assert forall m :: m in page.items ==> m in found;
    if page.items != [] {
      var last := page.items[|page.items| - 1];
      assert last in page.items;
      if page.next.Some? {
        forall m | m in rows && p < m.position <= last.position ensures m in page.items {
          var i :| 0 <= i < |found| && found[i] == m;
          assert last == found[PAGE_SIZE - 1];
          assert page.items[i] == m;
        }
      }
    }
  }

  /** The state of a read before its k-th request, against the server at that moment. */
  ghost predicate Tracks(st: Loop, s: Server) {
    && UniqueIds(st.messages) && Covers(st.messages, CursorPosition(st.cursor), s)
    && !st.revision.Legacy?
    && (st.revision.Unset? ==> st.messages == [] && st.cursor.None?)
    && (st.revision.Known? ==> st.revision.number <= s.revision)
    && st.checkpoint == st.cursor
  }

  ghost predicate Clean(st: Loop, s: Server) {
    st.revision.Known? ==> CleanAt(st.messages, st.revision.number, s)
  }

  lemma PageCovers(srv: Timeline, s: Schedule, id: string, c: string, incremental: bool, k: nat, st: Loop)
    requires Runs(srv, c) && Monotone(s) && Tracks(st, srv(s.tr(k)))
    requires AbsorbPage(id, incremental, st, PageOf(srv(s.tr(k)).revision, srv(s.tw(k)).messages, st.cursor)).Continue?
    ensures var page := PageOf(srv(s.tr(k)).revision, srv(s.tw(k)).messages, st.cursor);
            var st' := AbsorbPage(id, incremental, st, page).loop;
            var W := srv(s.tw(k));
            && UniqueIds(st'.messages) && st'.revision == Known(srv(s.tr(k)).revision)
            && st'.cursor == page.next && st'.checkpoint == Checkpoint(page, st.checkpoint)
            && (st'.cursor.None? ==> Ids(W.messages) <= Ids(st'.messages))
            && (st'.cursor.Some? ==> Tracks(st', srv(s.tr(k + 1))))
            && Covers(st'.messages, CursorPosition(st'.checkpoint), W)
  {
    var S, W := srv(s.tr(k)), srv(s.tw(k));
    assert RequestInOrder(s, k);
    AlwaysValid(srv, c, s.tr(k)); AlwaysValid(srv, c, s.tw(k));
    var page := PageOf(S.revision, W.messages, st.cursor);
    var st' := AbsorbPage(id, incremental, st, page).loop;
    PageRows(S.revision, W.messages, st.cursor);
    AbsorbKeeps(id, incremental, st.messages, page.items);
    CoversLater(srv, c, s.tr(k), s.tw(k), st.messages, CursorPosition(st.cursor));
    forall m | m in W.messages && (page.next.None? || m.position <= page.next.value.position)
      ensures m.id in Ids(st'.messages)
    {
      if m.position > CursorPosition(st.cursor) { assert m in page.items; assert m.id in Ids(page.items); }
    }
    Advances(srv, c, s.tr(k), s.tw(k));
    Advances(srv, c, s.tw(k), s.tr(k + 1));
    assert CursorPosition(st'.checkpoint) <= W.clock;
    if st'.cursor.Some? {
      CoversLater(srv, c, s.tw(k), s.tr(k + 1), st'.messages, CursorPosition(st'.cursor));
    }
  }

  lemma PageClean(srv: Timeline, s: Schedule, id: string, c: string, incremental: bool, k: nat, st: Loop)
    requires Runs(srv, c) && Monotone(s) && Tracks(st, srv(s.tr(k))) && Clean(st, srv(s.tr(k)))
    requires AbsorbPage(id, incremental, st, PageOf(srv(s.tr(k)).revision, srv(s.tw(k)).messages, st.cursor)).Continue?
    ensures var st' := AbsorbPage(id, incremental, st, PageOf(srv(s.tr(k)).revision, srv(s.tw(k)).messages, st.cursor)).loop;
            Clean(st', srv(s.tw(k))) && Clean(st', srv(s.tr(k + 1)))
  {
    var S, W := srv(s.tr(k)), srv(s.tw(k));
    assert RequestInOrder(s, k);
    AlwaysValid(srv, c, s.tr(k)); AlwaysValid(srv, c, s.tw(k));
    var page := PageOf(S.revision, W.messages, st.cursor);
    PageRows(S.revision, W.messages, st.cursor);
    AbsorbKeeps(id, incremental, st.messages, page.items);
    PageCovers(srv, s, id, c, incremental, k, st);
    Advances(srv, c, s.tr(k), s.tw(k));
    if st.revision.Known? { CleanLater(srv, c, s.tr(k), s.tw(k), st.messages, S.revision); }
    var st' := AbsorbPage(id, incremental, st, page).loop;
    CleanLater(srv, c, s.tw(k), s.tr(k + 1), st'.messages, S.revision);
  }

  // ---------- whole reads ----------

  /** A published history that misses nothing the server held at the last page read. */
  ghost predicate Complete(h: History, id: string, tr: Server, tw: Server) {
    && h.conversation == id && h.revision == Some(tr.revision)
    && NonDescending(h.messages) && UniqueIds(h.messages)
    && Ids(tw.messages) <= Ids(h.messages)
    && Covers(h.messages, CursorPosition(h.cursor), tw)
  }

  ghost predicate CompleteOutcome(r: (Outcome, nat), srv: Timeline, s: Schedule, id: string) {
    r.0.Done? ==> r.1 > 0 && Complete(r.0.history, id, srv(s.tr(r.1 - 1)), srv(s.tw(r.1 - 1)))
  }

  lemma PublishIsComplete(id: string, st: Loop, tr: Server, tw: Server)
    requires UniqueIds(st.messages) && st.revision == Known(tr.revision)
    requires Ids(tw.messages) <= Ids(st.messages)
    requires Covers(st.messages, CursorPosition(st.checkpoint), tw)
    ensures Complete(Publish(id, st), id, tr, tw)
  {
    SortedSpec(st.messages);
    SameElements(Sorted(st.messages), st.messages);
    UniquePermutes(st.messages, Sorted(st.messages));
  }

  /** One page taken: the read still tracks the server, or what it publishes is complete. */
  lemma PageCompletes(srv: Timeline, s: Schedule, id: string, c: string, incremental: bool, k: nat, st: Loop, page: Page)
    requires Runs(srv, c) && Monotone(s) && Tracks(st, srv(s.tr(k)))
    requires page == PageOf(srv(s.tr(k)).revision, srv(s.tw(k)).messages, st.cursor)
    requires AbsorbPage(id, incremental, st, page).Continue?
    ensures var st' := AbsorbPage(id, incremental, st, page).loop;
            if st'.cursor.Some? then Tracks(st', srv(s.tr(k + 1)))
            else Complete(Publish(id, st'), id, srv(s.tr(k)), srv(s.tw(k)))
  {
    PageCovers(srv, s, id, c, incremental, k, st);
    var st' := AbsorbPage(id, incremental, st, page).loop;
    if st'.cursor.None? { PublishIsComplete(id, st', srv(s.tr(k)), srv(s.tw(k))); }
  }

  lemma {:induction false} ReadIsComplete(feed: Feed, cursors: set<Cursor>, srv: Timeline, s: Schedule,
                                          id: string, c: string, incremental: bool, k: nat, st: Loop)
    requires Reading(feed, cursors, srv, s, id, c) && Tracks(st, srv(s.tr(k)))
    ensures CompleteOutcome(ReadFrom(feed, cursors, id, incremental, k, st), srv, s, id)
    decreases cursors - st.seen
  {
    var reply := feed(k, st.cursor);
    if reply.Answer? {
      var turn := AbsorbPage(id, incremental, st, reply.page);
      if turn.Continue? {
        var st' := turn.loop;
        PageCompletes(srv, s, id, c, incremental, k, st, reply.page);
        if st'.cursor.Some? {
          assert st'.cursor.value in cursors - st.seen && st'.cursor.value !in cursors - st'.seen;
          ReadIsComplete(feed, cursors, srv, s, id, c, incremental, k + 1, st');
          assert ReadFrom(feed, cursors, id, incremental, k, st) == ReadFrom(feed, cursors, id, incremental, k + 1, st');
        } else {
          assert ReadFrom(feed, cursors, id, incremental, k, st) == (Done(Publish(id, st')), k + 1);
        }
      }
    }
  }

  lemma UniquePermutes(a: seq<Message>, b: seq<Message>)
    requires UniqueIds(a) && multiset(a) == multiset(b)
    ensures UniqueIds(b)
  {
    DistinctPermutes(a, b);
    SameElements(a, b);
    forall i, j | 0 <= i < j < |b| ensures b[i].id != b[j].id {
      assert b[i] in a && b[j] in a && b[i] != b[j];
    }
  }

  /** The full agreement: the published list is the server's own, in order. */
  ghost predicate Exact(h: History, s: Server) {
    h.messages == s.messages && h.revision == Some(s.revision)
  }

  /** No dropped row survives, and the history is the server's exactly if the page saw one revision. */
  ghost predicate Agrees(h: History, tr: Server, tw: Server) {
    && CleanAt(h.messages, tr.revision, tw)
    && (Exact(h, tw) <==> tr.revision == tw.revision)
  }

  ghost predicate AgreeingOutcome(r: (Outcome, nat), srv: Timeline, s: Schedule) {
    r.0.Done? ==> r.1 > 0 && Agrees(r.0.history, srv(s.tr(r.1 - 1)), srv(s.tw(r.1 - 1)))
  }

  lemma PublishAgrees(id: string, st: Loop, tr: Server, tw: Server)
    requires Valid(tw) && UniqueIds(st.messages) && st.revision == Known(tr.revision)
    requires Ids(tw.messages) <= Ids(st.messages) && Clean(st, tw)
    ensures Agrees(Publish(id, st), tr, tw)
  {
    SortedSpec(st.messages);
    SameElements(Sorted(st.messages), st.messages);
    if tr.revision == tw.revision {
      forall m | m in tw.messages ensures m in st.messages {
        assert m.id in Ids(st.messages);
        var x :| x in st.messages && x.id == m.id;
        assert x in tw.messages;
      }
      SortsTo(st.messages, tw.messages);
    }
  }

  /**
    The history is exactly the server's list at the last page read if and only if that page's
    two statements saw one revision. A destructive change between two pages cannot slip through:
    the next page reports a newer revision.
   */
  lemma {:induction false} ReadIsExact(feed: Feed, cursors: set<Cursor>, srv: Timeline, s: Schedule,
                                       id: string, c: string, incremental: bool, k: nat, st: Loop)
    requires Reading(feed, cursors, srv, s, id, c) && Tracks(st, srv(s.tr(k))) && Clean(st, srv(s.tr(k)))
    ensures AgreeingOutcome(ReadFrom(feed, cursors, id, incremental, k, st), srv, s)
    decreases cursors - st.seen
  {
    var reply := feed(k, st.cursor);
    if reply.Answer? {
      var turn := AbsorbPage(id, incremental, st, reply.page);
      if turn.Continue? {
        var st' := turn.loop;
        PageCovers(srv, s, id, c, incremental, k, st);
        PageClean(srv, s, id, c, incremental, k, st);
        if st'.cursor.Some? {
          assert st'.cursor.value in cursors - st.seen && st'.cursor.value !in cursors - st'.seen;
          ReadIsExact(feed, cursors, srv, s, id, c, incremental, k + 1, st');
          assert ReadFrom(feed, cursors, id, incremental, k, st) == ReadFrom(feed, cursors, id, incremental, k + 1, st');
        } else {
          assert ReadFrom(feed, cursors, id, incremental, k, st) == (Done(Publish(id, st')), k + 1);
          AlwaysValid(srv, c, s.tw(k));
          PublishAgrees(id, st', srv(s.tr(k)), srv(s.tw(k)));
        }
      }
    }
  }

  // ---------- reads that start from a cache ----------

  ghost predicate CacheTracks(h: History, s: Server) {
    && Covers(h.messages, CursorPosition(h.cursor), s)
    && (h.revision.Some? ==> h.revision.value <= s.revision)
  }

  ghost predicate CacheClean(h: History, s: Server) {
    h.revision.Some? ==> CleanAt(h.messages, h.revision.value, s)
  }

  lemma StartTracks(id: string, previous: Option<History>, s: Server)
    requires Valid(s) && (previous.Some? ==> CacheTracks(previous.value, s))
    ensures Tracks(Start(id, previous), s)
    ensures (previous.Some? ==> CacheClean(previous.value, s)) ==> Clean(Start(id, previous), s)
  {
    if Incremental(id, previous) { FromListSpec(previous.value.messages); }
  }

  /**
    The agreement theorem for an incremental or restarted read: nothing the server held at the
    last page read is missing; and, when the cache held no dropped row, the history equals the
    server's full ordered list exactly unless a destructive change fell between the two
    statements of that very last page.
   */
  lemma ConversationReadAgrees(feed: Feed, cursors: set<Cursor>, srv: Timeline, s: Schedule,
                               id: string, c: string, k: nat, previous: Option<History>)
    requires Reading(feed, cursors, srv, s, id, c)
    requires previous.Some? ==> CacheTracks(previous.value, srv(s.tr(k)))
    ensures CompleteOutcome(ReadConversationSpec(feed, cursors, k, id, previous), srv, s, id)
    ensures (previous.Some? ==> CacheClean(previous.value, srv(s.tr(k)))) ==>
              AgreeingOutcome(ReadConversationSpec(feed, cursors, k, id, previous), srv, s)
  {
    AlwaysValid(srv, c, s.tr(k));
    StartTracks(id, previous, srv(s.tr(k)));
    var inc := Incremental(id, previous);
    ReadIsComplete(feed, cursors, srv, s, id, c, inc, k, Start(id, previous));
    if previous.Some? ==> CacheClean(previous.value, srv(s.tr(k))) {
      ReadIsExact(feed, cursors, srv, s, id, c, inc, k, Start(id, previous));
    }
    var k' := ReadHistorySpec(feed, cursors, k, id, previous).1;
    AlwaysValid(srv, c, s.tr(k'));
    StartTracks(id, None, srv(s.tr(k')));
    ReadIsComplete(feed, cursors, srv, s, id, c, false, k', Start(id, None));
    ReadIsExact(feed, cursors, srv, s, id, c, false, k', Start(id, None));
  }

  /** The first request index of the attempt that produced the outcome is no earlier than k. */
  lemma {:induction false} ReadMovesOn(feed: Feed, cursors: set<Cursor>, k: nat, id: string, previous: Option<History>)
    requires FiniteCursors(feed, cursors)
    ensures ReadConversationSpec(feed, cursors, k, id, previous).1 > k
  {}

  lemma {:induction false} ScheduleAdvances(s: Schedule, i: nat, j: nat)
    requires Monotone(s) && i <= j
    ensures s.tr(i) <= s.tr(j) && s.tr(i) <= s.tw(j)
    decreases j
  {
    if i < j {
      ScheduleAdvances(s, i, j - 1);
      assert RequestInOrder(s, j - 1);
    }
    assert RequestInOrder(s, j);
  }

  // ---------- only a clean cache gives an exact incremental read ----------

  /** All rows the server held at some moment up to t. */
  ghost function EverHeld(srv: Timeline, t: nat): set<Message> {
    (if t == 0 then {} else EverHeld(srv, t - 1)) + set m | m in srv(t).messages
  }

  lemma {:induction false} WasHeld(srv: Timeline, t: nat, m: Message) returns (i: nat)
    requires m in EverHeld(srv, t)
    ensures i <= t && m in srv(i).messages
  {
    if m in srv(t).messages { i := t; } else { i := WasHeld(srv, t - 1, m); }
  }

  lemma {:induction false} EverHeldGrows(srv: Timeline, i: nat, t: nat)
    requires i <= t
    ensures EverHeld(srv, i) <= EverHeld(srv, t)
  {
    if i < t { EverHeldGrows(srv, i, t - 1); }
  }

  /** Every row was the server's at some time. */
  ghost predicate Genuine(ms: seq<Message>, srv: Timeline, t: nat) {
    forall m :: m in ms ==> m in EverHeld(srv, t)
  }

  /** A row is still there, at least under its id and revision. */
  ghost predicate KeptAs(x: Message, ms: seq<Message>) {
    exists y :: y in ms && y.id == x.id && y.revision == x.revision
  }

  lemma ItemKeepsRow(id: string, ms: seq<Message>, m: Message, x: Message)
    requires UniqueIds(ms) && AbsorbItem(id, true, ms, m).Kept? && KeptAs(x, ms)
    ensures KeptAs(x, PutNewer(ms, m)) && UniqueIds(PutNewer(ms, m))
  {
    var y :| y in ms && y.id == x.id && y.revision == x.revision;
    GetSpec(ms, m.id);
    PutNewerSpec(ms, m);
    PutSpec(ms, m);
    if y.id == m.id { assert y.id in Ids(ms) && Get(ms, m.id).value == y; assert m in PutNewer(ms, m); } else { assert y in PutNewer(ms, m); }
  }

  lemma {:induction false} ItemsKeepRow(id: string, ms: seq<Message>, items: seq<Message>, x: Message)
    requires UniqueIds(ms) && AbsorbItems(id, true, ms, items).Kept? && KeptAs(x, ms)
    ensures KeptAs(x, AbsorbItems(id, true, ms, items).messages) && UniqueIds(AbsorbItems(id, true, ms, items).messages)
    decreases items
  {
    if items != [] {
      ItemKeepsRow(id, ms, items[0], x);
      ItemsKeepRow(id, PutNewer(ms, items[0]), items[1..], x);
    }
  }

  /** A read that goes on from a cache keeps its revision, and drops or changes none of its rows. */
  lemma {:induction false} ReadKeepsRow(feed: Feed, cursors: set<Cursor>, id: string, k: nat, st: Loop, x: Message)
    requires FiniteCursors(feed, cursors) && UniqueIds(st.messages) && st.revision.Known? && KeptAs(x, st.messages)
    ensures var r := ReadFrom(feed, cursors, id, true, k, st);
            r.0.Done? ==> r.0.history.revision == Some(st.revision.number) && KeptAs(x, r.0.history.messages)
    decreases cursors - st.seen
  {
    var reply := feed(k, st.cursor);
    if reply.Answer? {
      var turn := AbsorbPage(id, true, st, reply.page);
      if turn.Continue? {
        ItemsKeepRow(id, st.messages, reply.page.items, x);
        var st' := turn.loop;
        if st'.cursor.Some? {
          assert st'.cursor.value in cursors - st.seen && st'.cursor.value !in cursors - st'.seen;
          ReadKeepsRow(feed, cursors, id, k + 1, st', x);
          assert ReadFrom(feed, cursors, id, true, k, st) == ReadFrom(feed, cursors, id, true, k + 1, st');
        } else {
          assert ReadFrom(feed, cursors, id, true, k, st) == (Done(Publish(id, st')), k + 1);
          SortedSpec(st'.messages);
          SameElements(Sorted(st'.messages), st'.messages);
          var y :| y in st'.messages && y.id == x.id && y.revision == x.revision;
          assert y in Sorted(st'.messages);
        }
      }
    }
  }

  /** A row that was held by t, and is held under its id and revision at T, is held at both. */
  lemma SameRow(srv: Timeline, c: string, t: nat, T: nat, x: Message, y: Message)
    requires Runs(srv, c) && t <= T && srv(t).revision == srv(T).revision
    requires x in EverHeld(srv, t) && y in srv(T).messages && y.id == x.id && y.revision == x.revision
    ensures x in srv(t).messages
  {
    var i := WasHeld(srv, t, x);
    AlwaysValid(srv, c, i);
    AlwaysValid(srv, c, T);
    Advances(srv, c, i, t);
    Advances(srv, c, t, T);
    HeldThroughout(srv, c, i, T, y);
    HeldThroughout(srv, c, t, T, y);
    var p :| p in srv(t).messages && p.id == y.id && p.position == y.position
             && p.revision <= y.revision && (p.revision == y.revision ==> p == y);
    assert srv(t).messages <= srv(T).messages;
    assert p in srv(T).messages;
  }

  lemma FromListRow(ms: seq<Message>, x: Message)
    requires UniqueIds(ms) && x in ms
    ensures x in FromList(ms)
  {
    FromListSpec(ms);
    assert x.id in Ids(FromList(ms));
    var y :| y in FromList(ms) && y.id == x.id;
    assert y in ms;
  }

  /** An incremental read that did not restart, from a cache of rows the server once held. */
  ghost predicate ReadsOn(feed: Feed, cursors: set<Cursor>, srv: Timeline, s: Schedule,
                          id: string, c: string, k: nat, previous: History) {
    && Reading(feed, cursors, srv, s, id, c) && Incremental(id, Some(previous))
    && CacheTracks(previous, srv(s.tr(k))) && UniqueIds(previous.messages) && Genuine(previous.messages, srv, s.tr(k))
    && ReadHistorySpec(feed, cursors, k, id, Some(previous)).0.Done?
  }

  lemma ReadsOnKeeps(feed: Feed, cursors: set<Cursor>, srv: Timeline, s: Schedule,
                     id: string, c: string, k: nat, previous: History, x: Message)
    requires ReadsOn(feed, cursors, srv, s, id, c, k, previous) && x in previous.messages
    ensures var h := ReadHistorySpec(feed, cursors, k, id, Some(previous)).0.history;
            h.revision == previous.revision && KeptAs(x, h.messages)
  {
    FromListSpec(previous.messages);
    FromListRow(previous.messages, x);
    ReadKeepsRow(feed, cursors, id, k, Start(id, Some(previous)), x);
  }

  /** One cached row, when the final list is the server's and the revision never moved. */
  lemma CachedRowHeld(feed: Feed, cursors: set<Cursor>, srv: Timeline, s: Schedule,
                      id: string, c: string, k: nat, previous: History, T: nat, x: Message)
    requires ReadsOn(feed, cursors, srv, s, id, c, k, previous) && x in previous.messages
    requires s.tr(k) <= T && srv(s.tr(k)).revision == srv(T).revision
    requires ReadHistorySpec(feed, cursors, k, id, Some(previous)).0.history.messages == srv(T).messages
    ensures x in srv(s.tr(k)).messages
  {
    ReadsOnKeeps(feed, cursors, srv, s, id, c, k, previous, x);
    var y :| y in srv(T).messages && y.id == x.id && y.revision == x.revision;
    SameRow(srv, c, s.tr(k), T, x, y);
  }

  lemma ExactOnlyIfClean(feed: Feed, cursors: set<Cursor>, srv: Timeline, s: Schedule,
                         id: string, c: string, k: nat, previous: History, T: nat)
    requires ReadsOn(feed, cursors, srv, s, id, c, k, previous) && s.tr(k) <= T
    requires Exact(ReadHistorySpec(feed, cursors, k, id, Some(previous)).0.history, srv(T))
    ensures CacheClean(previous, srv(s.tr(k)))
  {
    Advances(srv, c, s.tr(k), T);
    forall x | x in previous.messages && previous.revision == Some(srv(s.tr(k)).revision) ensures x in srv(s.tr(k)).messages {
      ReadsOnKeeps(feed, cursors, srv, s, id, c, k, previous, x);
      CachedRowHeld(feed, cursors, srv, s, id, c, k, previous, T, x);
    }
  }

  lemma ReadsOnEnds(feed: Feed, cursors: set<Cursor>, srv: Timeline, s: Schedule,
                    id: string, c: string, k: nat, previous: History)
    requires ReadsOn(feed, cursors, srv, s, id, c, k, previous)
    ensures var r := ReadHistorySpec(feed, cursors, k, id, Some(previous));
            && r == ReadConversationSpec(feed, cursors, k, id, Some(previous))
            && r.1 > k && s.tr(k) <= s.tw(r.1 - 1)
  {
    ScheduleAdvances(s, k, ReadHistorySpec(feed, cursors, k, id, Some(previous)).1 - 1);
  }

  /** The settled history is the server's list at its last page, if and only if all this was so. */
  ghost predicate ExactIff(r: (Outcome, nat), s: Schedule, first: nat, previous: History, srv: Timeline) {
    r.0.Done? && r.1 > 0 &&
      (Exact(r.0.history, srv(s.tw(r.1 - 1))) <==>
         srv(s.tr(r.1 - 1)).revision == srv(s.tw(r.1 - 1)).revision && CacheClean(previous, srv(s.tr(first))))
  }

  /** An incremental, unrestarted read is exact iff its cache was clean and its last page saw one revision. */
  lemma IncrementalExactIff(feed: Feed, cursors: set<Cursor>, srv: Timeline, s: Schedule,
                            id: string, c: string, k: nat, previous: History)
    requires ReadsOn(feed, cursors, srv, s, id, c, k, previous)
    ensures ExactIff(ReadHistorySpec(feed, cursors, k, id, Some(previous)), s, k, previous, srv)
  {
    var r := ReadHistorySpec(feed, cursors, k, id, Some(previous));
    ReadsOnEnds(feed, cursors, srv, s, id, c, k, previous);
    ReadsOnAgrees(feed, cursors, srv, s, id, c, k, previous);
    var T := s.tw(r.1 - 1);
    if Exact(r.0.history, srv(T)) { ExactOnlyIfClean(feed, cursors, srv, s, id, c, k, previous, T); }
  }

  lemma ReadsOnAgrees(feed: Feed, cursors: set<Cursor>, srv: Timeline, s: Schedule,
                      id: string, c: string, k: nat, previous: History)
    requires ReadsOn(feed, cursors, srv, s, id, c, k, previous)
    ensures var r := ReadHistorySpec(feed, cursors, k, id, Some(previous));
            && CompleteOutcome(r, srv, s, id)
            && (CacheClean(previous, srv(s.tr(k))) ==> AgreeingOutcome(r, srv, s))
  {
    ReadsOnEnds(feed, cursors, srv, s, id, c, k, previous);
    ConversationReadAgrees(feed, cursors, srv, s, id, c, k, Some(previous));
  }

  /** Every page up to the last one brings only rows from this set. */
  ghost predicate PagesWithin(feed: Feed, rows: set<Message>, last: nat) {
    forall k: nat, c: Option<Cursor>, m {:trigger m in feed(k, c).page.items} ::
      k <= last && feed(k, c).Answer? && m in feed(k, c).page.items ==> m in rows
  }

  ghost predicate Within(ms: seq<Message>, rows: set<Message>) {
    forall m :: m in ms ==> m in rows
  }

  lemma PublishWithin(id: string, st: Loop, rows: set<Message>)
    requires Within(st.messages, rows)
    ensures Within(Publish(id, st).messages, rows)
  {
    SortedSpec(st.messages);
    SameElements(Sorted(st.messages), st.messages);
  }

  lemma PageWithin(id: string, incremental: bool, st: Loop, page: Page, rows: set<Message>)
    requires UniqueIds(st.messages) && Within(st.messages, rows) && Within(page.items, rows)
    requires AbsorbPage(id, incremental, st, page).Continue?
    ensures var ms := AbsorbPage(id, incremental, st, page).loop.messages; UniqueIds(ms) && Within(ms, rows)
  {
    AbsorbKeeps(id, incremental, st.messages, page.items);
  }

  /** Whatever a read publishes, it found in its cache or on its pages. */
  lemma {:induction false} ReadWithin(feed: Feed, cursors: set<Cursor>, id: string, incremental: bool, k: nat, st: Loop,
                                      rows: set<Message>, last: nat)
    requires FiniteCursors(feed, cursors) && UniqueIds(st.messages) && Within(st.messages, rows) && PagesWithin(feed, rows, last)
    ensures var r := ReadFrom(feed, cursors, id, incremental, k, st);
            r.0.Done? && r.1 <= last + 1 ==> Within(r.0.history.messages, rows)
    decreases cursors - st.seen
  {
    var reply := feed(k, st.cursor);
    var r := ReadFrom(feed, cursors, id, incremental, k, st);
    if r.0.Done? && r.1 <= last + 1 {
      var st' := AbsorbPage(id, incremental, st, reply.page).loop;
      PageWithin(id, incremental, st, reply.page, rows);
      if st'.cursor.Some? {
        assert st'.cursor.value in cursors - st.seen && st'.cursor.value !in cursors - st'.seen;
        ReadWithin(feed, cursors, id, incremental, k + 1, st', rows, last);
      } else {
        PublishWithin(id, st', rows);
      }
    }
  }

  lemma EarlierPage(s: Schedule, k: nat, last: nat)
    requires Monotone(s) && k <= last
    ensures s.tw(k) <= s.tw(last)
  {
    if k < last {
      assert RequestInOrder(s, k);
      ScheduleAdvances(s, k + 1, last);
    }
  }

  lemma PagesAreGenuine(feed: Feed, srv: Timeline, s: Schedule, c: string, last: nat, t: nat)
    requires Runs(srv, c) && Monotone(s) && Honest(feed, srv, s) && s.tw(last) <= t
    ensures PagesWithin(feed, EverHeld(srv, t), last)
  {
    forall k: nat, x: Option<Cursor>, m | k <= last && feed(k, x).Answer? && m in feed(k, x).page.items
      ensures m in EverHeld(srv, t)
    {
      EarlierPage(s, k, last);
      AlwaysValid(srv, c, s.tw(k));
      PageRows(srv(s.tr(k)).revision, srv(s.tw(k)).messages, x);
      EverHeldGrows(srv, s.tw(k), t);
    }
  }

  lemma StartWithin(id: string, previous: Option<History>, rows: set<Message>)
    requires previous.Some? ==> Within(previous.value.messages, rows)
    ensures UniqueIds(Start(id, previous).messages) && Within(Start(id, previous).messages, rows)
  {
    if previous.Some? { FromListSpec(previous.value.messages); }
  }

  lemma ConversationReadWithin(feed: Feed, cursors: set<Cursor>, id: string, k: nat, previous: Option<History>,
                               rows: set<Message>, last: nat)
    requires FiniteCursors(feed, cursors) && PagesWithin(feed, rows, last)
    requires previous.Some? ==> Within(previous.value.messages, rows)
    ensures var r := ReadConversationSpec(feed, cursors, k, id, previous);
            r.0.Done? && r.1 <= last + 1 ==> Within(r.0.history.messages, rows)
  {
    StartWithin(id, previous, rows);
    StartWithin(id, None, rows);
    var k' := ReadHistorySpec(feed, cursors, k, id, previous).1;
    ReadWithin(feed, cursors, id, false, k', Start(id, None), rows, last);
    ReadWithin(feed, cursors, id, Incremental(id, previous), k, Start(id, previous), rows, last);
  }

  /** A read that ended by t publishes only rows the server held at some time up to t. */
  lemma ConversationReadIsGenuine(feed: Feed, cursors: set<Cursor>, srv: Timeline, s: Schedule,
                                  id: string, c: string, k: nat, previous: Option<History>, t: nat)
    requires Reading(feed, cursors, srv, s, id, c) && (previous.Some? ==> Genuine(previous.value.messages, srv, t))
    requires s.tw(ReadConversationSpec(feed, cursors, k, id, previous).1 - 1) <= t
    ensures var r := ReadConversationSpec(feed, cursors, k, id, previous);
            r.0.Done? ==> Genuine(r.0.history.messages, srv, t)
  {
    var last := ReadConversationSpec(feed, cursors, k, id, previous).1 - 1;
    PagesAreGenuine(feed, srv, s, c, last, t);
    ConversationReadWithin(feed, cursors, id, k, previous, EverHeld(srv, t), last);
  }

  // ---------- no false alarms ----------

  ghost predicate Atomic(s: Schedule) {
    forall k: nat {:trigger s.tw(k)} :: s.tw(k) == s.tr(k)
  }

  /** The revision a read compares every page against. */
  function Reference(st: Loop, s: Server): int {
    if st.revision.Known? then st.revision.number else s.revision
  }

  ghost predicate SeenBehind(st: Loop) {
    forall x :: x in st.seen ==> x.position <= CursorPosition(st.cursor)
  }

  lemma CleanRows(s: Server, st: Loop)
    requires Tracks(st, s) && Clean(st, s) && s.revision == Reference(st, s)
    ensures forall m :: m in st.messages ==> m in s.messages
  {}

  lemma PageAbsorbed(s: Server, id: string, c: string, incremental: bool, st: Loop)
    requires Valid(s) && (forall m :: m in s.messages ==> m.conversation == c) && ConversationKey(c) == ConversationKey(id)
    requires UniqueIds(st.messages) && forall m :: m in st.messages ==> m in s.messages
    ensures AbsorbItems(id, incremental, st.messages, PageOf(s.revision, s.messages, st.cursor).items).Kept?
  {
    PageRows(s.revision, s.messages, st.cursor);
    AbsorbSucceeds(id, incremental, st.messages, PageOf(s.revision, s.messages, st.cursor).items, s.messages);
  }

  lemma PageAccepted(srv: Timeline, id: string, c: string, incremental: bool, t: nat, st: Loop)
    requires Runs(srv, c) && ConversationKey(c) == ConversationKey(id)
    requires Tracks(st, srv(t)) && Clean(st, srv(t)) && SeenBehind(st)
    requires srv(t).revision == Reference(st, srv(t))
    ensures var turn := AbsorbPage(id, incremental, st, PageOf(srv(t).revision, srv(t).messages, st.cursor));
            turn.Continue? && (turn.loop.cursor.Some? ==> SeenBehind(turn.loop))
  {
    var S := srv(t);
    AlwaysValid(srv, c, t);
    CleanRows(S, st);
    PageAbsorbed(S, id, c, incremental, st);
    BarePageAccepted(S, id, incremental, st);
  }

  lemma BarePageAccepted(s: Server, id: string, incremental: bool, st: Loop)
    requires Ordered(s.messages) && 0 < s.revision <= MAX_SAFE_INTEGER && SeenBehind(st)
    requires st.revision.Unset? || st.revision == Known(s.revision)
    requires AbsorbItems(id, incremental, st.messages, PageOf(s.revision, s.messages, st.cursor).items).Kept?
    ensures var turn := AbsorbPage(id, incremental, st, PageOf(s.revision, s.messages, st.cursor));
            turn.Continue? && (turn.loop.cursor.Some? ==> SeenBehind(turn.loop))
  {
    var page := PageOf(s.revision, s.messages, st.cursor);
    PageRows(s.revision, s.messages, st.cursor);
    assert HasCheckpoint(page) && PageRevision(page) == Known(s.revision);
    assert page.next.Some? ==> page.next.value !in st.seen;
  }

  ghost predicate Lost(feed: Feed, k: nat, c: Option<Cursor>) {
    feed(k, c).NetworkError?
  }

  ghost predicate RequestLost(feed: Feed, k: nat) {
    exists c :: Lost(feed, k, c)
  }

  /** Why an attempt ended the way it did. */
  ghost predicate Justified(r: (Outcome, nat), feed: Feed, srv: Timeline, s: Schedule, reference: int) {
    && r.1 > 0
    && (r.0.HistoryChanged? ==> srv(s.tr(r.1 - 1)).revision != reference)
    && (r.0.Error? ==> RequestLost(feed, r.1 - 1))
    && (r.0.Done? ==> srv(s.tr(r.1 - 1)).revision == reference)
  }

  lemma AcceptedPageGoesOn(srv: Timeline, s: Schedule, id: string, c: string, incremental: bool, k: nat, st: Loop)
    requires Runs(srv, c) && ConversationKey(c) == ConversationKey(id) && Monotone(s) && Atomic(s)
    requires Tracks(st, srv(s.tr(k))) && Clean(st, srv(s.tr(k))) && SeenBehind(st)
    requires srv(s.tr(k)).revision == Reference(st, srv(s.tr(k)))
    ensures var turn := AbsorbPage(id, incremental, st, PageOf(srv(s.tr(k)).revision, srv(s.tw(k)).messages, st.cursor));
            && turn.Continue?
            && (turn.loop.cursor.Some? ==>
                  && Tracks(turn.loop, srv(s.tr(k + 1))) && Clean(turn.loop, srv(s.tr(k + 1))) && SeenBehind(turn.loop)
                  && turn.loop.revision == Known(srv(s.tr(k)).revision))
  {
    assert s.tw(k) == s.tr(k);
    PageAccepted(srv, id, c, incremental, s.tr(k), st);
    PageCovers(srv, s, id, c, incremental, k, st);
    PageClean(srv, s, id, c, incremental, k, st);
  }

  lemma StopIsJustified(feed: Feed, cursors: set<Cursor>, srv: Timeline, s: Schedule,
                        id: string, c: string, incremental: bool, k: nat, st: Loop)
    requires Reading(feed, cursors, srv, s, id, c) && Tracks(st, srv(s.tr(k)))
    requires feed(k, st.cursor).NetworkError? || srv(s.tr(k)).revision != Reference(st, srv(s.tr(k)))
    ensures Justified(ReadFrom(feed, cursors, id, incremental, k, st), feed, srv, s, Reference(st, srv(s.tr(k))))
  {
    var reply := feed(k, st.cursor);
    if reply.NetworkError? {
      assert Lost(feed, k, st.cursor);
    } else {
      AlwaysValid(srv, c, s.tr(k));
      assert AbsorbPage(id, incremental, st, reply.page) == Changed;
    }
  }

  /**
    With pages read atomically a read restarts exactly when the server's revision moved away
    from the cached one (or from its own first page), and fails only when a request was lost.
   */
  lemma {:induction false} ReadIsJustified(feed: Feed, cursors: set<Cursor>, srv: Timeline, s: Schedule,
                                           id: string, c: string, incremental: bool, k: nat, st: Loop)
    requires Reading(feed, cursors, srv, s, id, c) && Atomic(s)
    requires Tracks(st, srv(s.tr(k))) && Clean(st, srv(s.tr(k))) && SeenBehind(st)
    ensures Justified(ReadFrom(feed, cursors, id, incremental, k, st), feed, srv, s, Reference(st, srv(s.tr(k))))
    decreases cursors - st.seen
  {
    var reply := feed(k, st.cursor);
    if reply.NetworkError? || srv(s.tr(k)).revision != Reference(st, srv(s.tr(k))) {
      StopIsJustified(feed, cursors, srv, s, id, c, incremental, k, st);
    } else {
      AcceptedPageGoesOn(srv, s, id, c, incremental, k, st);
      var st' := AbsorbPage(id, incremental, st, reply.page).loop;
      if st'.cursor.Some? {
        assert st'.cursor.value in cursors - st.seen && st'.cursor.value !in cursors - st'.seen;
        ReadIsJustified(feed, cursors, srv, s, id, c, incremental, k + 1, st');
        assert ReadFrom(feed, cursors, id, incremental, k, st) == ReadFrom(feed, cursors, id, incremental, k + 1, st');
      } else {
        assert ReadFrom(feed, cursors, id, incremental, k, st) == (Done(Publish(id, st')), k + 1);
      }
    }
  }

  /** A conversation that stops growing offers finitely many cursors, so every read ends. */
  lemma BoundedServerEnds(feed: Feed, srv: Timeline, s: Schedule, c: string, limit: int)
    requires Runs(srv, c) && Honest(feed, srv, s) && forall t: nat :: srv(t).clock <= limit
    ensures FiniteCursors(feed, set p | 0 < p <= limit :: Cursor(p))
  {
    forall k: nat, x: Option<Cursor> | feed(k, x).Answer? && feed(k, x).page.next.Some?
      ensures feed(k, x).page.next.value in (set p | 0 < p <= limit :: Cursor(p))
    {
      AlwaysValid(srv, c, s.tw(k));
      PageRows(srv(s.tr(k)).revision, srv(s.tw(k)).messages, x);
      var p := feed(k, x).page.next.value.position;
      assert HasRowAt(srv(s.tw(k)).messages, p);
      assert 0 < p <= limit && Cursor(p) == feed(k, x).page.next.value;
    }
  }

  // ---------- a read of a server that stands still ----------

  function Frozen(s: Server): Feed {
    (k: nat, x: Option<Cursor>) => Answer(PageOf(s.revision, s.messages, x))
  }

  function Still(t: nat): Schedule {
    Schedule((k: nat) => t, (k: nat) => t)
  }

  function CursorsUpTo(limit: int): set<Cursor> {
    set p | 0 < p <= limit :: Cursor(p)
  }

  lemma FrozenIsReading(srv: Timeline, t: nat, id: string, c: string)
    requires Runs(srv, c) && ConversationKey(c) == ConversationKey(id)
    ensures Reading(Frozen(srv(t)), CursorsUpTo(srv(t).clock), srv, Still(t), id, c) && Atomic(Still(t))
  {
    var feed, limit := Frozen(srv(t)), srv(t).clock;
    AlwaysValid(srv, c, t);
    forall k: nat, x: Option<Cursor> | feed(k, x).Answer? && feed(k, x).page.next.Some?
      ensures feed(k, x).page.next.value in CursorsUpTo(limit)
    {
      PageRows(srv(t).revision, srv(t).messages, x);
      var p := feed(k, x).page.next.value.position;
      assert HasRowAt(srv(t).messages, p);
      assert 0 < p <= limit && Cursor(p) == feed(k, x).page.next.value;
    }
    forall k: nat ensures RequestInOrder(Still(t), k) {}
  }

  lemma NothingLost(s: Server, k: nat)
    ensures !RequestLost(Frozen(s), k)
  {
    forall x: Option<Cursor> ensures !Lost(Frozen(s), k, x) {}
  }

  /** From nothing, it publishes just the list the server holds. */
  lemma FrozenRead(srv: Timeline, t: nat, id: string, c: string)
    requires Runs(srv, c) && ConversationKey(c) == ConversationKey(id)
    ensures Reading(Frozen(srv(t)), CursorsUpTo(srv(t).clock), srv, Still(t), id, c)
    ensures var r := ReadConversationSpec(Frozen(srv(t)), CursorsUpTo(srv(t).clock), 0, id, None);
            r.0.Done? && r.0.history.messages == srv(t).messages
  {
    var feed, cursors, s := Frozen(srv(t)), CursorsUpTo(srv(t).clock), Still(t);
    FrozenIsReading(srv, t, id, c);
    AlwaysValid(srv, c, t);
    StartTracks(id, None, srv(t));
    var st := Start(id, None);
    ReadIsJustified(feed, cursors, srv, s, id, c, false, 0, st);
    var r := ReadFrom(feed, cursors, id, false, 0, st);
    assert !RequestLost(feed, r.1 - 1) by { NothingLost(srv(t), r.1 - 1); }
    assert r.0.Done?;
    ReadIsExact(feed, cursors, srv, s, id, c, false, 0, st);
  }

  // ---------- the one gap: a change between a page's two statements ----------

  const FIRST := Message("a", "room", "user", "hello", 1, 1)
  const HELD := Server(1, [FIRST], {"a"}, 1)
  const REWOUND := Server(2, [], {"a"}, 1)
  const CACHE := History("room", [FIRST], Some(1), Some(Cursor(1)))

  function SplitTimeline(t: nat): Server {
    if t == 0 then HELD else REWOUND
  }

  function SplitFeed(k: nat, x: Option<Cursor>): Reply {
    Answer(PageOf(SplitTimeline(0).revision, SplitTimeline(1).messages, x))
  }

  lemma OneRowLists()
    ensures FromList([FIRST]) == [FIRST] && Sorted([FIRST]) == [FIRST]
  {
    assert [FIRST][..0] == [];
    assert FromList([FIRST][..0]) == [] && Sorted([FIRST][..0]) == [];
  }

  lemma SplitTimelineRuns()
    ensures Runs(SplitTimeline, "room")
  {
    assert Valid(HELD);
    assert RewindStep(HELD, REWOUND) by { assert REWOUND.messages == HELD.messages[..0]; }
    forall t: nat ensures StepAt(SplitTimeline, t) {}
  }

  /** The revision is read, the only message is rewound, and then the rows are read. */
  lemma SplitPageKeepsDroppedRow()
    ensures Runs(SplitTimeline, "room") && FiniteCursors(SplitFeed, {})
    ensures CacheTracks(CACHE, SplitTimeline(0)) && CacheClean(CACHE, SplitTimeline(0))
    ensures ReadConversationSpec(SplitFeed, {}, 0, "room", Some(CACHE)) == (Done(CACHE), 1)
    ensures CACHE.messages != SplitTimeline(1).messages
  {
    SplitTimelineRuns();
    OneRowLists();
    assert FIRST in [FIRST] && FIRST.id in Ids([FIRST]);
    var page := PageOf(1, [], Some(Cursor(1)));
    assert page == Page([], None, Some(1), At(Cursor(1)));
    var st := Start("room", Some(CACHE));
    assert AbsorbPage("room", true, st, page) == Continue(Loop([FIRST], None, Known(1), Some(Cursor(1)), {Cursor(1)}));
    assert ReadFrom(SplitFeed, {}, "room", true, 0, st) == (Done(CACHE), 1);
  }
}
