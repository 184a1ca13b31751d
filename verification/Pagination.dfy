/** Cursor pages in descending order of creation time and id, read from a table that may change. */
module Pagination {
  import opened Wrappers

  /** What a row is ordered and continued by. Rows of one table differ in their id. */
  datatype Key = Key(created: int, id: int)

  predicate Less(a: Key, b: Key) {
    a.created < b.created || (a.created == b.created && a.id < b.id)
  }

  predicate Before(k: Key, cursor: Option<Key>) {
    cursor.Some? ==> Less(k, cursor.value)
  }

  ghost predicate Descending(keys: seq<Key>) {
    forall i, j :: 0 <= i < j < |keys| ==> Less(keys[j], keys[i])
  }

  // ---------- the query: filter, order, limit ----------

  ghost predicate Greatest(k: Key, table: set<Key>) {
    k in table && forall x :: x in table && x != k ==> Less(x, k)
  }

  lemma {:induction false} HasGreatest(table: set<Key>)
    requires table != {}
    ensures exists k :: Greatest(k, table)
    decreases |table|
  {
    var x :| x in table;
    var rest := table - {x};
    if rest == {} {
      assert table == {x};
      assert Greatest(x, table);
    } else {
      HasGreatest(rest);
      var k :| Greatest(k, rest);
      var top := if Less(x, k) then k else x;
      forall y | y in table && y != top ensures Less(y, top) { assert y == x || y in rest; }
      assert Greatest(top, table);
    }
  }

  /** A table in descending order. */
  ghost function Ordered(table: set<Key>): seq<Key>
    decreases |table|
  {
    if table == {} then []
    else
      HasGreatest(table);
      var k :| Greatest(k, table);
      [k] + Ordered(table - {k})
  }

  ghost function After(table: set<Key>, cursor: Option<Key>): set<Key> {
    set k | k in table && Before(k, cursor)
  }

  function Clamped(limit: int, maxLimit: int): int {
    var atLeastOne := if limit < 1 then 1 else limit;
    if atLeastOne < maxLimit then atLeastOne else maxLimit
  }

  function Take<T>(xs: seq<T>, n: int): seq<T> {
    if n <= 0 then [] else if n < |xs| then xs[..n] else xs
  }

  datatype Page = Page(items: seq<Key>, next: Option<Key>)

  /** One row more than asked for tells whether a page follows. A negative row limit is an error. */
  ghost function FetchPage(table: set<Key>, cursor: Option<Key>, limit: int, maxLimit: int): Option<Page> {
    var n := Clamped(limit, maxLimit);
    if n + 1 < 0 then None
    else
      var rows := Take(Ordered(After(table, cursor)), n + 1);
      var items := Take(rows, n);
      Some(Page(items, if |rows| > n && items != [] then Some(items[|items| - 1]) else None))
  }

  // ---------- following the cursor ----------

  /** The table and the requested size at one page read. */
  datatype Visit = Visit(table: set<Key>, limit: int)

  datatype Walked = Walked(items: seq<Key>, ended: bool)

  /** Page after page until no cursor comes back; the table may differ at every read. */
  ghost function Walk(visits: seq<Visit>, cursor: Option<Key>, maxLimit: int): Walked {
    if visits == [] then Walked([], false)
    else
      var page := FetchPage(visits[0].table, cursor, visits[0].limit, maxLimit);
      if page.None? then Walked([], false)
      else if page.value.next.None? then Walked(page.value.items, true)
      else
        var rest := Walk(visits[1..], page.value.next, maxLimit);
        Walked(page.value.items + rest.items, rest.ended)
  }

  // ---------- the ordered table ----------

  lemma {:induction false} OrderedIs(table: set<Key>)
    ensures Descending(Ordered(table)) && |Ordered(table)| == |table|
    ensures forall k :: k in Ordered(table) <==> k in table
    decreases |table|
  {
    if table != {} {
      HasGreatest(table);
      var k := Ordered(table)[0];
      var rest := Ordered(table)[1..];
      assert Greatest(k, table) && rest == Ordered(table - {k});
      OrderedIs(table - {k});
      forall j | 0 <= j < |rest| ensures Less(rest[j], k) { assert rest[j] in rest; }
      assert Ordered(table) == [k] + rest;
      assert forall x :: x in Ordered(table) <==> x == k || x in rest;
    }
  }

  lemma FirstIn<T>(xs: seq<T>)
    ensures xs != [] ==> xs[0] in xs
  {}

  /** There is only one descending list of a table's rows. */
  lemma {:induction false} DescendingUnique(a: seq<Key>, b: seq<Key>)
    requires Descending(a) && Descending(b) && forall k :: k in a <==> k in b
    ensures a == b
  {
    FirstIn(b);
    if a != [] {
      assert a[0] in b;
      assert b[0] in a;
      var i :| 0 <= i < |b| && b[i] == a[0];
      var j :| 0 <= j < |a| && a[j] == b[0];
      assert a[0] == b[0];
      TailMembers(a);
      TailMembers(b);
      DescendingUnique(a[1..], b[1..]);
      assert a == [a[0]] + a[1..] && b == [b[0]] + b[1..];
    }
  }

  lemma TailMembers(a: seq<Key>)
    requires Descending(a) && a != []
    ensures forall k :: k in a[1..] <==> k in a && k != a[0]
  {
    forall k | k in a[1..] ensures k in a && k != a[0] {
      var i :| 0 <= i < |a[1..]| && a[1..][i] == k;
      assert a[i + 1] == k;
    }
    forall k | k in a && k != a[0] ensures k in a[1..] {
      var i :| 0 <= i < |a| && a[i] == k;
      assert a[1..][i - 1] == k;
    }
  }

  // ---------- one page ----------

  /** A page is the start of what is left, and its cursor says whether and where to go on. */
  lemma PageTakes(table: set<Key>, cursor: Option<Key>, limit: int, maxLimit: int)
    requires maxLimit >= 1
    ensures var n, all := Clamped(limit, maxLimit), Ordered(After(table, cursor));
            && n >= 1 && FetchPage(table, cursor, limit, maxLimit)
               == Some(if n < |all| then Page(all[..n], Some(all[n - 1])) else Page(all, None))
  {
    var n, all := Clamped(limit, maxLimit), Ordered(After(table, cursor));
    if n < |all| { assert all[..n + 1][..n] == all[..n]; }
  }

  lemma RestIsBehind(all: seq<Key>, n: nat, k: Key)
    requires Descending(all) && 1 <= n < |all| && k in all && k !in all[..n]
    ensures Less(k, all[n - 1])
  {
    var i :| 0 <= i < |all| && all[i] == k;
  }

  /** What a page leaves out lies behind its cursor. */
  ghost predicate CoversTo(table: set<Key>, cursor: Option<Key>, p: Page) {
    forall k :: k in table && Before(k, cursor) && k !in p.items ==> p.next.Some? && Less(k, p.next.value)
  }

  /** The start of a descending list, and the cursor to the rest. */
  function Cut(all: seq<Key>, n: nat): Page
    requires n >= 1
  {
    if n < |all| then Page(all[..n], Some(all[n - 1])) else Page(all, None)
  }

  lemma CutIs(all: seq<Key>, n: nat)
    requires Descending(all) && n >= 1
    ensures var p := Cut(all, n);
            && Descending(p.items) && |p.items| <= n && (forall k :: k in p.items ==> k in all)
            && (forall k :: k in all && k !in p.items ==> p.next.Some? && Less(k, p.next.value))
            && (p.next.Some? ==> p.items != [] && p.next.value == p.items[|p.items| - 1])
  {
    var p := Cut(all, n);
    if n < |all| {
      forall k | k in p.items ensures k in all { var i :| 0 <= i < n && all[..n][i] == k; assert all[i] == k; }
      forall k | k in all && k !in p.items ensures Less(k, all[n - 1]) { RestIsBehind(all, n, k); }
    }
  }

  /**
    A page holds rows of the table behind the cursor, in descending order; it leaves out only rows
    behind its last one, and then its cursor is that last row. A page without rows has no cursor.
   */
  lemma PageIs(table: set<Key>, cursor: Option<Key>, limit: int, maxLimit: int)
    requires maxLimit >= 1
    ensures FetchPage(table, cursor, limit, maxLimit).Some?
    ensures var p := FetchPage(table, cursor, limit, maxLimit).value;
            && Descending(p.items) && |p.items| <= Clamped(limit, maxLimit)
            && (forall k :: k in p.items ==> k in table && Before(k, cursor))
            && CoversTo(table, cursor, p)
            && (p.next.Some? ==> p.items != [] && p.next.value == p.items[|p.items| - 1])
  {
    var rows := After(table, cursor);
    OrderedIs(rows);
    PageTakes(table, cursor, limit, maxLimit);
    CutIs(Ordered(rows), Clamped(limit, maxLimit));
    PageCovers(table, cursor, Ordered(rows), FetchPage(table, cursor, limit, maxLimit).value);
  }

  /** A page is full, as full as the request and the cap allow, unless it takes all that is left. */
  lemma PageIsFull(table: set<Key>, cursor: Option<Key>, limit: int, maxLimit: int)
    requires maxLimit >= 1
    ensures FetchPage(table, cursor, limit, maxLimit).Some?
    ensures var p, left := FetchPage(table, cursor, limit, maxLimit).value, |After(table, cursor)|;
            && (p.next.Some? <==> |p.items| < left)
            && (1 <= limit <= maxLimit ==> |p.items| == if limit < left then limit else left)
            && (limit < 1 ==> |p.items| == if left == 0 then 0 else 1)
            && (limit > maxLimit ==> |p.items| == if maxLimit < left then maxLimit else left)
  {
    OrderedIs(After(table, cursor));
    PageTakes(table, cursor, limit, maxLimit);
  }

  lemma PageCovers(table: set<Key>, cursor: Option<Key>, all: seq<Key>, p: Page)
    requires forall k :: k in all <==> k in After(table, cursor)
    requires forall k :: k in p.items ==> k in all
    requires forall k :: k in all && k !in p.items ==> p.next.Some? && Less(k, p.next.value)
    ensures forall k :: k in p.items ==> k in table && Before(k, cursor)
    ensures CoversTo(table, cursor, p)
  {
    forall k | k in table && Before(k, cursor) && k !in p.items ensures p.next.Some? && Less(k, p.next.value) {
      assert k in After(table, cursor);
    }
  }

  // ---------- the whole walk ----------

  lemma {:induction false} WalkDescends(visits: seq<Visit>, cursor: Option<Key>, maxLimit: int)
    requires maxLimit >= 1
    ensures var items := Walk(visits, cursor, maxLimit).items;
            Descending(items) && forall k :: k in items ==> Before(k, cursor) && exists i :: 0 <= i < |visits| && k in visits[i].table
  {
    if visits != [] {
      PageIs(visits[0].table, cursor, visits[0].limit, maxLimit);
      var p := FetchPage(visits[0].table, cursor, visits[0].limit, maxLimit).value;
      var w := Walk(visits, cursor, maxLimit);
      if p.next.None? {
        forall k | k in w.items ensures Before(k, cursor) && exists i :: 0 <= i < |visits| && k in visits[i].table { assert k in visits[0].table; }
      } else {
        WalkDescends(visits[1..], p.next, maxLimit);
        JoinDescends(p.items, Walk(visits[1..], p.next, maxLimit).items, p.next.value);
        forall k | k in w.items ensures Before(k, cursor) && exists i :: 0 <= i < |visits| && k in visits[i].table {
          if k in p.items { assert k in visits[0].table; }
          else {
            var i :| 0 <= i < |visits[1..]| && k in visits[1..][i].table;
            assert k in visits[i + 1].table;
            assert p.next.value in p.items;
          }
        }
      }
    }
  }

  lemma JoinDescends(a: seq<Key>, b: seq<Key>, last: Key)
    requires Descending(a) && Descending(b) && a != [] && a[|a| - 1] == last
    requires forall k :: k in b ==> Less(k, last)
    ensures Descending(a + b)
  {
    var r := a + b;
    forall i, j | 0 <= i < j < |r| ensures Less(r[j], r[i]) {
      if i < |a| <= j { assert r[j] in b && (i == |a| - 1 || Less(last, a[i])); }
    }
  }

  /** A row that was there at every read is returned, if the walk reaches its end. */
  lemma {:induction false} WalkComplete(visits: seq<Visit>, cursor: Option<Key>, maxLimit: int, k: Key)
    requires maxLimit >= 1 && Walk(visits, cursor, maxLimit).ended && Before(k, cursor)
    requires forall i :: 0 <= i < |visits| ==> k in visits[i].table
    ensures k in Walk(visits, cursor, maxLimit).items
  {
    PageIs(visits[0].table, cursor, visits[0].limit, maxLimit);
    var p := FetchPage(visits[0].table, cursor, visits[0].limit, maxLimit).value;
    if k !in p.items { WalkComplete(visits[1..], p.next, maxLimit, k); }
  }

  /** Rows come in strictly descending order, none twice, each from the table as some page read it. */
  lemma WalkNeverRepeats(visits: seq<Visit>, maxLimit: int)
    requires maxLimit >= 1
    ensures var items := Walk(visits, None, maxLimit).items;
            && (forall i, j :: 0 <= i < j < |items| ==> Less(items[j], items[i]) && items[i] != items[j])
            && forall k :: k in items ==> exists i :: 0 <= i < |visits| && k in visits[i].table
  {
    WalkDescends(visits, None, maxLimit);
  }

  // ---------- a table that does not change ----------

  ghost predicate Same(visits: seq<Visit>, table: set<Key>) {
    forall i :: 0 <= i < |visits| ==> visits[i].table == table
  }

  /** Enough visits reach the end: every page but the last returns a row. */
  lemma {:induction false} FixedEnds(visits: seq<Visit>, table: set<Key>, cursor: Option<Key>, maxLimit: int)
    requires maxLimit >= 1 && Same(visits, table) && |visits| > |After(table, cursor)|
    ensures Walk(visits, cursor, maxLimit).ended
  {
    PageIs(visits[0].table, cursor, visits[0].limit, maxLimit);
    var p := FetchPage(visits[0].table, cursor, visits[0].limit, maxLimit).value;
    if p.next.Some? {
      var now, later := After(table, cursor), After(table, p.next);
      assert p.next.value in p.items && p.next.value in now && p.next.value !in later;
      assert later <= now - {p.next.value};
      Smaller(later, now - {p.next.value});
      FixedEnds(visits[1..], table, p.next, maxLimit);
    }
  }

  lemma Smaller(a: set<Key>, b: set<Key>)
    requires a <= b
    ensures |a| <= |b|
    decreases |a|
  {
    if a != {} {
      var x :| x in a;
      Smaller(a - {x}, b - {x});
    }
  }

  /** On a fixed table the pages, one after the other, are the table in order. */
  lemma FixedWalk(visits: seq<Visit>, table: set<Key>, maxLimit: int)
    requires maxLimit >= 1 && Same(visits, table) && |visits| > |table|
    ensures Walk(visits, None, maxLimit) == Walked(Ordered(table), true)
  {
    assert After(table, None) == table;
    FixedEnds(visits, table, None, maxLimit);
    var w := Walk(visits, None, maxLimit);
    WalkDescends(visits, None, maxLimit);
    OrderedIs(table);
    forall k | k in table ensures k in w.items { WalkComplete(visits, None, maxLimit, k); }
    DescendingUnique(w.items, Ordered(table));
  }

  /** The pages give the whole table exactly when the cap allows a row per page, or there is no row. */
  lemma FixedWalkIff(visits: seq<Visit>, table: set<Key>, maxLimit: int)
    requires Same(visits, table) && |visits| > |table|
    ensures Walk(visits, None, maxLimit).items == Ordered(table) <==> maxLimit >= 1 || table == {}
  {
    assert After(table, None) == table;
    OrderedIs(table);
    if maxLimit >= 1 {
      FixedWalk(visits, table, maxLimit);
    } else {
      assert Clamped(visits[0].limit, maxLimit) == maxLimit;
      assert Walk(visits, None, maxLimit).items == [];
    }
  }
}
