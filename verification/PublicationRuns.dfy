/** What publication keeps over whole runs of saves, preparations and publications. */
module PublicationRuns {
  import opened Wrappers
  import opened Rows
  import opened StudioProject
  import opened StudioPublication

  // ---------- receipts are write-once ----------

  function Receipts(s: Product): map<int, Receipt> {
    if s.draft.Some? && s.draft.value.stored.Some? && s.draft.value.stored.value.studio.Some?
    then s.draft.value.stored.value.studio.value.receipts else map[]
  }

  ghost predicate Grows(before: Product, after: Product) {
    && (forall r :: r in Receipts(before) ==> r in Receipts(after) && Receipts(after)[r] == Receipts(before)[r])
    && before.snapshots <= after.snapshots
    && (before.draft.Some? ==> after.draft.Some? && before.draft.value.revision <= after.draft.value.revision)
  }

  datatype Event =
    | Save(expected: Option<int>, document: Project, acceptable: bool)
    | Prepare(revision: int, acceptable: bool)
    | Publish(command: Command, acceptable: bool)

  function Apply(s: Product, e: Event): Product {
    match e
    case Save(expected, document, acceptable) => Saved(s, expected, document, acceptable).0
    case Prepare(revision, acceptable) => Prepared(s, revision, acceptable).0
    case Publish(c, acceptable) => Published(s, c, acceptable).0
  }

  function Run(s: Product, events: seq<Event>): Product
    decreases events
  {
    if events == [] then s else Run(Apply(s, events[0]), events[1..])
  }

  lemma ReconciledGrows(s: Product, m: Mapping, c: Command)
    requires s.draft.Some? && Reconciled(s, m, c).Some?
    ensures var r := Reconciled(s, m, c).value;
            r.0.draft == s.draft && r.0.snapshots == s.snapshots + [Snapshot(c.model, c.effort)] && r.1.receipts == m.receipts
  {}

  lemma SaveGrows(s: Product, expected: Option<int>, document: Project, acceptable: bool)
    ensures Grows(s, Saved(s, expected, document, acceptable).0)
  {}

  lemma PrepareGrows(s: Product, revision: int, acceptable: bool)
    ensures Grows(s, Prepared(s, revision, acceptable).0)
  {}

  lemma RecordGrows(s: Product, s': Product, c: Command, m: Mapping, release: Release)
    requires s.draft.Some? && ComponentMapping(s).Ok? && c.revision !in m.receipts
    requires m.receipts == ComponentMapping(s).value.receipts
    requires s'.draft == s.draft && s.snapshots <= s'.snapshots
    ensures Grows(s, Recorded(s', c, m, release).0)
  {}

  lemma PublishGrows(s: Product, c: Command, acceptable: bool)
    ensures Grows(s, Published(s, c, acceptable).0)
  {
    if s.draft.Some? && ComponentMapping(s).Ok? {
      var m := ComponentMapping(s).value;
      if c.revision !in m.receipts {
        if Unchanged(s, c) { RecordGrows(s, s, c, m, s.draft.value.stored.value.release.value); }
        if Reconciled(s, m, c).Some? {
          ReconciledGrows(s, m, c);
          var r := Reconciled(s, m, c).value;
          RecordGrows(s, r.0, c, r.1, NewRelease(s, c));
        }
      }
    }
  }

  lemma StepGrows(s: Product, e: Event)
    ensures Grows(s, Apply(s, e))
  {
    match e
    case Save(expected, document, acceptable) => SaveGrows(s, expected, document, acceptable);
    case Prepare(revision, acceptable) => PrepareGrows(s, revision, acceptable);
    case Publish(c, acceptable) => PublishGrows(s, c, acceptable);
  }

  lemma {:induction false} RunGrows(s: Product, events: seq<Event>)
    ensures Grows(s, Run(s, events))
    decreases events
  {
    if events != [] {
      StepGrows(s, events[0]);
      RunGrows(Apply(s, events[0]), events[1..]);
    }
  }

  /** Without a receipt for its revision, a request that succeeds is recorded, here or after its writes. */
  lemma NewSuccess(s: Product, c: Command, acceptable: bool, m: Mapping)
    requires s.draft.Some? && ComponentMapping(s) == Ok(m) && c.revision !in m.receipts && Published(s, c, acceptable).1.Ok?
    ensures if Unchanged(s, c) then Published(s, c, acceptable) == Recorded(s, c, m, s.draft.value.stored.value.release.value)
            else Reconciled(s, m, c).Some? && Reconciled(s, m, c).value.0.draft == s.draft
                 && Published(s, c, acceptable) == Recorded(Reconciled(s, m, c).value.0, c, Reconciled(s, m, c).value.1, NewRelease(s, c))
  {}

  lemma SuccessLeavesReceipt(s: Product, c: Command, acceptable: bool)
    requires Published(s, c, acceptable).1.Ok?
    ensures var r := Published(s, c, acceptable);
            c.revision in Receipts(r.0) && Receipts(r.0)[c.revision] == Receipt(c, r.1.value)
  {
    var m := ComponentMapping(s).value;
    if c.revision in m.receipts {
      ReplayLeavesReceipt(s, c, acceptable, m);
    } else {
      NewSuccess(s, c, acceptable, m);
      if Unchanged(s, c) { RecordedReceipt(s, c, m, s.draft.value.stored.value.release.value); }
      else { RecordedReceipt(Reconciled(s, m, c).value.0, c, Reconciled(s, m, c).value.1, NewRelease(s, c)); }
    }
  }

  lemma RecordedReceipt(s: Product, c: Command, m: Mapping, release: Release)
    requires s.draft.Some?
    ensures var r := Recorded(s, c, m, release);
            r.1 == Ok(release) && c.revision in Receipts(r.0) && Receipts(r.0)[c.revision] == Receipt(c, release)
  {}

  lemma ReplayLeavesReceipt(s: Product, c: Command, acceptable: bool, m: Mapping)
    requires s.draft.Some? && ComponentMapping(s) == Ok(m) && c.revision in m.receipts && Published(s, c, acceptable).1.Ok?
    ensures Published(s, c, acceptable) == (s, Ok(m.receipts[c.revision].release)) && Receipts(s) == m.receipts
    ensures m.receipts[c.revision].command == c
  {}

  /** With a receipt on record, the request replays and every other request for it conflicts. */
  lemma ReceiptDecides(s: Product, c: Command, acceptable: bool)
    requires c.revision in Receipts(s)
    ensures Published(s, c, acceptable) ==
              (s, if Receipts(s)[c.revision].command == c then Ok(Receipts(s)[c.revision].release) else Conflict)
  {}

  /**
    Once a publication of revision r succeeded, then after any saves, preparations and
    publications the same request returns the same release and changes nothing, and a request
    for r with other parameters conflicts and changes nothing.
   */
  lemma PublishedForever(s: Product, c: Command, acceptable: bool, events: seq<Event>, other: Command, again: bool)
    requires Published(s, c, acceptable).1.Ok?
    requires other.revision == c.revision && other != c
    ensures var later := Run(Published(s, c, acceptable).0, events);
            && Published(later, c, again) == (later, Published(s, c, acceptable).1)
            && Published(later, other, again) == (later, Conflict)
  {
    SuccessLeavesReceipt(s, c, acceptable);
    RunGrows(Published(s, c, acceptable).0, events);
    var later := Run(Published(s, c, acceptable).0, events);
    ReceiptDecides(later, c, again);
    ReceiptDecides(later, other, again);
  }

  // ---------- each release shows what its request asked for ----------

  ghost predicate ShownBy(r: Receipt, snapshots: seq<Snapshot>) {
    r.release.snapshot < |snapshots| && snapshots[r.release.snapshot] == Snapshot(r.command.model, r.command.effort)
  }

  ghost predicate HonestReceipts(s: Product) {
    && (forall r :: r in Receipts(s) ==> ShownBy(Receipts(s)[r], s.snapshots))
    && (ReleaseOf(s).Some? ==> ReleaseOf(s).value.snapshot < |s.snapshots|)
  }

  lemma SaveHonest(s: Product, expected: Option<int>, document: Project, acceptable: bool)
    requires HonestReceipts(s)
    ensures HonestReceipts(Saved(s, expected, document, acceptable).0)
  {
    SaveReceipts(s, expected, document, acceptable);
  }

  lemma SaveReceipts(s: Product, expected: Option<int>, document: Project, acceptable: bool)
    ensures var s' := Saved(s, expected, document, acceptable).0;
            && Receipts(s') == Receipts(s) && s'.snapshots == s.snapshots && ReleaseOf(s') == ReleaseOf(s)
  {}

  /** The release stored with the draft. */
  function ReleaseOf(s: Product): Option<Release> {
    if s.draft.Some? && s.draft.value.stored.Some? then s.draft.value.stored.value.release else None
  }

  lemma PrepareHonest(s: Product, revision: int, acceptable: bool)
    requires HonestReceipts(s)
    ensures HonestReceipts(Prepared(s, revision, acceptable).0)
  {
    assert Receipts(Prepared(s, revision, acceptable).0) == Receipts(s);
  }

  lemma RecordHonest(s: Product, s': Product, c: Command, m: Mapping, release: Release)
    requires s.draft.Some? && s'.draft == s.draft && s.snapshots <= s'.snapshots
    requires HonestReceipts(s) && ComponentMapping(s).Ok? && m.receipts == ComponentMapping(s).value.receipts
    requires ShownBy(Receipt(c, release), s'.snapshots)
    ensures HonestReceipts(Recorded(s', c, m, release).0)
  {}

  lemma PublishHonest(s: Product, c: Command, acceptable: bool)
    requires HonestReceipts(s)
    ensures HonestReceipts(Published(s, c, acceptable).0)
  {
    if s.draft.Some? && ComponentMapping(s).Ok? {
      var m := ComponentMapping(s).value;
      if Unchanged(s, c) { RecordHonest(s, s, c, m, s.draft.value.stored.value.release.value); }
      if Reconciled(s, m, c).Some? {
        ReconciledGrows(s, m, c);
        var r := Reconciled(s, m, c).value;
        RecordHonest(s, r.0, c, r.1, NewRelease(s, c));
      }
    }
  }

  lemma StepHonest(s: Product, e: Event)
    requires HonestReceipts(s)
    ensures HonestReceipts(Apply(s, e))
  {
    match e
    case Save(expected, document, acceptable) => SaveHonest(s, expected, document, acceptable);
    case Prepare(revision, acceptable) => PrepareHonest(s, revision, acceptable);
    case Publish(c, acceptable) => PublishHonest(s, c, acceptable);
  }

  /** In every reachable state a receipt's snapshot holds the model settings of its request. */
  lemma {:induction false} ReleasesStayHonest(s: Product, events: seq<Event>)
    requires HonestReceipts(s)
    ensures HonestReceipts(Run(s, events))
    decreases events
  {
    if events != [] {
      StepHonest(s, events[0]);
      ReleasesStayHonest(Apply(s, events[0]), events[1..]);
    }
  }

  // ---------- entries: a bijection between document keys and server entries ----------

  ghost predicate Injective(f: map<string, nat>) {
    forall k, k' :: k in f && k' in f && k != k' ==> f[k] != f[k']
  }

  ghost predicate Bijection(f: map<string, nat>, ids: set<nat>) {
    Injective(f) && f.Values == ids
  }

  ghost predicate Bound(m: Mapping, s: Product) {
    && (m.book.None? ==> m.entries == map[])
    && (m.book.Some? ==>
          m.book.value in s.books && m.book.value < s.nextId && Bijection(m.entries, s.books[m.book.value].Keys))
    && (forall k :: k in m.entries ==> m.entries[k] < s.nextId)
    && GoodCast(m.characters, s.characters, s.nextId)
  }

  /** Every known row has a server copy of its own. */
  ghost predicate GoodCast(known: map<string, nat>, characters: map<nat, CharacterProfile>, nextId: nat) {
    Injective(known) && forall k :: k in known ==> known[k] < nextId && known[k] in characters
  }

  /** The studio owns its book: the invariant of products that were never published any other way. */
  ghost predicate Owned(s: Product) {
    s.draft.Some? && s.draft.value.stored.Some? ==>
      s.draft.value.stored.value.studio.Some? && Bound(s.draft.value.stored.value.studio.value, s)
  }

  lemma KeysDiffer(a: string, b: string)
    ensures a != b ==> "lore:" + a != "lore:" + b && "scene:" + a != "scene:" + b
    ensures "lore:" + a != "scene:" + b && "world_rules" != "lore:" + a && "world_rules" != "scene:" + a
  {
    assert ("lore:" + a)[5..] == a && ("lore:" + b)[5..] == b;
    assert ("scene:" + a)[6..] == a && ("scene:" + b)[6..] == b;
    assert ("lore:" + a)[0] == 'l' && ("scene:" + b)[0] == 's' && ("scene:" + a)[0] == 's' && "world_rules"[0] == 'w';
  }

  lemma EntryKeysDistinct(p: Project, scenes: seq<Row<Scene>>)
    requires Distinct(p.lorebooks) && Distinct(scenes)
    ensures forall i, j :: 0 <= i < j < |EntryValues(p, scenes)| ==> EntryValues(p, scenes)[i].0 != EntryValues(p, scenes)[j].0
  {
    forall i, j | 0 <= i < j < |EntryValues(p, scenes)| ensures EntryValues(p, scenes)[i].0 != EntryValues(p, scenes)[j].0 {
      KeysDifferAt(p, scenes, i, j);
    }
  }

  datatype KeyKind = Rules | LoreKey | SceneKey

  function KindAt(p: Project, i: nat): KeyKind {
    var n := if Blank(p.work.worldRules) then 0 else 1;
    if i < n then Rules else if i < n + |p.lorebooks| then LoreKey else SceneKey
  }

  function RowAt(p: Project, i: nat): nat {
    var n := if Blank(p.work.worldRules) then 0 else 1;
    if i < n then 0 else if i < n + |p.lorebooks| then i - n else i - n - |p.lorebooks|
  }

  function KeyOf(kind: KeyKind, id: string): string {
    match kind
    case Rules => "world_rules"
    case LoreKey => "lore:" + id
    case SceneKey => "scene:" + id
  }

  lemma KeysOfDiffer(kind: KeyKind, a: string, kind': KeyKind, b: string)
    requires kind != kind' || (!kind.Rules? && a != b)
    ensures KeyOf(kind, a) != KeyOf(kind', b)
  {
    KeysDiffer(a, b);
    KeysDiffer(b, a);
  }

  function IdAt(p: Project, scenes: seq<Row<Scene>>, i: nat): string
    requires i < |EntryValues(p, scenes)|
  {
    match KindAt(p, i)
    case Rules => ""
    case LoreKey => p.lorebooks[RowAt(p, i)].id
    case SceneKey => scenes[RowAt(p, i)].id
  }

  lemma ThreeLists<T>(a: seq<T>, b: seq<T>, c: seq<T>, i: nat)
    requires i < |a + b + c|
    ensures (a + b + c)[i] == if i < |a| then a[i] else if i < |a| + |b| then b[i - |a|] else c[i - |a| - |b|]
  {}

  lemma KeyAt(p: Project, scenes: seq<Row<Scene>>, i: nat)
    requires i < |EntryValues(p, scenes)|
    ensures EntryValues(p, scenes)[i].0 == KeyOf(KindAt(p, i), IdAt(p, scenes, i))
  {
    var rules := if Blank(p.work.worldRules) then [] else [("world_rules", RuleEntry(p.work.worldRules))];
    ThreeLists(rules, LoreValues(p.lorebooks), SceneValues(scenes), i);
  }

  lemma RowsDifferAt(p: Project, scenes: seq<Row<Scene>>, i: nat, j: nat)
    requires Distinct(p.lorebooks) && Distinct(scenes) && i < j < |EntryValues(p, scenes)|
    ensures KindAt(p, i) != KindAt(p, j) || (!KindAt(p, i).Rules? && IdAt(p, scenes, i) != IdAt(p, scenes, j))
  {}

  lemma KeysDifferAt(p: Project, scenes: seq<Row<Scene>>, i: nat, j: nat)
    requires Distinct(p.lorebooks) && Distinct(scenes) && i < j < |EntryValues(p, scenes)|
    ensures EntryValues(p, scenes)[i].0 != EntryValues(p, scenes)[j].0
  {
    KeyAt(p, scenes, i);
    KeyAt(p, scenes, j);
    RowsDifferAt(p, scenes, i, j);
    KeysOfDiffer(KindAt(p, i), IdAt(p, scenes, i), KindAt(p, j), IdAt(p, scenes, j));
  }

  /** A shelf on the way: placed keys keep their known id or got a new one, and nothing is lost. */
  ghost predicate GoodShelf(known: map<string, nat>, st: Shelf, base: nat) {
    && base <= st.nextId && Injective(known) && Injective(st.next)
    && (forall k :: k in known ==> known[k] < base && known[k] in st.entries)
    && (forall k :: k in st.next ==> if k in known then st.next[k] == known[k] else base <= st.next[k] < st.nextId)
    && (forall k :: k in st.next ==> st.next[k] in st.entries)
    && (forall id :: id in st.entries ==> id < st.nextId && (id in known.Values || id in st.next.Values))
  }

  ghost predicate FreshKeys(values: seq<(string, Entry)>, st: Shelf) {
    && (forall i, j :: 0 <= i < j < |values| ==> values[i].0 != values[j].0)
    && (forall i :: 0 <= i < |values| ==> values[i].0 !in st.next)
  }

  lemma PlaceOne(key: string, e: Entry, known: map<string, nat>, st: Shelf, base: nat)
    requires GoodShelf(known, st, base) && key !in st.next
    ensures GoodShelf(known, Put(st, key, e, known), base)
    ensures forall k :: k in st.next ==> st.next[k] != Put(st, key, e, known).next[key]
  {
    var id := if key in known then known[key] else st.nextId;
    var st' := Put(st, key, e, known);
    forall k | k in st.next ensures st.next[k] != id {}
    forall x | x in st'.entries ensures x < st'.nextId && (x in known.Values || x in st'.next.Values) {
      if x == id { assert st'.next[key] == id; }
      else if x in st.next.Values {
        var k :| k in st.next && st.next[k] == x;
        assert st'.next[k] == x;
      }
    }
  }

  lemma FreshTail(values: seq<(string, Entry)>, st: Shelf, id: nat)
    requires values != [] && FreshKeys(values, st)
    ensures FreshKeys(values[1..], st.(next := st.next[values[0].0 := id]))
  {}

  ghost predicate Keeps(st: Shelf, st': Shelf) {
    forall k :: k in st.next ==>
      k in st'.next && st'.next[k] == st.next[k]
      && (st.next[k] in st.entries ==> st.next[k] in st'.entries && st'.entries[st.next[k]] == st.entries[st.next[k]])
  }

  ghost predicate PlacedAt(values: seq<(string, Entry)>, st: Shelf, i: nat)
    requires i < |values|
  {
    values[i].0 in st.next && st.next[values[i].0] in st.entries && st.entries[st.next[values[i].0]] == values[i].1
  }

  /** From one shelf to a later one: nothing noted is lost, and the rows are all placed. */
  ghost predicate PlacedFrom(values: seq<(string, Entry)>, st: Shelf, st': Shelf) {
    Keeps(st, st') && st.nextId <= st'.nextId && forall i :: 0 <= i < |values| ==> PlacedAt(values, st', i)
  }

  lemma PlacedCons(values: seq<(string, Entry)>, known: map<string, nat>, st: Shelf, st': Shelf)
    requires values != [] && values[0].0 !in st.next
    requires forall k :: k in st.next ==> st.next[k] != Put(st, values[0].0, values[0].1, known).next[values[0].0]
    requires PlacedFrom(values[1..], Put(st, values[0].0, values[0].1, known), st')
    ensures PlacedFrom(values, st, st')
  {
    var mid := Put(st, values[0].0, values[0].1, known);
    assert values[0].0 in mid.next;
    forall i | 0 <= i < |values| ensures PlacedAt(values, st', i) {
      if i > 0 { assert PlacedAt(values[1..], st', i - 1); }
    }
  }

  /** Placing all rows succeeds; every row ends up under its own key with its own content. */
  lemma {:induction false} PlaceAll(values: seq<(string, Entry)>, known: map<string, nat>, st: Shelf, base: nat)
    requires GoodShelf(known, st, base) && FreshKeys(values, st)
    ensures PlaceEntries(values, known, st).Some?
    ensures GoodShelf(known, PlaceEntries(values, known, st).value, base)
    ensures PlacedFrom(values, st, PlaceEntries(values, known, st).value)
  {
    if values != [] {
      var (key, e) := values[0];
      PlaceOne(key, e, known, st, base);
      FreshTail(values, st, Put(st, key, e, known).next[key]);
      PlaceRest(values, known, st, base);
      PlaceAll(values[1..], known, Put(st, key, e, known), base);
      PlacedCons(values, known, st, PlaceEntries(values, known, st).value);
    }
  }

  lemma PlaceRest(values: seq<(string, Entry)>, known: map<string, nat>, st: Shelf, base: nat)
    requires GoodShelf(known, st, base) && values != []
    ensures PlaceEntries(values, known, st) == PlaceEntries(values[1..], known, Put(st, values[0].0, values[0].1, known))
  {}

  /** Dropped entries exist, differ, and are never a start entry: the deletions go through. */
  lemma DropWorks(known: map<string, nat>, st: Shelf, base: nat, starts: seq<nat>)
    requires GoodShelf(known, st, base)
    requires forall i :: 0 <= i < |starts| ==> starts[i] in st.next.Values
    ensures CanDrop(known, st.next, st.entries, starts)
    ensures (st.entries - DroppedIds(known, st.next)).Keys == st.next.Values
  {
    forall k | k in Dropped(known, st.next) ensures known[k] !in st.next.Values {
      forall k' | k' in st.next ensures st.next[k'] != known[k] {}
    }
    var kept := st.entries - DroppedIds(known, st.next);
    forall id | id in kept ensures id in st.next.Values {
      if id in known.Values {
        var k :| k in known && known[k] == id;
        if k in st.next { assert st.next[k] == id; } else { assert k in Dropped(known, st.next) ==> id in DroppedIds(known, st.next); }
      }
    }
    forall id | id in st.next.Values ensures id in kept {
      var k :| k in st.next && st.next[k] == id;
      assert id in st.entries && id !in DroppedIds(known, st.next);
    }
  }

  /** Moving the k-th row to the front. */
  lemma FrontIds<T>(rows: seq<Row<T>>, k: nat)
    requires k < |rows|
    ensures Ids([rows[k]] + (rows[..k] + rows[k + 1..])) == Ids(rows)
  {
    assert rows == rows[..k] + ([rows[k]] + rows[k + 1..]);
    IdsConcat(rows[..k], [rows[k]] + rows[k + 1..]);
    IdsConcat([rows[k]], rows[k + 1..]);
    IdsConcat([rows[k]], rows[..k] + rows[k + 1..]);
    IdsConcat(rows[..k], rows[k + 1..]);
  }

  lemma FrontDistinct<T>(rows: seq<Row<T>>, k: nat)
    requires k < |rows| && Distinct(rows)
    ensures Distinct([rows[k]] + (rows[..k] + rows[k + 1..]))
  {
    var r := [rows[k]] + (rows[..k] + rows[k + 1..]);
    forall i | 0 <= i < |r| ensures r[i] == rows[if i == 0 then k else if i <= k then i - 1 else i] {}
  }

  lemma DefaultFirstIs(scenes: seq<Row<Scene>>, id: string)
    requires Distinct(scenes) && id in Ids(scenes)
    ensures DefaultFirst(scenes, id) == [Find(scenes, id).value] + Without(scenes, id)
    ensures Distinct(DefaultFirst(scenes, id)) && |DefaultFirst(scenes, id)| == |scenes|
    ensures Ids(DefaultFirst(scenes, id)) == Ids(scenes)
  {
    OnlyOne(scenes, id);
    var k := WithoutAt(scenes, id);
    FrontIds(scenes, k);
    FrontDistinct(scenes, k);
  }

  lemma {:induction false} OnlyOne<T>(rows: seq<Row<T>>, id: string)
    requires Distinct(rows)
    ensures Only(rows, id) == if id in Ids(rows) then [Find(rows, id).value] else []
  {
    if rows != [] {
      IdsCons(rows);
      OnlyOne(rows[1..], id);
      forall i | 0 <= i < |rows[1..]| ensures rows[1..][i].id != rows[0].id { assert rows[1..][i] == rows[i + 1]; }
      assert rows[0].id !in Ids(rows[1..]);
    }
  }

  lemma FirstShelf(m: Mapping, s: Product, free: nat)
    requires Bound(m, s) && s.nextId <= free
    ensures var held := if m.book.Some? then s.books[m.book.value] else map[];
            GoodShelf(m.entries, Shelf(map[], held, free), free)
  {
    var held := if m.book.Some? then s.books[m.book.value] else map[];
    forall id | id in held ensures id < free && id in m.entries.Values {
      assert id in m.entries.Values;
      var k :| k in m.entries && m.entries[k] == id;
    }
    forall k | k in m.entries ensures m.entries[k] in held {
      assert m.entries[k] in m.entries.Values;
    }
  }

  /** What a reconciled book is: see `StockedWell`. */
  ghost predicate WellStocked(known: map<string, nat>, values: seq<(string, Entry)>, stock: Stock) {
    && Bijection(stock.entries, stock.kept.Keys) && stock.entries.Keys == Keys(values)
    && (forall k :: k in known && k in stock.entries ==> stock.entries[k] == known[k])
    && (forall k :: k in known && k !in stock.entries ==> known[k] !in stock.kept)
    && (forall i :: 0 <= i < |values| ==>
          values[i].0 in stock.entries && stock.entries[values[i].0] in stock.kept
          && stock.kept[stock.entries[values[i].0]] == values[i].1)
    && forall k :: k in stock.entries ==> stock.entries[k] < stock.nextId
  }

  lemma ShelfIsStocked(known: map<string, nat>, values: seq<(string, Entry)>, placed: Shelf, base: nat, starts: seq<nat>, stock: Stock)
    requires GoodShelf(known, placed, base) && placed.next.Keys == Keys(values)
    requires forall i :: 0 <= i < |values| ==> PlacedAt(values, placed, i)
    requires forall i :: 0 <= i < |starts| ==> starts[i] in placed.next.Values
    requires stock.entries == placed.next && stock.nextId == placed.nextId
    requires stock.kept == placed.entries - DroppedIds(known, placed.next)
    ensures WellStocked(known, values, stock)
  {
    DropWorks(known, placed, base, starts);
    forall i | 0 <= i < |values|
      ensures values[i].0 in stock.entries && stock.entries[values[i].0] in stock.kept
           && stock.kept[stock.entries[values[i].0]] == values[i].1
    {
      assert PlacedAt(values, placed, i);
      assert placed.next[values[i].0] in placed.next.Values;
    }
    forall k | k in known && k !in stock.entries ensures known[k] !in stock.kept {
      assert k in Dropped(known, placed.next) && known[k] in DroppedIds(known, placed.next);
    }
  }

  /** The start settings name each scene's entry once, the default first, the rest in order. */
  ghost predicate StartsInOrder(p: Project, stock: Stock) {
    var first := Find(p.scenes, p.work.defaultSceneId);
    && |stock.starts| == |p.scenes| && first.Some?
    && var ordered := [first.value] + Without(p.scenes, p.work.defaultSceneId);
       && |ordered| == |p.scenes|
       && forall i :: 0 <= i < |ordered| ==>
            "scene:" + ordered[i].id in stock.entries && stock.starts[i] == stock.entries["scene:" + ordered[i].id]
  }

  ghost predicate ShelfOf(values: seq<(string, Entry)>, known: map<string, nat>, shelf: Shelf, base: nat) {
    && GoodShelf(known, shelf, base) && shelf.next.Keys == Keys(values) && base <= shelf.nextId
    && forall i :: 0 <= i < |values| ==> PlacedAt(values, shelf, i)
  }

  lemma PlaceOnShelf(values: seq<(string, Entry)>, m: Mapping, s: Product, first: nat)
    requires Bound(m, s) && s.nextId <= first
    requires forall i, j :: 0 <= i < j < |values| ==> values[i].0 != values[j].0
    ensures var st := Shelf(map[], if m.book.Some? then s.books[m.book.value] else map[], first);
            var placed := PlaceEntries(values, m.entries, st);
            placed.Some? && ShelfOf(values, m.entries, placed.value, first)
  {
    var st := Shelf(map[], if m.book.Some? then s.books[m.book.value] else map[], first);
    FirstShelf(m, s, first);
    PlaceAll(values, m.entries, st, first);
    PlacedKeys(values, m.entries, st);
  }

  lemma ShelvedWell(p: Project, m: Mapping, s: Product, free: nat)
    requires Bound(m, s) && s.nextId <= free && Publishable(p)
    ensures Shelved(p, m, s.books, free).Some?
    ensures ShelfOf(EntryValues(p, DefaultFirst(p.scenes, p.work.defaultSceneId)), m.entries,
                    Shelved(p, m, s.books, free).value, if m.book.Some? then free else free + 1)
  {
    var scenes := DefaultFirst(p.scenes, p.work.defaultSceneId);
    DefaultFirstIs(p.scenes, p.work.defaultSceneId);
    EntryKeysDistinct(p, scenes);
    PlaceOnShelf(EntryValues(p, scenes), m, s, if m.book.Some? then free else free + 1);
  }

  lemma StartsPlaced(p: Project, next: map<string, nat>, stock: Stock)
    requires Publishable(p) && stock.entries == next
    requires forall scene :: scene in DefaultFirst(p.scenes, p.work.defaultSceneId) ==> "scene:" + scene.id in next
    requires stock.starts == StartIds(DefaultFirst(p.scenes, p.work.defaultSceneId), next)
    ensures StartsInOrder(p, stock)
  {
    DefaultFirstIs(p.scenes, p.work.defaultSceneId);
  }

  /**
    The reconciliation, under a bijective mapping: it succeeds; the new mapping is a bijection
    onto the book's entries; its keys are exactly the document's; surviving keys keep their id;
    every entry holds its row; dropped entries are gone; and the start settings list each scene
    once, the default first and the others in document order.
   */
  lemma StockedWell(p: Project, m: Mapping, s: Product, free: nat)
    requires Bound(m, s) && s.nextId <= free && Publishable(p)
    ensures Stocked(p, m, s.books, free).Some?
    ensures var stock := Stocked(p, m, s.books, free).value;
            && WellStocked(m.entries, EntryValues(p, DefaultFirst(p.scenes, p.work.defaultSceneId)), stock)
            && StartsInOrder(p, stock)
            && stock.book == (if m.book.Some? then m.book.value else free)
            && stock.book < stock.nextId && free <= stock.nextId
  {
    ShelvedWell(p, m, s, free);
    var shelf := Shelved(p, m, s.books, free).value;
    var starts := StartIds(DefaultFirst(p.scenes, p.work.defaultSceneId), shelf.next);
    var first := if m.book.Some? then free else free + 1;
    DropWorks(m.entries, shelf, first, starts);
    var stock := Stocked(p, m, s.books, free).value;
    ShelfIsStocked(m.entries, EntryValues(p, DefaultFirst(p.scenes, p.work.defaultSceneId)), shelf, first, starts, stock);
    StartsPlaced(p, shelf.next, stock);
  }

  /** A row has its copy: known under its id, holding its profile. */
  ghost predicate Seated(row: Row<Character>, st: Cast) {
    row.id in st.known && st.known[row.id] in st.characters && st.characters[st.known[row.id]] == row.value.profile
  }

  /** From one cast to a later one: known copies stay, those of other rows untouched, and ids grow by one a row. */
  ghost predicate CastGrows(rows: seq<Row<Character>>, st: Cast, st': Cast) {
    && st.nextId <= st'.nextId && |st'.ids| == |st.ids| + |rows| && st.ids <= st'.ids
    && (forall k :: k in st.known ==> k in st'.known && st'.known[k] == st.known[k])
    && (forall k :: k in st.known && k !in Ids(rows) && st.known[k] in st.characters ==>
          st.known[k] in st'.characters && st'.characters[st.known[k]] == st.characters[st.known[k]])
  }

  /** Every row is seated, and listed in order. */
  ghost predicate AllSeated(rows: seq<Row<Character>>, st': Cast, from: nat) {
    from + |rows| <= |st'.ids|
    && forall i :: 0 <= i < |rows| ==> Seated(rows[i], st') && st'.ids[from + i] == st'.known[rows[i].id]
  }

  lemma SeatGood(st: Cast, row: Row<Character>)
    requires GoodCast(st.known, st.characters, st.nextId)
    ensures GoodCast(Seat(st, row).known, Seat(st, row).characters, Seat(st, row).nextId)
    ensures Seated(row, Seat(st, row)) && CastGrows([row], st, Seat(st, row))
  {
    assert Ids([row]) == {row.id} by { assert [row][0].id == row.id; }
  }

  lemma SeatsGrow(rows: seq<Row<Character>>, st: Cast, st': Cast)
    requires rows != [] && CastGrows([rows[0]], st, Seat(st, rows[0])) && CastGrows(rows[1..], Seat(st, rows[0]), st')
    ensures CastGrows(rows, st, st')
  {
    var mid := Seat(st, rows[0]);
    IdsCons(rows);
    assert Ids([rows[0]]) == {rows[0].id} by { assert [rows[0]][0].id == rows[0].id; }
  }

  lemma FirstStays(rows: seq<Row<Character>>, st: Cast, st': Cast)
    requires rows != [] && Distinct(rows) && Seated(rows[0], Seat(st, rows[0])) && CastGrows(rows[1..], Seat(st, rows[0]), st')
    ensures Seated(rows[0], st') && |st.ids| < |st'.ids| && st'.ids[|st.ids|] == st'.known[rows[0].id]
  {
    var mid := Seat(st, rows[0]);
    assert rows[0].id !in Ids(rows[1..]) by {
      forall i | 0 <= i < |rows[1..]| ensures rows[1..][i].id != rows[0].id { assert rows[1..][i] == rows[i + 1]; }
    }
    assert mid.ids[|st.ids|] == mid.known[rows[0].id] && st'.ids[|st.ids|] == mid.ids[|st.ids|];
  }

  /** Placing the characters succeeds: each row has its copy with its profile, in document order. */
  lemma {:induction false} PlaceCharactersWorks(rows: seq<Row<Character>>, st: Cast)
    requires GoodCast(st.known, st.characters, st.nextId) && Distinct(rows)
    ensures PlaceCharacters(rows, st).Some?
    ensures var st' := PlaceCharacters(rows, st).value;
            GoodCast(st'.known, st'.characters, st'.nextId) && CastGrows(rows, st, st') && AllSeated(rows, st', |st.ids|)
  {
    if rows != [] {
      SeatGood(st, rows[0]);
      PlaceCharactersWorks(rows[1..], Seat(st, rows[0]));
      var st' := PlaceCharacters(rows, st).value;
      SeatsGrow(rows, st, st');
      FirstStays(rows, st, st');
      SeatedMore(rows, st', |st.ids|);
    }
  }

  lemma SeatedMore(rows: seq<Row<Character>>, st': Cast, from: nat)
    requires rows != [] && AllSeated(rows[1..], st', from + 1)
    requires Seated(rows[0], st') && from < |st'.ids| && st'.ids[from] == st'.known[rows[0].id]
    ensures AllSeated(rows, st', from)
  {
    forall i | 0 <= i < |rows| ensures Seated(rows[i], st') && st'.ids[from + i] == st'.known[rows[i].id] {
      if i > 0 { assert rows[i] == rows[1..][i - 1] && Seated(rows[1..][i - 1], st') && st'.ids[from + 1 + (i - 1)] == st'.known[rows[i].id]; }
    }
  }

  lemma {:induction false} NewCharactersKeep(rows: seq<Row<Character>>, known: map<string, nat>, characters: map<nat, CharacterProfile>, nextId: nat)
    requires GoodCast(known, characters, nextId)
    ensures var r := NewCharacters(rows, known, characters, nextId);
            && nextId <= r.2 && GoodCast(r.0, r.1, r.2)
            && (forall k :: k in known ==> k in r.0 && r.0[k] == known[k])
            && forall i :: 0 <= i < |rows| ==> rows[i].id in r.0
  {
    if rows != [] {
      if rows[0].id in known { NewCharactersKeep(rows[1..], known, characters, nextId); }
      else { NewCharactersKeep(rows[1..], known[rows[0].id := nextId], characters[nextId := rows[0].value.profile], nextId + 1); }
      forall i | 0 <= i < |rows| ensures rows[i].id in NewCharacters(rows, known, characters, nextId).0 {
        if i > 0 { assert rows[i] == rows[1..][i - 1]; }
      }
    }
  }

  /** The book, keys and start settings a reconciliation left, as one stock. */
  function StockAfter(r: (Product, Mapping)): Stock
    requires r.1.book.Some? && r.1.book.value in r.0.books
  {
    Stock(r.1.book.value, r.1.entries, r.0.books[r.1.book.value], r.0.startIds, r.0.nextId)
  }

  /** The composition lists each character's own copy, with its profile, in document order. */
  ghost predicate Composed(p: Project, r: (Product, Mapping)) {
    && |r.0.linked| == |p.characters|
    && forall i :: 0 <= i < |p.characters| ==>
         p.characters[i].id in r.1.characters && r.0.linked[i] == r.1.characters[p.characters[i].id]
         && r.0.linked[i] in r.0.characters && r.0.characters[r.0.linked[i]] == p.characters[i].value.profile
  }

  /** A fresh publication under a bijective mapping: what `Reconciled` wrote. */
  lemma ReconciledWell(s: Product, m: Mapping, c: Command)
    requires s.draft.Some? && Bound(m, s) && Publishable(s.draft.value.document)
    ensures Reconciled(s, m, c).Some?
    ensures var r := Reconciled(s, m, c).value;
            var p := s.draft.value.document;
            && Bound(r.1, r.0) && r.1.book.Some? && r.1.receipts == m.receipts && r.0.draft == s.draft
            && (m.book.Some? ==> r.1.book == m.book)
            && WellStocked(m.entries, EntryValues(p, DefaultFirst(p.scenes, p.work.defaultSceneId)), StockAfter(r))
            && StartsInOrder(p, StockAfter(r)) && Composed(p, r)
            && (forall k :: k in m.characters ==> k in r.1.characters && r.1.characters[k] == m.characters[k])
  {
    var p := s.draft.value.document;
    var st := Cast(m.characters, s.characters, [], s.nextId);
    PlaceCharactersWorks(p.characters, st);
    var actors := PlaceCharacters(p.characters, st).value;
    StockedWell(p, m, s, actors.nextId);
    var r := Reconciled(s, m, c).value;
    ReconciledStock(s, m, c, actors);
    ReconciledCast(p, actors, r);
  }

  lemma ReconciledStock(s: Product, m: Mapping, c: Command, actors: Cast)
    requires s.draft.Some? && PlaceCharacters(s.draft.value.document.characters, Cast(m.characters, s.characters, [], s.nextId)) == Some(actors)
    requires Stocked(s.draft.value.document, m, s.books, actors.nextId).Some?
    ensures Reconciled(s, m, c).Some?
    ensures var r := Reconciled(s, m, c).value;
            && r.1.book.Some? && r.1.book.value in r.0.books
            && StockAfter(r) == Stocked(s.draft.value.document, m, s.books, actors.nextId).value
            && r.0.linked == actors.ids && r.0.characters == actors.characters && r.1.characters == actors.known
            && r.1.receipts == m.receipts && r.0.draft == s.draft
  {
    var stock := Stocked(s.draft.value.document, m, s.books, actors.nextId).value;
    var r := Reconciled(s, m, c).value;
    assert r.0.books[stock.book] == stock.kept;
  }

  lemma ReconciledCast(p: Project, actors: Cast, r: (Product, Mapping))
    requires AllSeated(p.characters, actors, 0) && |actors.ids| == |p.characters|
    requires r.0.linked == actors.ids && r.0.characters == actors.characters && r.1.characters == actors.known
    ensures Composed(p, r)
  {
    forall i | 0 <= i < |p.characters|
      ensures p.characters[i].id in r.1.characters && r.0.linked[i] == r.1.characters[p.characters[i].id]
           && r.0.linked[i] in r.0.characters && r.0.characters[r.0.linked[i]] == p.characters[i].value.profile
    {
      assert Seated(p.characters[i], actors) && actors.ids[0 + i] == actors.known[p.characters[i].id];
    }
  }

  /** Under the invariant a publication succeeds exactly when the request deserves it. */
  lemma PublishSucceedsIff(s: Product, c: Command, acceptable: bool)
    requires Owned(s) && HonestReceipts(s) && s.draft.Some?
    ensures Published(s, c, acceptable).1.Ok? <==>
      if c.revision in Receipts(s) then Receipts(s)[c.revision].command == c
      else s.draft.value.revision == c.revision && ValidNote(c)
           && (Unchanged(s, c) || (Publishable(s.draft.value.document) && acceptable))
  {
    OwnedMapping(s);
    var m := ComponentMapping(s).value;
    if Publishable(s.draft.value.document) { ReconciledWell(s, m, c); }
    SnapshotIsThere(s);
    PublishDecides(s, c, acceptable, m);
  }

  lemma SnapshotIsThere(s: Product)
    requires HonestReceipts(s) && s.draft.Some?
    ensures !LostSnapshot(s)
  {}

  /** The checks of a publication in their order, when every reconciliation of a publishable document works. */
  lemma PublishDecides(s: Product, c: Command, acceptable: bool, m: Mapping)
    requires s.draft.Some? && ComponentMapping(s) == Ok(m) && !LostSnapshot(s)
    requires Publishable(s.draft.value.document) ==> Reconciled(s, m, c).Some?
    ensures Published(s, c, acceptable).1.Ok? <==>
      if c.revision in Receipts(s) then Receipts(s)[c.revision].command == c
      else s.draft.value.revision == c.revision && ValidNote(c)
           && (Unchanged(s, c) || (Publishable(s.draft.value.document) && acceptable))
  {}

  lemma SaveOwned(s: Product, expected: Option<int>, document: Project, acceptable: bool)
    requires Owned(s)
    ensures Owned(Saved(s, expected, document, acceptable).0)
  {}

  lemma BoundCarries(m: Mapping, m': Mapping, s: Product, s': Product)
    requires Bound(m, s) && m'.entries == m.entries && m'.book == m.book && s'.books == s.books && s.nextId <= s'.nextId
    requires GoodCast(m'.characters, s'.characters, s'.nextId)
    ensures Bound(m', s')
  {}

  lemma OwnedMapping(s: Product)
    requires Owned(s) && s.draft.Some?
    ensures ComponentMapping(s).Ok? && Bound(ComponentMapping(s).value, s)
  {}

  lemma PrepareOwned(s: Product, revision: int, acceptable: bool)
    requires Owned(s)
    ensures Owned(Prepared(s, revision, acceptable).0)
  {
    if Prepared(s, revision, acceptable).1.Ok? {
      OwnedMapping(s);
      var m := ComponentMapping(s).value;
      var rows := s.draft.value.document.characters;
      NewCharactersKeep(rows, m.characters, s.characters, s.nextId);
      var r := NewCharacters(rows, m.characters, s.characters, s.nextId);
      BoundCarries(m, m.(characters := r.0), s, Prepared(s, revision, acceptable).0);
    }
  }

  lemma RecordOwned(s: Product, c: Command, m: Mapping, release: Release)
    requires s.draft.Some? && Bound(m, s)
    ensures Owned(Recorded(s, c, m, release).0)
  {
    BoundCarries(m, m.(receipts := m.receipts[c.revision := Receipt(c, release)]), s, Recorded(s, c, m, release).0);
  }

  /** The three things a publication can leave behind. */
  lemma PublishedCases(s: Product, c: Command, acceptable: bool, m: Mapping)
    requires s.draft.Some? && ComponentMapping(s) == Ok(m)
    ensures var s' := Published(s, c, acceptable).0;
            || s' == s
            || (Unchanged(s, c) && s' == Recorded(s, c, m, s.draft.value.stored.value.release.value).0)
            || (Publishable(s.draft.value.document) && Reconciled(s, m, c).Some? && Reconciled(s, m, c).value.0.draft == s.draft
                && s' == Recorded(Reconciled(s, m, c).value.0, c, Reconciled(s, m, c).value.1, NewRelease(s, c)).0)
  {}

  lemma PublishOwned(s: Product, c: Command, acceptable: bool)
    requires Owned(s)
    ensures Owned(Published(s, c, acceptable).0)
  {
    if s.draft.Some? {
      OwnedMapping(s);
      var m := ComponentMapping(s).value;
      PublishedCases(s, c, acceptable, m);
      if Unchanged(s, c) { RecordOwned(s, c, m, s.draft.value.stored.value.release.value); }
      if Publishable(s.draft.value.document) {
        ReconciledWell(s, m, c);
        var r := Reconciled(s, m, c).value;
        RecordOwned(r.0, c, r.1, NewRelease(s, c));
      }
    }
  }

  lemma StepOwned(s: Product, e: Event)
    requires Owned(s)
    ensures Owned(Apply(s, e))
  {
    match e
    case Save(expected, document, acceptable) => SaveOwned(s, expected, document, acceptable);
    case Prepare(revision, acceptable) => PrepareOwned(s, revision, acceptable);
    case Publish(c, acceptable) => PublishOwned(s, c, acceptable);
  }

  /** From a new product, every run keeps the entry mapping a bijection onto the book. */
  lemma {:induction false} MappingStaysBijective(s: Product, events: seq<Event>)
    requires Owned(s)
    ensures Owned(Run(s, events))
    decreases events
  {
    if events != [] {
      StepOwned(s, events[0]);
      MappingStaysBijective(Apply(s, events[0]), events[1..]);
    }
  }

  lemma NewProductOwned()
    ensures Owned(NEW_PRODUCT) && HonestReceipts(NEW_PRODUCT)
  {}
}
