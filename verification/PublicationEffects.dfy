/**
  What a publication leaves behind, row by row: the book, the composition, the release and its
  number; when it is only noted again; and which requests conflict.
 */
module PublicationEffects {
  import opened Wrappers
  import opened Rows
  import opened StudioProject
  import opened StudioPublication
  import opened PublicationRuns

  // ---------- the book, row by row ----------

  ghost predicate Shows(entries: map<string, nat>, book: map<nat, Entry>, key: string, e: Entry) {
    key in entries && entries[key] in book && book[entries[key]] == e
  }

  /** Each row of the document has its entry, with its content, and there is no other entry. */
  ghost predicate BookShows(p: Project, entries: map<string, nat>, book: map<nat, Entry>) {
    && (forall i :: 0 <= i < |p.lorebooks| ==> Shows(entries, book, "lore:" + p.lorebooks[i].id, LoreEntry(p.lorebooks[i].value)))
    && (forall i :: 0 <= i < |p.scenes| ==> Shows(entries, book, "scene:" + p.scenes[i].id, StartEntry(p.scenes[i].value)))
    && (if Blank(p.work.worldRules) then "world_rules" !in entries
        else Shows(entries, book, "world_rules", RuleEntry(p.work.worldRules)))
    && |entries| == |p.lorebooks| + |p.scenes| + (if Blank(p.work.worldRules) then 0 else 1)
    && Bijection(entries, book.Keys)
  }

  lemma ValueAt(p: Project, scenes: seq<Row<Scene>>, i: nat)
    requires i < |EntryValues(p, scenes)|
    ensures EntryValues(p, scenes)[i] ==
              (KeyOf(KindAt(p, i), IdAt(p, scenes, i)),
               match KindAt(p, i)
               case Rules => RuleEntry(p.work.worldRules)
               case LoreKey => LoreEntry(p.lorebooks[RowAt(p, i)].value)
               case SceneKey => StartEntry(scenes[RowAt(p, i)].value))
  {
    var rules := if Blank(p.work.worldRules) then [] else [("world_rules", RuleEntry(p.work.worldRules))];
    ThreeLists(rules, LoreValues(p.lorebooks), SceneValues(scenes), i);
  }

  lemma LoreShown(p: Project, scenes: seq<Row<Scene>>, i: nat)
    requires i < |p.lorebooks|
    ensures exists k :: 0 <= k < |EntryValues(p, scenes)|
              && EntryValues(p, scenes)[k] == ("lore:" + p.lorebooks[i].id, LoreEntry(p.lorebooks[i].value))
  {
    var n := if Blank(p.work.worldRules) then 0 else 1;
    ValueAt(p, scenes, n + i);
  }

  lemma SceneShown(p: Project, scenes: seq<Row<Scene>>, i: nat)
    requires i < |scenes|
    ensures exists k :: 0 <= k < |EntryValues(p, scenes)|
              && EntryValues(p, scenes)[k] == ("scene:" + scenes[i].id, StartEntry(scenes[i].value))
  {
    var n := if Blank(p.work.worldRules) then 0 else 1;
    ValueAt(p, scenes, n + |p.lorebooks| + i);
  }

  lemma RulesShown(p: Project, scenes: seq<Row<Scene>>)
    ensures if Blank(p.work.worldRules) then "world_rules" !in Keys(EntryValues(p, scenes))
            else |EntryValues(p, scenes)| > 0 && EntryValues(p, scenes)[0] == ("world_rules", RuleEntry(p.work.worldRules))
  {
    if Blank(p.work.worldRules) {
      forall k | 0 <= k < |EntryValues(p, scenes)| ensures EntryValues(p, scenes)[k].0 != "world_rules" {
        ValueAt(p, scenes, k);
        KeysDiffer(IdAt(p, scenes, k), "");
      }
    } else {
      ValueAt(p, scenes, 0);
    }
  }

  lemma InDefaultFirst(scenes: seq<Row<Scene>>, id: string, i: nat) returns (k: nat)
    requires Distinct(scenes) && id in Ids(scenes) && i < |scenes|
    ensures k < |DefaultFirst(scenes, id)| && DefaultFirst(scenes, id)[k] == scenes[i]
  {
    DefaultFirstIs(scenes, id);
    WithoutMembers(scenes, id);
    assert scenes[i] in scenes;
    if scenes[i].id == id {
      FindMember(scenes, scenes[i]);
      k := 0;
    } else {
      var j :| 0 <= j < |Without(scenes, id)| && Without(scenes, id)[j] == scenes[i];
      k := j + 1;
    }
  }

  lemma KeysLast(values: seq<(string, Entry)>, last: (string, Entry))
    ensures Keys(values + [last]) == Keys(values) + {last.0}
  {
    var all := values + [last];
    forall x | x in Keys(all) ensures x in Keys(values) + {last.0} {
      var i :| 0 <= i < |all| && all[i].0 == x;
      if i < |values| { assert values[i].0 == x; }
    }
    forall x | x in Keys(values) ensures x in Keys(all) {
      var i :| 0 <= i < |values| && values[i].0 == x;
      assert all[i].0 == x;
    }
    assert all[|values|].0 == last.0;
  }

  lemma {:induction false} KeyCount(values: seq<(string, Entry)>)
    requires forall i, j :: 0 <= i < j < |values| ==> values[i].0 != values[j].0
    ensures |Keys(values)| == |values|
  {
    if values == [] {
      assert Keys(values) == {};
    } else {
      var n := |values| - 1;
      KeyCount(values[..n]);
      assert values == values[..n] + [values[n]];
      KeysLast(values[..n], values[n]);
      NewKey(values[..n], values[n].0);
    }
  }

  lemma NewKey(values: seq<(string, Entry)>, key: string)
    requires forall i :: 0 <= i < |values| ==> values[i].0 != key
    ensures key !in Keys(values)
  {}

  lemma StockShows(p: Project, known: map<string, nat>, stock: Stock)
    requires Publishable(p)
    requires WellStocked(known, EntryValues(p, DefaultFirst(p.scenes, p.work.defaultSceneId)), stock)
    ensures BookShows(p, stock.entries, stock.kept)
  {
    var scenes := DefaultFirst(p.scenes, p.work.defaultSceneId);
    var values := EntryValues(p, scenes);
    forall i | 0 <= i < |p.lorebooks| ensures Shows(stock.entries, stock.kept, "lore:" + p.lorebooks[i].id, LoreEntry(p.lorebooks[i].value)) {
      LoreShown(p, scenes, i);
    }
    forall i | 0 <= i < |p.scenes| ensures Shows(stock.entries, stock.kept, "scene:" + p.scenes[i].id, StartEntry(p.scenes[i].value)) {
      var k := InDefaultFirst(p.scenes, p.work.defaultSceneId, i);
      SceneShown(p, scenes, k);
    }
    RulesShown(p, scenes);
    DefaultFirstIs(p.scenes, p.work.defaultSceneId);
    EntryKeysDistinct(p, scenes);
    KeyCount(values);
    assert |stock.entries| == |stock.entries.Keys|;
  }

  /** No other book, and no server character that is not a copy of a row, is touched. */
  ghost predicate TouchesOnly(s: Product, r: (Product, Mapping)) {
    && (forall b :: b in s.books && r.1.book != Some(b) ==> b in r.0.books && r.0.books[b] == s.books[b])
    && (forall id :: id in s.characters && id < s.nextId && id !in r.1.characters.Values ==>
          id in r.0.characters && r.0.characters[id] == s.characters[id])
  }

  lemma {:induction false} OthersUnplaced(rows: seq<Row<Character>>, st: Cast, id: nat)
    requires PlaceCharacters(rows, st).Some? && id in st.characters && id < st.nextId
    requires id !in PlaceCharacters(rows, st).value.known.Values && GoodCast(st.known, st.characters, st.nextId) && Distinct(rows)
    ensures var st' := PlaceCharacters(rows, st).value; id in st'.characters && st'.characters[id] == st.characters[id]
  {
    if rows != [] {
      var mid := Seat(st, rows[0]);
      SeatGood(st, rows[0]);
      var st' := PlaceCharacters(rows, st).value;
      assert st' == PlaceCharacters(rows[1..], mid).value;
      PlaceCharactersWorks(rows[1..], mid);
      assert mid.known[rows[0].id] == st'.known[rows[0].id];
      assert mid.known[rows[0].id] != id;
      OthersUnplaced(rows[1..], mid, id);
    }
  }

  /**
    A publication that writes: the book shows the document and nothing else, it is the product's
    only lorebook, the settings are added as a snapshot, and nothing else is touched.
   */
  lemma PublishedBookIs(s: Product, m: Mapping, c: Command)
    requires s.draft.Some? && Bound(m, s) && Publishable(s.draft.value.document)
    ensures Reconciled(s, m, c).Some?
    ensures var r := Reconciled(s, m, c).value;
            && r.1.book.Some? && r.1.book.value in r.0.books
            && BookShows(s.draft.value.document, r.1.entries, r.0.books[r.1.book.value])
            && r.0.linkedBooks == [r.1.book.value]
            && r.0.snapshots == s.snapshots + [Snapshot(c.model, c.effort)]
            && TouchesOnly(s, r)
  {
    var p := s.draft.value.document;
    ReconciledWell(s, m, c);
    var r := Reconciled(s, m, c).value;
    StockShows(p, m.entries, StockAfter(r));
    var st := Cast(m.characters, s.characters, [], s.nextId);
    PlaceCharactersWorks(p.characters, st);
    ReconciledStockAgain(s, m, c);
    forall id | id in s.characters && id < s.nextId && id !in r.1.characters.Values
      ensures id in r.0.characters && r.0.characters[id] == s.characters[id]
    {
      OthersUnplaced(p.characters, st, id);
    }
  }

  lemma ReconciledStockAgain(s: Product, m: Mapping, c: Command)
    requires s.draft.Some? && Reconciled(s, m, c).Some?
    ensures var r := Reconciled(s, m, c).value;
            var placed := PlaceCharacters(s.draft.value.document.characters, Cast(m.characters, s.characters, [], s.nextId));
            && placed.Some? && r.0.characters == placed.value.characters && r.1.characters == placed.value.known
            && r.1.book.Some? && r.0.linkedBooks == [r.1.book.value]
            && r.0.snapshots == s.snapshots + [Snapshot(c.model, c.effort)]
            && forall b :: b in s.books && r.1.book != Some(b) ==> b in r.0.books && r.0.books[b] == s.books[b]
  {}

  // ---------- new releases and noted ones ----------

  /** The document is the published one, released with these very model settings. */
  predicate SameAsReleased(s: Product, c: Command) {
    && s.draft.Some? && s.draft.value.published == Some(s.draft.value.document)
    && ReleaseOf(s).Some? && ReleaseOf(s).value.snapshot < |s.snapshots|
    && s.snapshots[ReleaseOf(s).value.snapshot].model == c.model
    && s.snapshots[ReleaseOf(s).value.snapshot].effort == c.effort
  }

  predicate NewRequest(s: Product, c: Command, acceptable: bool) {
    Published(s, c, acceptable).1.Ok? && c.revision !in Receipts(s)
  }

  /**
    A request without a receipt that succeeds makes a new release, with the next number and the
    request's note, except exactly when the document and settings are those of the stored release:
    then that one is returned and nothing but the receipt is written.
   */
  lemma ReleasedAgainIff(s: Product, c: Command, acceptable: bool)
    requires Owned(s) && HonestReceipts(s) && NewRequest(s, c, acceptable)
    ensures var (s', r) := Published(s, c, acceptable);
            && s'.draft.Some? && s'.draft.value.published == Some(s.draft.value.document) && ReleaseOf(s') == Some(r.value)
            && (s'.snapshots == s.snapshots <==> SameAsReleased(s, c))
            && (SameAsReleased(s, c) ==> r.value == ReleaseOf(s).value && s' == s.(draft := s'.draft))
            && (!SameAsReleased(s, c) ==>
                  && s'.snapshots == s.snapshots + [Snapshot(c.model, c.effort)]
                  && r.value.snapshot == |s.snapshots| && r.value.version == |s.snapshots| + 1
                  && r.value.summary == c.summary && r.value.body == c.body
                  && (r.value.kind.Initial? <==> s.snapshots == []))
  {
    OwnedMapping(s);
    var m := ComponentMapping(s).value;
    NewSuccess(s, c, acceptable, m);
    if Unchanged(s, c) {
      RecordedDraft(s, c, m, ReleaseOf(s).value);
    } else {
      ReconciledGrows(s, m, c);
      var r := Reconciled(s, m, c).value;
      RecordedDraft(r.0, c, r.1, NewRelease(s, c));
      assert s.snapshots != s.snapshots + [Snapshot(c.model, c.effort)];
    }
  }

  lemma RecordedDraft(s: Product, c: Command, m: Mapping, release: Release)
    requires s.draft.Some?
    ensures var (s', r) := Recorded(s, c, m, release);
            && r == Ok(release) && s' == s.(draft := s'.draft) && s'.draft.Some?
            && s'.draft.value.published == Some(s.draft.value.document) && ReleaseOf(s') == Some(release)
  {}

  /** Under the invariant, a request conflicts exactly with a receipt of other parameters or another draft revision. */
  lemma PublishConflictsIff(s: Product, c: Command, acceptable: bool)
    requires Owned(s) && HonestReceipts(s) && s.draft.Some?
    ensures var (s', r) := Published(s, c, acceptable);
            && (r.Conflict? <==> if c.revision in Receipts(s) then Receipts(s)[c.revision].command != c
                                 else s.draft.value.revision != c.revision)
            && (!r.Ok? ==> s' == s)
  {
    OwnedMapping(s);
    var m := ComponentMapping(s).value;
    if c.revision !in m.receipts && Published(s, c, acceptable).1.Ok? { NewSuccess(s, c, acceptable, m); }
  }

  // ---------- release numbers ----------

  /** Releases are numbered as they come, and only the first is initial. */
  predicate Numbered(r: Release, snapshots: seq<Snapshot>) {
    r.snapshot < |snapshots| && r.version == r.snapshot + 1 && (r.kind.Initial? <==> r.version == 1)
  }

  ghost predicate AllNumbered(s: Product) {
    && (forall r :: r in Receipts(s) ==> Numbered(Receipts(s)[r].release, s.snapshots))
    && (ReleaseOf(s).Some? ==> Numbered(ReleaseOf(s).value, s.snapshots))
  }

  lemma NumberedGrows(r: Release, snapshots: seq<Snapshot>, more: seq<Snapshot>)
    requires Numbered(r, snapshots) && snapshots <= more
    ensures Numbered(r, more)
  {}

  lemma PublishNumbered(s: Product, c: Command, acceptable: bool)
    requires Owned(s) && HonestReceipts(s) && AllNumbered(s)
    ensures AllNumbered(Published(s, c, acceptable).0)
  {
    var (s', r) := Published(s, c, acceptable);
    if s.draft.Some? && r.Ok? && c.revision !in Receipts(s) {
      ReleasedAgainIff(s, c, acceptable);
      NewReceipt(s, c, acceptable);
      forall k | k in Receipts(s') ensures Numbered(Receipts(s')[k].release, s'.snapshots) {
        if k != c.revision { NumberedGrows(Receipts(s)[k].release, s.snapshots, s'.snapshots); }
      }
    } else if s.draft.Some? {
      NothingNew(s, c, acceptable);
    }
  }

  lemma NothingNew(s: Product, c: Command, acceptable: bool)
    requires Owned(s) && HonestReceipts(s) && s.draft.Some? && !NewRequest(s, c, acceptable)
    ensures Published(s, c, acceptable).0 == s
  {
    PublishConflictsIff(s, c, acceptable);
    if c.revision in Receipts(s) { ReceiptDecides(s, c, acceptable); }
  }

  lemma NewReceipt(s: Product, c: Command, acceptable: bool)
    requires Owned(s) && NewRequest(s, c, acceptable)
    ensures var (s', r) := Published(s, c, acceptable);
            Receipts(s') == Receipts(s)[c.revision := Receipt(c, r.value)]
  {
    OwnedMapping(s);
    var m := ComponentMapping(s).value;
    NewSuccess(s, c, acceptable, m);
    MappingReceipts(s, m);
    if Unchanged(s, c) { RecordedReceipts(s, c, m, ReleaseOf(s).value); }
    else {
      ReconciledGrows(s, m, c);
      RecordedReceipts(Reconciled(s, m, c).value.0, c, Reconciled(s, m, c).value.1, NewRelease(s, c));
    }
  }

  lemma MappingReceipts(s: Product, m: Mapping)
    requires Owned(s) && s.draft.Some? && ComponentMapping(s) == Ok(m)
    ensures m.receipts == Receipts(s)
  {}

  lemma RecordedReceipts(s: Product, c: Command, m: Mapping, release: Release)
    requires s.draft.Some?
    ensures Recorded(s, c, m, release).1 == Ok(release)
    ensures Receipts(Recorded(s, c, m, release).0) == m.receipts[c.revision := Receipt(c, release)]
  {}

  lemma StepNumbered(s: Product, e: Event)
    requires Owned(s) && HonestReceipts(s) && AllNumbered(s)
    ensures AllNumbered(Apply(s, e))
  {
    match e
    case Save(expected, document, acceptable) => SaveReceipts(s, expected, document, acceptable);
    case Prepare(revision, acceptable) =>
    case Publish(c, acceptable) => PublishNumbered(s, c, acceptable);
  }

  /** Over every run, each receipt's release carries the number of its snapshot. */
  lemma {:induction false} ReleasesAreNumbered(s: Product, events: seq<Event>)
    requires Owned(s) && HonestReceipts(s) && AllNumbered(s)
    ensures AllNumbered(Run(s, events))
    decreases events
  {
    if events != [] {
      StepNumbered(s, events[0]);
      StepOwned(s, events[0]);
      StepHonest(s, events[0]);
      ReleasesAreNumbered(Apply(s, events[0]), events[1..]);
    }
  }
}
