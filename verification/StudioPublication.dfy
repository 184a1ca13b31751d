/**
  Publishing one saved studio revision: receipts keyed by revision, and the reconciliation of
  document rows with stable server entries. One product; every operation is one transaction,
  so an error leaves the product as it was. Digests are taken as injective: a request is
  remembered as itself, a document's digest is the document.
 */
module StudioPublication {
  import opened Wrappers
  import opened Rows
  import opened StudioProject

  datatype Outcome<+T> = Ok(value: T) | Conflict | Invalid | Missing | Refused
  {
    /** The same error, for another operation. */
    function Error<U>(): Outcome<U>
      requires !Ok?
    {
      match this
      case Conflict => Conflict
      case Invalid => Invalid
      case Missing => Missing
      case Refused => Refused
    }
  }

  /** A lorebook entry, by the document row it was written from. */
  datatype Entry = RuleEntry(text: string) | LoreEntry(lore: Lore) | StartEntry(scene: Scene)

  const RULES_TITLE := "세계 규칙"

  function Title(e: Entry): string {
    match e
    case RuleEntry(_) => RULES_TITLE
    case LoreEntry(l) => l.title
    case StartEntry(s) => s.title
  }

  datatype Command = Command(revision: int, model: string, effort: string, summary: string, body: string)
  datatype ChangeKind = Initial | Later
  datatype Release = Release(snapshot: nat, version: nat, summary: string, body: string, kind: ChangeKind)
  datatype Receipt = Receipt(command: Command, release: Release)

  /** The private part of the stored publication: stable ids of this work's server copies. */
  datatype Mapping = Mapping(characters: map<string, nat>, entries: map<string, nat>,
                             receipts: map<int, Receipt>, book: Option<nat>)
  datatype Stored = Stored(release: Option<Release>, studio: Option<Mapping>)
  datatype Draft = Draft(revision: int, document: Project, published: Option<Project>, stored: Option<Stored>)
  datatype Snapshot = Snapshot(model: string, effort: string)

  datatype Product = Product(draft: Option<Draft>, characters: map<nat, CharacterProfile>,
                             books: map<nat, map<nat, Entry>>, snapshots: seq<Snapshot>,
                             linked: seq<nat>, linkedBooks: seq<nat>, startIds: seq<nat>, nextId: nat)

  const NEW_PRODUCT := Product(None, map[], map[], [], [], [], [], 0)
  const NO_MAPPING := Mapping(map[], map[], map[], None)

  // ---------- validation ----------

  predicate Blank(s: string) {
    forall i :: 0 <= i < |s| ==> s[i] in " \t\n\r"
  }

  predicate NonblankNames(names: seq<string>) {
    forall i :: 0 <= i < |names| ==> !Blank(names[i])
  }

  predicate DistinctIds<T>(rows: seq<Row<T>>) {
    && (forall i :: 0 <= i < |rows| ==> !Blank(rows[i].id))
    && (forall i, j :: 0 <= i < j < |rows| ==> rows[i].id != rows[j].id)
  }

  /** The structure every saved document has, publishable or not. */
  predicate Shape(p: Project) {
    && DistinctIds(p.characters) && DistinctIds(p.lorebooks) && DistinctIds(p.scenes)
    && (p.work.defaultSceneId != "" ==> p.work.defaultSceneId in Ids(p.scenes))
    && (forall i :: 0 <= i < |p.characters| ==>
          DistinctIds(p.characters[i].value.assets) && NonblankNames(p.characters[i].value.profile.tags))
    && (forall i :: 0 <= i < |p.lorebooks| ==> NonblankNames(p.lorebooks[i].value.tags))
    && (forall i :: 0 <= i < |p.scenes| ==>
          p.scenes[i].value.characterId != "" ==> p.scenes[i].value.characterId in Ids(p.characters))
    && NonblankNames(p.work.tags)
  }

  predicate PublishableCharacter(c: Character) {
    && !Blank(c.profile.name) && !Blank(c.profile.persona)
    && forall i :: 0 <= i < |c.assets| ==> c.assets[i].value.mediaId.Some? && c.assets[i].value.mediaId.value != ""
  }

  predicate PublishableLore(l: Lore) {
    && !Blank(l.title) && !Blank(l.content)
    && (l.enabled && l.activation == Keyword ==> l.keywords != [])
  }

  predicate PublishableScene(p: Project, s: Scene) {
    !Blank(s.title) && !Blank(s.opening) && s.characterId in Ids(p.characters)
  }

  predicate Publishable(p: Project) {
    && Shape(p) && !Blank(p.work.title)
    && 1 <= |p.characters| <= 100 && |p.lorebooks| <= 90 && 1 <= |p.scenes| <= 100
    && p.work.defaultSceneId in Ids(p.scenes)
    && (forall i :: 0 <= i < |p.characters| ==> PublishableCharacter(p.characters[i].value))
    && (forall i :: 0 <= i < |p.lorebooks| ==> PublishableLore(p.lorebooks[i].value))
    && (forall i :: 0 <= i < |p.scenes| ==> PublishableScene(p, p.scenes[i].value))
  }

  predicate ValidNote(c: Command) {
    !Blank(c.summary) && !Blank(c.body) && |c.summary| <= 300 && |c.body| <= 20000
  }

  // ---------- the document's entries ----------

  /** The stable sort that puts the default scene first. */
  function DefaultFirst(scenes: seq<Row<Scene>>, id: string): seq<Row<Scene>> {
    Only(scenes, id) + Without(scenes, id)
  }

  function Only<T>(rows: seq<Row<T>>, id: string): seq<Row<T>> {
    if rows == [] then [] else (if rows[0].id == id then [rows[0]] else []) + Only(rows[1..], id)
  }

  function LoreValues(rows: seq<Row<Lore>>): seq<(string, Entry)> {
    seq(|rows|, i requires 0 <= i < |rows| => ("lore:" + rows[i].id, LoreEntry(rows[i].value)))
  }

  function SceneValues(rows: seq<Row<Scene>>): seq<(string, Entry)> {
    seq(|rows|, i requires 0 <= i < |rows| => ("scene:" + rows[i].id, StartEntry(rows[i].value)))
  }

  function EntryValues(p: Project, scenes: seq<Row<Scene>>): seq<(string, Entry)> {
    (if Blank(p.work.worldRules) then [] else [("world_rules", RuleEntry(p.work.worldRules))])
    + LoreValues(p.lorebooks) + SceneValues(scenes)
  }

  function Keys(values: seq<(string, Entry)>): set<string> {
    set i | 0 <= i < |values| :: values[i].0
  }

  // ---------- legacy adoption ----------

  /** The entries of a book that a document row could have been published as. */
  function Candidates(e: Entry, book: map<nat, Entry>): set<nat> {
    set id | id in book && Title(book[id]) == Title(e) && (book[id].StartEntry? <==> e.StartEntry?) :: id
  }

  lemma SingletonUnique(ids: set<nat>)
    requires |ids| == 1
    ensures forall x, y :: x in ids && y in ids ==> x == y
  {
    forall x, y | x in ids && y in ids ensures x == y {
      var rest := ids - {x};
      assert |rest| == 0;
      assert y !in rest;
    }
  }

  function AdoptEntries(values: seq<(string, Entry)>, book: map<nat, Entry>): Option<map<string, nat>> {
    if values == [] then Some(map[])
    else
      var last := |values| - 1;
      var rest := AdoptEntries(values[..last], book);
      var found := Candidates(values[last].1, book);
      if rest.None? || |found| != 1 then None
      else
        SingletonUnique(found);
        var id :| id in found;
        Some(rest.value[values[last].0 := id])
  }

  function CharacterLinks(rows: seq<Row<Character>>, ids: seq<nat>): map<string, nat>
    requires |rows| == |ids|
  {
    if rows == [] then map[]
    else CharacterLinks(rows[..|rows| - 1], ids[..|ids| - 1])[rows[|rows| - 1].id := ids[|ids| - 1]]
  }

  /** The mapping a publication works with: the stored one, a fresh one, or an adopted one. */
  function ComponentMapping(s: Product): Outcome<Mapping>
    requires s.draft.Some?
  {
    var d := s.draft.value;
    if d.stored.Some? && d.stored.value.studio.Some? then Ok(d.stored.value.studio.value)
    else if d.stored.None? || d.stored.value.release.None? then Ok(NO_MAPPING)
    else if |d.document.characters| != |s.linked| || |s.linkedBooks| != 1 then Conflict
    else if s.linkedBooks[0] !in s.books then Missing
    else
      var entries := AdoptEntries(EntryValues(d.document, d.document.scenes), s.books[s.linkedBooks[0]]);
      if entries.None? then Conflict
      else Ok(Mapping(CharacterLinks(d.document.characters, s.linked), entries.value, map[], Some(s.linkedBooks[0])))
  }

  // ---------- save and prepare ----------

  /** Adopt a legacy publication before its document changes, then compare-and-swap the draft. */
  function Saved(s: Product, expected: Option<int>, document: Project, acceptable: bool): (Product, Outcome<Draft>) {
    if !Shape(document) then (s, Invalid)
    else if expected.Some? && s.draft.None? then (s, Missing)
    else
      var legacy := expected.Some? && s.draft.value.stored.Some? && s.draft.value.stored.value.studio.None?;
      if legacy && !ComponentMapping(s).Ok? then (s, ComponentMapping(s).Error())
      else if !acceptable || (expected.Some? && expected.value < 1) then (s, Refused)
      else
        var before := if legacy then s.draft.value.(stored := Some(s.draft.value.stored.value.(studio := Some(ComponentMapping(s).value))))
                      else if s.draft.Some? then s.draft.value
                      else Draft(0, document, None, None);
        if s.draft.Some? && before.document == document then (s.(draft := Some(before)), Ok(before))
        else if (if s.draft.Some? then Some(before.revision) else None) != expected then (s, Conflict)
        else
          var after := before.(revision := before.revision + 1, document := document);
          (s.(draft := Some(after)), Ok(after))
  }

  function NewCharacters(rows: seq<Row<Character>>, known: map<string, nat>, characters: map<nat, CharacterProfile>, nextId: nat)
    : (map<string, nat>, map<nat, CharacterProfile>, nat)
  {
    if rows == [] then (known, characters, nextId)
    else if rows[0].id in known then NewCharacters(rows[1..], known, characters, nextId)
    else NewCharacters(rows[1..], known[rows[0].id := nextId], characters[nextId := rows[0].value.profile], nextId + 1)
  }

  predicate Uploadable(rows: seq<Row<Character>>) {
    forall i :: 0 <= i < |rows| ==> !Blank(rows[i].value.profile.name) && !Blank(rows[i].value.profile.persona)
  }

  /** Commit server copies of new characters so that images can be uploaded to them. */
  function Prepared(s: Product, revision: int, acceptable: bool): (Product, Outcome<map<string, nat>>) {
    if s.draft.None? then (s, Missing)
    else
      var d := s.draft.value;
      if d.revision != revision then (s, Conflict)
      else if !Shape(d.document) || !Uploadable(d.document.characters) then (s, Invalid)
      else
        var m := ComponentMapping(s);
        if !m.Ok? then (s, m.Error())
        else if !acceptable then (s, Refused)
        else
          var (known, characters, nextId) := NewCharacters(d.document.characters, m.value.characters, s.characters, s.nextId);
          var release := if d.stored.Some? then d.stored.value.release else None;
          (s.(draft := Some(d.(stored := Some(Stored(release, Some(m.value.(characters := known)))))),
              characters := characters, nextId := nextId), Ok(known))
  }

  // ---------- publication ----------

  datatype Cast = Cast(known: map<string, nat>, characters: map<nat, CharacterProfile>, ids: seq<nat>, nextId: nat)

  function Seat(st: Cast, row: Row<Character>): Cast {
    var id := if row.id in st.known then st.known[row.id] else st.nextId;
    Cast(st.known[row.id := id], st.characters[id := row.value.profile], st.ids + [id],
         if row.id in st.known then st.nextId else st.nextId + 1)
  }

  /** Update the copies that exist, create the others. */
  function PlaceCharacters(rows: seq<Row<Character>>, st: Cast): Option<Cast> {
    if rows == [] then Some(st)
    else if rows[0].id in st.known && st.known[rows[0].id] !in st.characters then None
    else PlaceCharacters(rows[1..], Seat(st, rows[0]))
  }

  datatype Shelf = Shelf(next: map<string, nat>, entries: map<nat, Entry>, nextId: nat)

  function Put(st: Shelf, key: string, e: Entry, known: map<string, nat>): Shelf {
    var id := if key in known then known[key] else st.nextId;
    Shelf(st.next[key := id], st.entries[id := e], if key in known then st.nextId else st.nextId + 1)
  }

  /** Update the entries that exist, create the others, and note every id. */
  function PlaceEntries(values: seq<(string, Entry)>, known: map<string, nat>, st: Shelf): Option<Shelf> {
    if values == [] then Some(st)
    else
      var (key, e) := values[0];
      if key in known && known[key] !in st.entries then None
      else PlaceEntries(values[1..], known, Put(st, key, e, known))
  }

  function StartIds(scenes: seq<Row<Scene>>, next: map<string, nat>): seq<nat>
    requires forall i :: 0 <= i < |scenes| ==> "scene:" + scenes[i].id in next
  {
    seq(|scenes|, i requires 0 <= i < |scenes| => next["scene:" + scenes[i].id])
  }

  function Dropped(known: map<string, nat>, next: map<string, nat>): set<string> {
    known.Keys - next.Keys
  }

  /** Deleting the dropped entries works one by one: each exists and no start setting uses it. */
  predicate CanDrop(known: map<string, nat>, next: map<string, nat>, entries: map<nat, Entry>, starts: seq<nat>) {
    && (forall k :: k in Dropped(known, next) ==> known[k] in entries && known[k] !in starts)
    && (forall k, k' :: k in Dropped(known, next) && k' in Dropped(known, next) && k != k' ==> known[k] != known[k'])
  }

  function DroppedIds(known: map<string, nat>, next: map<string, nat>): set<nat> {
    set k | k in Dropped(known, next) :: known[k]
  }

  lemma {:induction false} PlacedKeys(values: seq<(string, Entry)>, known: map<string, nat>, st: Shelf)
    requires PlaceEntries(values, known, st).Some?
    ensures PlaceEntries(values, known, st).value.next.Keys == st.next.Keys + Keys(values)
  {
    if values != [] {
      var (key, e) := values[0];
      PlacedKeys(values[1..], known, Put(st, key, e, known));
      assert Keys(values) == {key} + Keys(values[1..]) by {
        forall k | k in Keys(values) ensures k in {key} + Keys(values[1..]) {
          var i :| 0 <= i < |values| && values[i].0 == k;
          if i > 0 { assert values[1..][i - 1].0 == k; }
        }
        forall k | k in Keys(values[1..]) ensures k in Keys(values) {
          var i :| 0 <= i < |values[1..]| && values[1..][i].0 == k;
          assert values[i + 1].0 == k;
        }
      }
    }
  }

  lemma SceneKeysPlaced(p: Project, scenes: seq<Row<Scene>>)
    ensures forall i :: 0 <= i < |scenes| ==> "scene:" + scenes[i].id in Keys(EntryValues(p, scenes))
  {
    var values := EntryValues(p, scenes);
    var offset := |values| - |scenes|;
    forall i | 0 <= i < |scenes| ensures "scene:" + scenes[i].id in Keys(values) {
      assert values[offset + i] == SceneValues(scenes)[i];
    }
  }

  /** Write the receipt under the request's revision, beside the release it returns. */
  function Recorded(s: Product, c: Command, m: Mapping, release: Release): (Product, Outcome<Release>)
    requires s.draft.Some?
  {
    var d := s.draft.value;
    var m' := m.(receipts := m.receipts[c.revision := Receipt(c, release)]);
    (s.(draft := Some(d.(published := Some(d.document), stored := Some(Stored(Some(release), Some(m')))))), Ok(release))
  }

  /** The stored release names a snapshot that cannot be read. */
  predicate LostSnapshot(s: Product)
    requires s.draft.Some?
  {
    var d := s.draft.value;
    && d.published == Some(d.document) && d.stored.Some? && d.stored.value.release.Some?
    && d.stored.value.release.value.snapshot >= |s.snapshots|
  }

  /** An unchanged document, already released with the same model settings. */
  predicate Unchanged(s: Product, c: Command)
    requires s.draft.Some?
  {
    var d := s.draft.value;
    && d.published == Some(d.document) && d.stored.Some? && d.stored.value.release.Some?
    && d.stored.value.release.value.snapshot < |s.snapshots|
    && s.snapshots[d.stored.value.release.value.snapshot] == Snapshot(c.model, c.effort)
  }

  datatype Stock = Stock(book: nat, entries: map<string, nat>, kept: map<nat, Entry>, starts: seq<nat>, nextId: nat)

  /** The rows of the document placed on the book's shelf, the default scene's first among scenes. */
  function Shelved(p: Project, m: Mapping, books: map<nat, map<nat, Entry>>, free: nat): (r: Option<Shelf>)
    requires m.book.Some? ==> m.book.value in books
    ensures r.Some? ==> forall scene :: scene in DefaultFirst(p.scenes, p.work.defaultSceneId) ==> "scene:" + scene.id in r.value.next
  {
    var scenes := DefaultFirst(p.scenes, p.work.defaultSceneId);
    var values := EntryValues(p, scenes);
    var st := if m.book.Some? then Shelf(map[], books[m.book.value], free) else Shelf(map[], map[], free + 1);
    var placed := PlaceEntries(values, m.entries, st);
    if placed.None? then None
    else
      PlacedKeys(values, m.entries, st);
      SceneKeysPlaced(p, scenes);
      placed
  }

  /** The book after publication: every row placed, start settings replaced, dropped rows deleted. */
  function Stocked(p: Project, m: Mapping, books: map<nat, map<nat, Entry>>, free: nat): Option<Stock> {
    if m.book.Some? && m.book.value !in books then None
    else
      var shelf := Shelved(p, m, books, free);
      if shelf.None? then None
      else
        var starts := StartIds(DefaultFirst(p.scenes, p.work.defaultSceneId), shelf.value.next);
        if !CanDrop(m.entries, shelf.value.next, shelf.value.entries, starts) then None
        else Some(Stock(if m.book.Some? then m.book.value else free, shelf.value.next,
                        shelf.value.entries - DroppedIds(m.entries, shelf.value.next), starts, shelf.value.nextId))
  }

  /** The domain writes of a real publication; none when some service refuses. */
  function Reconciled(s: Product, m: Mapping, c: Command): Option<(Product, Mapping)>
    requires s.draft.Some?
  {
    var p := s.draft.value.document;
    var actors := PlaceCharacters(p.characters, Cast(m.characters, s.characters, [], s.nextId));
    if actors.None? then None
    else
      var stock := Stocked(p, m, s.books, actors.value.nextId);
      if stock.None? then None
      else Some((s.(characters := actors.value.characters, books := s.books[stock.value.book := stock.value.kept],
                    snapshots := s.snapshots + [Snapshot(c.model, c.effort)], linked := actors.value.ids,
                    linkedBooks := [stock.value.book], startIds := stock.value.starts, nextId := stock.value.nextId),
                 m.(characters := actors.value.known, entries := stock.value.entries, book := Some(stock.value.book))))
  }

  /** A transaction that either wrote everything or left the product alone. */
  ghost predicate AllOrNothing(done: Option<(Product, Mapping)>, before: Product, after: Product, mapping: Option<Mapping>) {
    if done.None? then mapping.None? && after == before
    else mapping == Some(done.value.1) && after == done.value.0
  }

  function NewRelease(s: Product, c: Command): Release {
    Release(|s.snapshots|, |s.snapshots| + 1, c.summary, c.body, if s.snapshots == [] then Initial else Later)
  }

  function Published(s: Product, c: Command, acceptable: bool): (Product, Outcome<Release>) {
    if s.draft.None? then (s, Missing)
    else
      var mapping := ComponentMapping(s);
      if !mapping.Ok? then (s, mapping.Error())
      else
        var d, m := s.draft.value, mapping.value;
        if c.revision in m.receipts then
          if m.receipts[c.revision].command != c then (s, Conflict) else (s, Ok(m.receipts[c.revision].release))
        else if d.revision != c.revision then (s, Conflict)
        else if !ValidNote(c) then (s, Invalid)
        else if LostSnapshot(s) then (s, Missing)
        else if Unchanged(s, c) then Recorded(s, c, m, d.stored.value.release.value)
        else if !Publishable(d.document) then (s, Invalid)
        else if !acceptable then (s, Refused)
        else
          var done := Reconciled(s, m, c);
          if done.None? then (s, Refused)
          else Recorded(done.value.0, c, done.value.1, NewRelease(s, c))
  }

  // ---------- the transaction, step by step ----------

  /** One product's rows; each method is one transaction and writes only when it succeeds. */
  class ProductStudio {
    var draft: Option<Draft>
    var characters: map<nat, CharacterProfile>
    var books: map<nat, map<nat, Entry>>
    var snapshots: seq<Snapshot>
    var linked: seq<nat>
    var linkedBooks: seq<nat>
    var startIds: seq<nat>
    var nextId: nat

    function State(): Product
      reads this
    {
      Product(draft, characters, books, snapshots, linked, linkedBooks, startIds, nextId)
    }

    constructor ()
      ensures State() == NEW_PRODUCT
    {
      draft, characters, books, snapshots := None, map[], map[], [];
      linked, linkedBooks, startIds, nextId := [], [], [], 0;
    }

    static method PutCharacters(rows: seq<Row<Character>>, mapped: map<string, nat>, held: map<nat, CharacterProfile>, first: nat)
      returns (cast: Option<Cast>)
      ensures cast == PlaceCharacters(rows, Cast(mapped, held, [], first))
    {
      var known, copies, ids, free := mapped, held, [], first;
      var i := 0;
      while i < |rows|
        invariant 0 <= i <= |rows|
        invariant PlaceCharacters(rows, Cast(mapped, held, [], first))
               == PlaceCharacters(rows[i..], Cast(known, copies, ids, free))
      {
        var row := rows[i];
        assert rows[i..][1..] == rows[i + 1..];
        var id := free;
        if row.id in known {
          id := known[row.id];
          if id !in copies { return None; }
        } else {
          free := free + 1;
        }
        known, copies, ids := known[row.id := id], copies[id := row.value.profile], ids + [id];
        i := i + 1;
      }
      return Some(Cast(known, copies, ids, free));
    }

    static method PutEntries(values: seq<(string, Entry)>, known: map<string, nat>, held: map<nat, Entry>, first: nat)
      returns (shelf: Option<Shelf>)
      ensures shelf == PlaceEntries(values, known, Shelf(map[], held, first))
    {
      var nextEntries, entries, free := map[], held, first;
      var i := 0;
      while i < |values|
        invariant 0 <= i <= |values|
        invariant PlaceEntries(values, known, Shelf(map[], held, first))
               == PlaceEntries(values[i..], known, Shelf(nextEntries, entries, free))
      {
        var (key, e) := values[i];
        assert values[i..][1..] == values[i + 1..];
        var id := free;
        if key in known {
          id := known[key];
          if id !in entries { return None; }
        } else {
          free := free + 1;
        }
        nextEntries, entries := nextEntries[key := id], entries[id := e];
        i := i + 1;
      }
      return Some(Shelf(nextEntries, entries, free));
    }

    /** Delete the entries whose keys are gone; start settings were replaced before. */
    static method DeleteEntries(known: map<string, nat>, next: map<string, nat>, held: map<nat, Entry>, starts: seq<nat>)
      returns (done: bool, entries: map<nat, Entry>)
      ensures done <==> CanDrop(known, next, held, starts)
      ensures done ==> entries == held - DroppedIds(known, next)
    {
      var keys := Dropped(known, next);
      entries := held;
      ghost var deleted: set<string> := {};
      while keys != {}
        invariant keys !! deleted && keys + deleted == Dropped(known, next)
        invariant forall k :: k in deleted ==> known[k] in held && known[k] !in starts
        invariant forall k, k' :: k in deleted && k' in deleted && k != k' ==> known[k] != known[k']
        invariant entries == held - (set k | k in deleted :: known[k])
      {
        var k :| k in keys;
        if known[k] !in entries || known[k] in starts { return false, held; }
        entries := entries - {known[k]};
        keys := keys - {k};
        deleted := deleted + {k};
      }
      assert deleted == Dropped(known, next);
      done := true;
    }

    method Save(expected: Option<int>, document: Project, acceptable: bool) returns (r: Outcome<Draft>)
      modifies this
      ensures (State(), r) == Saved(old(State()), expected, document, acceptable)
    {
      if !Shape(document) { return Invalid; }
      var current := draft;
      if expected.Some? {
        if draft.None? { return Missing; }
        if draft.value.stored.Some? && draft.value.stored.value.studio.None? {
          var mapping := ComponentMapping(State());
          if !mapping.Ok? { return mapping.Error(); }
          current := Some(draft.value.(stored := Some(draft.value.stored.value.(studio := Some(mapping.value)))));
        }
      }
      if !acceptable || (expected.Some? && expected.value < 1) { return Refused; }
      if current.Some? && current.value.document == document {
        draft := current;
        return Ok(current.value);
      }
      if (if current.Some? then Some(current.value.revision) else None) != expected { return Conflict; }
      draft := Some(if current.Some? then current.value.(revision := current.value.revision + 1, document := document)
                    else Draft(1, document, None, None));
      return Ok(draft.value);
    }

    method Prepare(revision: int, acceptable: bool) returns (r: Outcome<map<string, nat>>)
      modifies this
      ensures (State(), r) == Prepared(old(State()), revision, acceptable)
    {
      if draft.None? { return Missing; }
      var d := draft.value;
      if d.revision != revision { return Conflict; }
      if !Shape(d.document) || !Uploadable(d.document.characters) { return Invalid; }
      var mapping := ComponentMapping(State());
      if !mapping.Ok? { return mapping.Error(); }
      if !acceptable { return Refused; }
      var rows := d.document.characters;
      var known, copies, free := mapping.value.characters, characters, nextId;
      var i := 0;
      while i < |rows|
        invariant 0 <= i <= |rows|
        invariant NewCharacters(rows, mapping.value.characters, characters, nextId) == NewCharacters(rows[i..], known, copies, free)
      {
        assert rows[i..][1..] == rows[i + 1..];
        if rows[i].id !in known {
          known, copies, free := known[rows[i].id := free], copies[free := rows[i].value.profile], free + 1;
        }
        i := i + 1;
      }
      characters, nextId := copies, free;
      draft := Some(d.(stored := Some(Stored(if d.stored.Some? then d.stored.value.release else None,
                                             Some(mapping.value.(characters := known))))));
      return Ok(known);
    }

    static method StockBook(p: Project, m: Mapping, books: map<nat, map<nat, Entry>>, free: nat) returns (stock: Option<Stock>)
      ensures stock == Stocked(p, m, books, free)
    {
      var book, held, first := free, map[], free + 1;
      if m.book.Some? {
        if m.book.value !in books { return None; }
        book, held, first := m.book.value, books[m.book.value], free;
      }
      var scenes := DefaultFirst(p.scenes, p.work.defaultSceneId);
      var values := EntryValues(p, scenes);
      var shelf := PutEntries(values, m.entries, held, first);
      if shelf.None? { return None; }
      PlacedKeys(values, m.entries, Shelf(map[], held, first));
      SceneKeysPlaced(p, scenes);
      var starts := StartIds(scenes, shelf.value.next);
      var done, kept := DeleteEntries(m.entries, shelf.value.next, shelf.value.entries, starts);
      if !done { return None; }
      return Some(Stock(book, shelf.value.next, kept, starts, shelf.value.nextId));
    }

    /** The domain writes: characters, book, entries, composition, settings, deletions, snapshot. */
    method Reconcile(p: Project, m: Mapping, c: Command) returns (mapping: Option<Mapping>)
      requires draft.Some? && draft.value.document == p
      modifies this
      ensures AllOrNothing(Reconciled(old(State()), m, c), old(State()), State(), mapping)
    {
      var cast := PutCharacters(p.characters, m.characters, characters, nextId);
      if cast.None? { return None; }
      var stock := StockBook(p, m, books, cast.value.nextId);
      if stock.None? { return None; }
      characters, books := cast.value.characters, books[stock.value.book := stock.value.kept];
      linked, linkedBooks, startIds := cast.value.ids, [stock.value.book], stock.value.starts;
      snapshots := snapshots + [Snapshot(c.model, c.effort)];
      nextId := stock.value.nextId;
      return Some(m.(characters := cast.value.known, entries := stock.value.entries, book := Some(stock.value.book)));
    }

    method Record(c: Command, m: Mapping, release: Release) returns (r: Outcome<Release>)
      requires draft.Some?
      modifies this
      ensures (State(), r) == Recorded(old(State()), c, m, release)
    {
      var receipts := m.receipts[c.revision := Receipt(c, release)];
      draft := Some(draft.value.(published := Some(draft.value.document),
                                 stored := Some(Stored(Some(release), Some(m.(receipts := receipts))))));
      return Ok(release);
    }

    method Publish(c: Command, acceptable: bool) returns (r: Outcome<Release>)
      modifies this
      ensures (State(), r) == Published(old(State()), c, acceptable)
    {
      if draft.None? { return Missing; }
      var d := draft.value;
      var mapping := ComponentMapping(State());
      if !mapping.Ok? { return mapping.Error(); }
      var m := mapping.value;
      if c.revision in m.receipts {
        var receipt := m.receipts[c.revision];
        if receipt.command != c { return Conflict; }
        return Ok(receipt.release);
      }
      if d.revision != c.revision { return Conflict; }
      if !ValidNote(c) { return Invalid; }
      if d.published == Some(d.document) && d.stored.Some? && d.stored.value.release.Some? {
        var prior := d.stored.value.release.value;
        if prior.snapshot >= |snapshots| { return Missing; }
        if snapshots[prior.snapshot] == Snapshot(c.model, c.effort) {
          r := Record(c, m, prior);
          return;
        }
      }
      if !Publishable(d.document) { return Invalid; }
      if !acceptable { return Refused; }
      var release := NewRelease(State(), c);
      var m' := Reconcile(d.document, m, c);
      if m'.None? { return Refused; }
      r := Record(c, m'.value, release);
    }
  }
}
