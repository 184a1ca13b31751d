/**
  Adopting a publication made before mappings were stored: each expected row takes the only
  entry with its title and kind. When the adopted mapping is a bijection, and when it is not.
 */
module PublicationAdoption {
  import opened Wrappers
  import opened Rows
  import opened StudioProject
  import opened StudioPublication
  import opened PublicationRuns

  /** All that adoption compares. */
  function Label(e: Entry): (string, bool) {
    (Title(e), e.StartEntry?)
  }

  ghost predicate KeysDistinct(values: seq<(string, Entry)>) {
    forall i, j :: 0 <= i < j < |values| ==> values[i].0 != values[j].0
  }

  ghost predicate LabelsDistinct(values: seq<(string, Entry)>) {
    forall i, j :: 0 <= i < j < |values| ==> Label(values[i].1) != Label(values[j].1)
  }

  ghost predicate Expected(values: seq<(string, Entry)>, e: Entry) {
    exists i :: 0 <= i < |values| && Label(values[i].1) == Label(e)
  }

  ghost predicate AllLabelled(values: seq<(string, Entry)>, book: map<nat, Entry>) {
    LabelsDistinct(values) && forall id :: id in book ==> Expected(values, book[id])
  }

  ghost predicate OneCandidate(e: Entry, book: map<nat, Entry>) {
    exists id :: Candidates(e, book) == {id}
  }

  lemma OneIsSingleton(ids: set<nat>)
    ensures |ids| == 1 <==> exists id :: ids == {id}
  {
    if |ids| == 1 {
      var id :| id in ids;
      SingletonUnique(ids);
      assert ids == {id};
    }
  }

  ghost predicate AdoptedAt(adopted: map<string, nat>, values: seq<(string, Entry)>, book: map<nat, Entry>, i: nat)
    requires i < |values|
  {
    values[i].0 in adopted && Candidates(values[i].1, book) == {adopted[values[i].0]}
  }

  ghost predicate Adopts(adopted: map<string, nat>, values: seq<(string, Entry)>, book: map<nat, Entry>) {
    && (forall k :: k in adopted ==> KeyOf(k, values))
    && forall i :: 0 <= i < |values| ==> AdoptedAt(adopted, values, book, i)
  }

  ghost predicate KeyOf(k: string, values: seq<(string, Entry)>) {
    exists i :: 0 <= i < |values| && values[i].0 == k
  }

  lemma AdoptsOneMore(adopted: map<string, nat>, values: seq<(string, Entry)>, book: map<nat, Entry>, id: nat)
    requires KeysDistinct(values) && values != []
    requires Adopts(adopted, values[..|values| - 1], book) && Candidates(values[|values| - 1].1, book) == {id}
    ensures Adopts(adopted[values[|values| - 1].0 := id], values, book)
  {
    var n := |values| - 1;
    var more := adopted[values[n].0 := id];
    forall i | 0 <= i < |values| ensures AdoptedAt(more, values, book, i) {
      if i < n { assert AdoptedAt(adopted, values[..n], book, i); }
    }
    forall k | k in more ensures KeyOf(k, values) {
      if k == values[n].0 { assert values[n].0 == k; }
      else {
        assert KeyOf(k, values[..n]);
        var i :| 0 <= i < n && values[..n][i].0 == k;
        assert values[i].0 == k;
      }
    }
  }

  /** Adoption succeeds exactly when every row has one candidate, and then each key takes it. */
  lemma {:induction false} AdoptionIs(values: seq<(string, Entry)>, book: map<nat, Entry>)
    requires KeysDistinct(values)
    ensures AdoptEntries(values, book).Some? <==> forall i :: 0 <= i < |values| ==> OneCandidate(values[i].1, book)
    ensures AdoptEntries(values, book).Some? ==> Adopts(AdoptEntries(values, book).value, values, book)
  {
    if values != [] {
      var n := |values| - 1;
      AdoptionIs(values[..n], book);
      OneIsSingleton(Candidates(values[n].1, book));
      assert forall i :: 0 <= i < n ==> values[..n][i] == values[i];
      if AdoptEntries(values, book).Some? {
        var id :| Candidates(values[n].1, book) == {id};
        assert id in Candidates(values[n].1, book);
        AdoptsOneMore(AdoptEntries(values[..n], book).value, values, book, id);
      }
    }
  }

  lemma RowOf(values: seq<(string, Entry)>, book: map<nat, Entry>, adopted: map<string, nat>, k: string) returns (i: nat)
    requires Adopts(adopted, values, book) && k in adopted
    ensures i < |values| && values[i].0 == k && adopted[k] in book && Label(values[i].1) == Label(book[adopted[k]])
  {
    assert KeyOf(k, values);
    i :| 0 <= i < |values| && values[i].0 == k;
    assert AdoptedAt(adopted, values, book, i);
    assert adopted[k] in Candidates(values[i].1, book);
  }

  lemma LabelsGiveInjection(values: seq<(string, Entry)>, book: map<nat, Entry>, adopted: map<string, nat>)
    requires Adopts(adopted, values, book) && LabelsDistinct(values)
    ensures Injective(adopted)
  {
    forall k, k' | k in adopted && k' in adopted && k != k' ensures adopted[k] != adopted[k'] {
      var i := RowOf(values, book, adopted, k);
      var j := RowOf(values, book, adopted, k');
      assert Label(values[i].1) != Label(values[j].1);
    }
  }

  lemma LabelsGiveValues(values: seq<(string, Entry)>, book: map<nat, Entry>, adopted: map<string, nat>)
    requires Adopts(adopted, values, book) && forall id :: id in book ==> Expected(values, book[id])
    ensures adopted.Values == book.Keys
  {
    forall id | id in adopted.Values ensures id in book {
      var k :| k in adopted && adopted[k] == id;
      var i := RowOf(values, book, adopted, k);
    }
    forall id | id in book ensures id in adopted.Values {
      assert Expected(values, book[id]);
      var i :| 0 <= i < |values| && Label(values[i].1) == Label(book[id]);
      assert AdoptedAt(adopted, values, book, i) && id in Candidates(values[i].1, book);
      assert adopted[values[i].0] == id;
    }
  }

  lemma InjectionNeedsLabels(values: seq<(string, Entry)>, book: map<nat, Entry>, adopted: map<string, nat>)
    requires Adopts(adopted, values, book) && KeysDistinct(values) && Injective(adopted)
    ensures LabelsDistinct(values)
  {
    forall i, j | 0 <= i < j < |values| ensures Label(values[i].1) != Label(values[j].1) {
      assert AdoptedAt(adopted, values, book, i) && AdoptedAt(adopted, values, book, j);
      assert adopted[values[i].0] != adopted[values[j].0];
      assert adopted[values[i].0] in Candidates(values[i].1, book) && adopted[values[i].0] !in Candidates(values[j].1, book);
    }
  }

  lemma BijectionNeedsRows(values: seq<(string, Entry)>, book: map<nat, Entry>, adopted: map<string, nat>)
    requires Adopts(adopted, values, book) && adopted.Values == book.Keys
    ensures forall id :: id in book ==> Expected(values, book[id])
  {
    forall id | id in book ensures Expected(values, book[id]) {
      assert id in adopted.Values;
      var k :| k in adopted && adopted[k] == id;
      var i := RowOf(values, book, adopted, k);
      assert Label(values[i].1) == Label(book[id]);
    }
  }

  lemma AdoptedBijectionIff(values: seq<(string, Entry)>, book: map<nat, Entry>, adopted: map<string, nat>)
    requires KeysDistinct(values) && Adopts(adopted, values, book)
    ensures Bijection(adopted, book.Keys) ==> AllLabelled(values, book)
    ensures AllLabelled(values, book) ==> Bijection(adopted, book.Keys)
  {
    if AllLabelled(values, book) {
      LabelsGiveInjection(values, book, adopted);
      LabelsGiveValues(values, book, adopted);
    } else if Bijection(adopted, book.Keys) {
      InjectionNeedsLabels(values, book, adopted);
      BijectionNeedsRows(values, book, adopted);
    }
  }

  /**
    A successful adoption is a bijection onto the book exactly when no two rows share title and
    kind and every entry of the book is some row's.
   */
  lemma AdoptionIsBijectionIff(values: seq<(string, Entry)>, book: map<nat, Entry>)
    requires KeysDistinct(values) && AdoptEntries(values, book).Some?
    ensures Bijection(AdoptEntries(values, book).value, book.Keys) <==> AllLabelled(values, book)
  {
    AdoptionIs(values, book);
    AdoptedBijectionIff(values, book, AdoptEntries(values, book).value);
  }

  lemma {:induction false} LinksAreLinked(rows: seq<Row<Character>>, ids: seq<nat>)
    requires |rows| == |ids| && forall i, j :: 0 <= i < j < |ids| ==> ids[i] != ids[j]
    ensures forall k :: k in CharacterLinks(rows, ids) ==> CharacterLinks(rows, ids)[k] in ids
    ensures Injective(CharacterLinks(rows, ids))
  {
    if rows != [] {
      var n := |rows| - 1;
      LinksAreLinked(rows[..n], ids[..n]);
      var links, rest := CharacterLinks(rows, ids), CharacterLinks(rows[..n], ids[..n]);
      forall k | k in links ensures links[k] in ids && (k != rows[n].id ==> links[k] != ids[n]) {
        if k != rows[n].id { assert k in rest && links[k] == rest[k] && rest[k] in ids[..n]; }
      }
    }
  }

  /** A product published before mappings were stored, as its composition describes it. */
  ghost predicate Legacy(s: Product) {
    && s.draft.Some? && s.draft.value.stored.Some? && s.draft.value.stored.value.studio.None?
    && s.draft.value.stored.value.release.Some?
    && (forall i :: 0 <= i < |s.linked| ==> s.linked[i] in s.characters && s.linked[i] < s.nextId)
    && (forall i, j :: 0 <= i < j < |s.linked| ==> s.linked[i] != s.linked[j])
    && forall b :: b in s.books ==> b < s.nextId && forall id :: id in s.books[b] ==> id < s.nextId
  }

  /** Adoption establishes the publication invariant exactly when the labels identify the entries. */
  lemma AdoptedIsBoundIff(s: Product)
    requires Legacy(s) && Shape(s.draft.value.document) && ComponentMapping(s).Ok?
    ensures Bound(ComponentMapping(s).value, s) <==>
              AllLabelled(EntryValues(s.draft.value.document, s.draft.value.document.scenes), s.books[s.linkedBooks[0]])
  {
    var d := s.draft.value.document;
    var book := s.books[s.linkedBooks[0]];
    var values := EntryValues(d, d.scenes);
    EntryKeysDistinct(d, d.scenes);
    AdoptionIsBijectionIff(values, book);
    LinksAreLinked(d.characters, s.linked);
    var m := ComponentMapping(s).value;
    if AllLabelled(values, book) {
      forall k | k in m.entries ensures m.entries[k] < s.nextId {
        assert m.entries[k] in m.entries.Values;
      }
    }
  }

  lemma OnlyCandidate(id: nat, e: Entry)
    ensures Candidates(e, map[id := e]) == {id}
  {
    var book := map[id := e];
    forall x | x in Candidates(e, book) ensures x == id { assert x in book; }
    assert id in book && book[id] == e;
  }

  /** Two rows with one title and a book holding that title once: adoption gives both the one entry. */
  lemma AdoptionCanMerge(lore: Lore)
    ensures var values := [("lore:a", LoreEntry(lore)), ("lore:b", LoreEntry(lore))];
            var adopted := AdoptEntries(values, map[7 := LoreEntry(lore)]);
            && adopted.Some? && "lore:a" in adopted.value && "lore:b" in adopted.value
            && adopted.value["lore:a"] == adopted.value["lore:b"] == 7
  {
    var values := [("lore:a", LoreEntry(lore)), ("lore:b", LoreEntry(lore))];
    var book := map[7 := LoreEntry(lore)];
    OnlyCandidate(7, LoreEntry(lore));
    assert OneCandidate(LoreEntry(lore), book);
    assert "lore:a"[5] != "lore:b"[5];
    AdoptionIs(values, book);
    var adopted := AdoptEntries(values, book).value;
    assert AdoptedAt(adopted, values, book, 0) && AdoptedAt(adopted, values, book, 1);
    assert adopted["lore:a"] in {7} && adopted["lore:b"] in {7};
  }

  /**
    What a product published before mappings can be adopted by: as many linked characters as rows,
    one book that exists, and one candidate for every row. A product never released needs nothing.
   */
  lemma AdoptsIff(s: Product)
    requires s.draft.Some? && Shape(s.draft.value.document)
    requires s.draft.value.stored.Some? && s.draft.value.stored.value.studio.None?
    ensures var d := s.draft.value;
            var values := EntryValues(d.document, d.document.scenes);
            && (d.stored.value.release.None? ==> ComponentMapping(s) == Ok(NO_MAPPING))
            && (d.stored.value.release.Some? ==>
                  (ComponentMapping(s).Ok? <==>
                     && |s.linked| == |d.document.characters| && |s.linkedBooks| == 1 && s.linkedBooks[0] in s.books
                     && forall i :: 0 <= i < |values| ==> OneCandidate(values[i].1, s.books[s.linkedBooks[0]])))
            && (ComponentMapping(s).Ok? && d.stored.value.release.Some? ==>
                  ComponentMapping(s).value.book == Some(s.linkedBooks[0]) && ComponentMapping(s).value.receipts == map[])
  {
    var d := s.draft.value;
    EntryKeysDistinct(d.document, d.document.scenes);
    if |s.linkedBooks| == 1 && s.linkedBooks[0] in s.books {
      AdoptionIs(EntryValues(d.document, d.document.scenes), s.books[s.linkedBooks[0]]);
    }
  }
}
