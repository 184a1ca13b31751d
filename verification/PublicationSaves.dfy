/**
  The compare-and-swap of the draft, and the preparation of uploads: exactly when they succeed,
  what they then leave, and what that means over whole runs.
 */
module PublicationSaves {
  import opened Wrappers
  import opened Rows
  import opened StudioProject
  import opened StudioPublication
  import opened PublicationRuns

  function RevisionOf(s: Product): Option<int> {
    if s.draft.Some? then Some(s.draft.value.revision) else None
  }

  function DocumentOf(s: Product): Option<Project> {
    if s.draft.Some? then Some(s.draft.value.document) else None
  }

  predicate Changes(s: Product, document: Project) {
    DocumentOf(s) != Some(document)
  }

  /** A publication older than the stored mapping can be adopted, if there is one. */
  predicate AdoptionWorks(s: Product) {
    s.draft.Some? && s.draft.value.stored.Some? && s.draft.value.stored.value.studio.None? ==> ComponentMapping(s).Ok?
  }

  predicate GoodRequest(s: Product, expected: Option<int>, document: Project, acceptable: bool) {
    && Shape(document) && acceptable
    && (expected.Some? ==> expected.value >= 1 && s.draft.Some? && AdoptionWorks(s))
  }

  /** What a save leaves: the document at the next revision, and all the rest as it was. */
  predicate SavedAs(s: Product, s': Product, document: Project) {
    && s' == s.(draft := s'.draft) && s'.draft.Some?
    && s'.draft.value.document == document
    && s'.draft.value.revision == (if s.draft.Some? then s.draft.value.revision + 1 else 1)
    && s'.draft.value.published == (if s.draft.Some? then s.draft.value.published else None)
    && ReleaseOf(s') == ReleaseOf(s)
  }

  /**
    A save that changes the document succeeds if and only if the request is good and names the
    draft's revision, none for no draft; otherwise nothing changes, and it is a conflict whenever
    the request is good. A save of the stored document succeeds whatever revision it names.
   */
  lemma SaveSucceedsIff(s: Product, expected: Option<int>, document: Project, acceptable: bool)
    ensures var (s', r) := Saved(s, expected, document, acceptable);
            && (r.Ok? <==> GoodRequest(s, expected, document, acceptable) && (Changes(s, document) ==> expected == RevisionOf(s)))
            && (r.Conflict? <== GoodRequest(s, expected, document, acceptable) && !r.Ok?)
            && (!r.Ok? ==> s' == s)
            && (r.Ok? ==> s'.draft == Some(r.value))
            && (r.Ok? && Changes(s, document) ==> SavedAs(s, s', document))
            && (r.Ok? && !Changes(s, document) ==> RevisionOf(s') == RevisionOf(s) && DocumentOf(s') == DocumentOf(s))
  {}

  /** A save that names a revision leaves the identities of an older publication adopted. */
  lemma SaveAdopts(s: Product, expected: int, document: Project, acceptable: bool)
    requires Saved(s, Some(expected), document, acceptable).1.Ok? && s.draft.value.stored.Some?
    ensures var s' := Saved(s, Some(expected), document, acceptable).0;
            && ComponentMapping(s).Ok?
            && s'.draft.value.stored == Some(Stored(ReleaseOf(s), Some(ComponentMapping(s).value)))
            && ComponentMapping(s') == ComponentMapping(s)
  {}

  /**
    Of two saves that name one revision and change the document, at most one succeeds, whatever
    is saved, prepared and published between them.
   */
  lemma AtMostOneSave(s: Product, expected: Option<int>, first: Project, second: Project, a: bool, b: bool, between: seq<Event>)
    requires Saved(s, expected, first, a).1.Ok? && Changes(s, first)
    requires Changes(Run(Saved(s, expected, first, a).0, between), second)
    ensures !Saved(Run(Saved(s, expected, first, a).0, between), expected, second, b).1.Ok?
  {
    var s1 := Saved(s, expected, first, a).0;
    SaveSucceedsIff(s, expected, first, a);
    RunGrows(s1, between);
    SaveSucceedsIff(Run(s1, between), expected, second, b);
  }

  // ---------- every stored document was saved over its predecessor ----------

  lemma {:induction false} RunLast(s: Product, events: seq<Event>, e: Event)
    ensures Run(s, events + [e]) == Apply(Run(s, events), e)
    decreases events
  {
    if events == [] {
      assert Run(s, [e]) == Run(Apply(s, e), []);
    } else {
      RunLast(Apply(s, events[0]), events[1..], e);
      assert (events + [e])[1..] == events[1..] + [e];
    }
  }

  /** Only a save that names the draft's revision changes the draft's document or revision. */
  lemma StepSaves(s: Product, e: Event)
    ensures (RevisionOf(Apply(s, e)), DocumentOf(Apply(s, e))) != (RevisionOf(s), DocumentOf(s)) ==>
              e.Save? && e.expected == RevisionOf(s) && Changes(s, e.document) && SavedAs(s, Apply(s, e), e.document)
  {
    match e
    case Save(expected, document, acceptable) => SaveSucceedsIff(s, expected, document, acceptable);
    case Prepare(_, _) =>
    case Publish(c, acceptable) => PublishKeepsDraft(s, c, acceptable);
  }

  lemma PublishKeepsDraft(s: Product, c: Command, acceptable: bool)
    ensures RevisionOf(Published(s, c, acceptable).0) == RevisionOf(s) && DocumentOf(Published(s, c, acceptable).0) == DocumentOf(s)
  {
    if s.draft.Some? && ComponentMapping(s).Ok? { PublishedCases(s, c, acceptable, ComponentMapping(s).value); }
  }

  /** The k-th event saved this document at this revision, over the one before. */
  ghost predicate SavedAt(events: seq<Event>, k: nat, s: Product) {
    && k < |events| && events[k].Save? && s.draft.Some?
    && events[k].document == s.draft.value.document
    && events[k].expected == RevisionOf(Run(NEW_PRODUCT, events[..k]))
    && RevisionOf(s) == RevisionOf(Run(NEW_PRODUCT, events[..k + 1]))
    && SavedAs(Run(NEW_PRODUCT, events[..k]), Run(NEW_PRODUCT, events[..k + 1]), events[k].document)
  }

  /**
    In every run of a new product: the stored document is one that some caller saved, a caller who
    named the revision of the document it replaced, and no event changed it since.
   */
  lemma {:induction false} StoredBySave(events: seq<Event>) returns (k: nat)
    requires Run(NEW_PRODUCT, events).draft.Some?
    ensures SavedAt(events, k, Run(NEW_PRODUCT, events))
    decreases events
  {
    var n := |events| - 1;
    var first, last := events[..n], events[n];
    assert events == first + [last];
    RunLast(NEW_PRODUCT, first, last);
    var s, s' := Run(NEW_PRODUCT, first), Run(NEW_PRODUCT, events);
    StepSaves(s, last);
    if RevisionOf(s') == RevisionOf(s) && DocumentOf(s') == DocumentOf(s) {
      k := StoredBySave(first);
      assert events[..k] == first[..k] && events[..k + 1] == first[..k + 1];
    } else {
      k := n;
      assert events[..n + 1] == events;
    }
  }

  // ---------- upload preparation ----------

  lemma {:induction false} NewCharactersAre(rows: seq<Row<Character>>, known: map<string, nat>, characters: map<nat, CharacterProfile>, nextId: nat)
    ensures var r := NewCharacters(rows, known, characters, nextId);
            && nextId <= r.2 && r.0.Keys == known.Keys + Ids(rows)
            && (forall k :: k in known ==> r.0[k] == known[k])
            && (forall k :: k in r.0 && k !in known ==> nextId <= r.0[k] < r.2)
            && (forall id :: id in characters && id < nextId ==> id in r.1 && r.1[id] == characters[id])
  {
    if rows == [] {
      assert Ids(rows) == {};
    } else {
      IdsCons(rows);
      if rows[0].id in known { NewCharactersAre(rows[1..], known, characters, nextId); }
      else { NewCharactersAre(rows[1..], known[rows[0].id := nextId], characters[nextId := rows[0].value.profile], nextId + 1); }
    }
  }

  lemma {:induction false} NoNewCharacters(rows: seq<Row<Character>>, known: map<string, nat>, characters: map<nat, CharacterProfile>, nextId: nat)
    requires Ids(rows) <= known.Keys
    ensures NewCharacters(rows, known, characters, nextId) == (known, characters, nextId)
  {
    if rows != [] {
      IdsCons(rows);
      NoNewCharacters(rows[1..], known, characters, nextId);
    }
  }

  /** The copies a product's studio knows, by document row. */
  function KnownCopies(s: Product): map<string, nat> {
    if s.draft.Some? && s.draft.value.stored.Some? && s.draft.value.stored.value.studio.Some?
    then s.draft.value.stored.value.studio.value.characters else map[]
  }

  ghost predicate PreparedAs(s: Product, s': Product, known: map<string, nat>, before: map<string, nat>) {
    && s.draft.Some? && s'.draft.Some? && KnownCopies(s') == known
    && known.Keys == before.Keys + Ids(s.draft.value.document.characters)
    && (forall k :: k in before ==> known[k] == before[k])
    && (forall k :: k in known && k !in before ==> s.nextId <= known[k] < s'.nextId)
    && (forall id :: id in s.characters && id < s.nextId ==> id in s'.characters && s'.characters[id] == s.characters[id])
    && s'.books == s.books && s'.snapshots == s.snapshots && s'.linked == s.linked && s'.startIds == s.startIds
  }

  predicate ReadyToPrepare(s: Product, revision: int, acceptable: bool) {
    && s.draft.Some? && s.draft.value.revision == revision && Shape(s.draft.value.document)
    && (forall i :: 0 <= i < |s.draft.value.document.characters| ==>
          var profile := s.draft.value.document.characters[i].value.profile; !Blank(profile.name) && !Blank(profile.persona))
    && ComponentMapping(s).Ok? && acceptable
  }

  /**
    A preparation succeeds exactly for the draft's revision, a document whose characters have
    names and personas, and a mapping that can be read. It keeps every known copy, makes a new one
    for each row without, writes both down, and leaves all else; otherwise nothing changes.
   */
  lemma PrepareSucceedsIff(s: Product, revision: int, acceptable: bool)
    ensures var (s', r) := Prepared(s, revision, acceptable);
            && (r.Ok? <==> ReadyToPrepare(s, revision, acceptable))
            && (!r.Ok? ==> s' == s)
            && (r.Ok? ==> PreparedAs(s, s', r.value, ComponentMapping(s).value.characters))
  {
    if ReadyToPrepare(s, revision, acceptable) {
      NewCharactersAre(s.draft.value.document.characters, ComponentMapping(s).value.characters, s.characters, s.nextId);
    }
  }

  lemma PreparedMapping(s: Product, revision: int, acceptable: bool)
    requires Prepared(s, revision, acceptable).1.Ok?
    ensures var (s', r) := Prepared(s, revision, acceptable);
            && ComponentMapping(s).Ok? && s'.draft.Some?
            && ComponentMapping(s') == Ok(ComponentMapping(s).value.(characters := r.value))
            && s'.draft == Some(s.draft.value.(stored := Some(Stored(ReleaseOf(s), Some(ComponentMapping(s').value)))))
  {}

  /** Retrying a preparation hands out the same copies and makes no others. */
  lemma PreparedAgain(s: Product, revision: int, acceptable: bool)
    requires Prepared(s, revision, acceptable).1.Ok?
    ensures var (s', r) := Prepared(s, revision, acceptable);
            Prepared(s', revision, true) == (s', r)
  {
    var (s', r) := Prepared(s, revision, acceptable);
    PreparedMapping(s, revision, acceptable);
    PrepareSucceedsIff(s, revision, acceptable);
    NoNewCharacters(s.draft.value.document.characters, r.value, s'.characters, s'.nextId);
  }

  // ---------- copies keep their identity ----------

  predicate MapGrows(f: map<string, nat>, g: map<string, nat>) {
    forall k :: k in f ==> k in g && g[k] == f[k]
  }

  ghost predicate KeepsCopies(s: Product, s': Product) {
    MapGrows(KnownCopies(s), KnownCopies(s'))
  }

  lemma StepKeepsCopies(s: Product, e: Event)
    requires Owned(s)
    ensures KeepsCopies(s, Apply(s, e))
  {
    match e
    case Save(expected, document, acceptable) =>
    case Prepare(revision, acceptable) =>
      PrepareSucceedsIff(s, revision, acceptable);
    case Publish(c, acceptable) =>
      if s.draft.Some? {
        OwnedMapping(s);
        PublishKeepsCopies(s, c, acceptable, ComponentMapping(s).value);
      }
  }

  lemma RecordedCopies(s: Product, c: Command, m: Mapping, release: Release)
    requires s.draft.Some?
    ensures KnownCopies(Recorded(s, c, m, release).0) == m.characters
  {}

  lemma MappingCopies(s: Product, m: Mapping)
    requires s.draft.Some? && ComponentMapping(s) == Ok(m) && Owned(s)
    ensures MapGrows(KnownCopies(s), m.characters)
  {}

  lemma PublishKeepsCopies(s: Product, c: Command, acceptable: bool, m: Mapping)
    requires s.draft.Some? && ComponentMapping(s) == Ok(m) && Bound(m, s) && Owned(s)
    ensures MapGrows(KnownCopies(s), KnownCopies(Published(s, c, acceptable).0))
  {
    MappingCopies(s, m);
    PublishedCases(s, c, acceptable, m);
    var s' := Published(s, c, acceptable).0;
    if s' == s {
    } else if Unchanged(s, c) && s' == Recorded(s, c, m, s.draft.value.stored.value.release.value).0 {
      RecordedCopies(s, c, m, s.draft.value.stored.value.release.value);
    } else {
      ReconciledCopies(s, m, c);
      var r := Reconciled(s, m, c).value;
      RecordedCopies(r.0, c, r.1, NewRelease(s, c));
    }
  }

  lemma ReconciledCopies(s: Product, m: Mapping, c: Command)
    requires s.draft.Some? && Bound(m, s) && Publishable(s.draft.value.document)
    ensures Reconciled(s, m, c).Some? && MapGrows(m.characters, Reconciled(s, m, c).value.1.characters)
  {
    ReconciledWell(s, m, c);
  }

  /** A row of the document keeps the server copy it once got, through every later run. */
  lemma {:induction false} CopiesKeepTheirIds(s: Product, events: seq<Event>)
    requires Owned(s)
    ensures KeepsCopies(s, Run(s, events))
    decreases events
  {
    if events != [] {
      StepKeepsCopies(s, events[0]);
      StepOwned(s, events[0]);
      CopiesKeepTheirIds(Apply(s, events[0]), events[1..]);
    }
  }
}
