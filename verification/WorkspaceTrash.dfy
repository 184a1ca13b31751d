/**
  Trashing and restoring keep the workspace invariant.

  The invariant has two halves. The workspace is accepted by its reader: every document is
  valid, sources name live originals, ids are unique. And every place an id can stand in is
  filled at most once, by a live row or by one row in the trash, where the rows inside a
  trashed work count as rows in the trash. Trashing moves places from the live side to the
  trash, restoring moves them back, so a restored row never meets another of its id.

  Trashing comes first, for whole works, originals and parts of a work in turn, and then
  restoring each of them.
 */
module WorkspaceTrash {
  import opened Wrappers
  import opened Rows
  import opened StudioProject
  import opened StudioWorkspace
  import opened WorkspaceInvariant

  function AddTrash(w: Workspace, row: Row<TrashEntry>): Workspace {
    w.(trash := w.trash + [row])
  }

  lemma AddTrashAccepts(w: Workspace, row: Row<TrashEntry>)
    requires Accepts(w) && row.id != "" && row.id !in Ids(w.trash) && ValidEntry(row.value)
    ensures Accepts(AddTrash(w, row))
  {
    AppendUnique(w.trash, row);
    var w' := AddTrash(w, row);
    forall i | 0 <= i < |w'.works| ensures SourcesLive(w', w'.works[i].value) {}
    forall i | 0 <= i < |w'.trash| ensures ValidEntry(w'.trash[i].value) {
      if i < |w.trash| { assert w'.trash[i] == w.trash[i]; }
    }
  }

  lemma FoundAt<T>(rows: seq<Row<T>>, id: string) returns (k: nat)
    requires Distinct(rows) && Find(rows, id).Some?
    ensures k < |rows| && rows[k] == Find(rows, id).value && rows[k].id == id
  {
    k := WithoutAt(rows, id);
  }

  // ---------- whole works ----------

  lemma WithoutWorkAccepts(w: Workspace, id: string)
    requires Accepts(w)
    ensures Accepts(w.(works := Without(w.works, id)))
  {
    WithoutKeeps(w.works, id);
    var w' := w.(works := Without(w.works, id));
    forall i | 0 <= i < |w'.works| ensures ValidProject(w'.works[i].value) && SourcesLive(w', w'.works[i].value) {
      assert w'.works[i] in w'.works && w'.works[i] in w.works;
      assert SourcesLive(w, w'.works[i].value);
    }
  }

  lemma WithoutWorkLive(w: Workspace, id: string, k: nat)
    requires UniqueRows(w.works) && k < |w.works| && w.works[k].id == id
    ensures forall s :: Live(w.(works := Without(w.works, id)), s) ==> Live(w, s) && !InWork(w.works[k], s)
  {
    WithoutKeeps(w.works, id);
    var w' := w.(works := Without(w.works, id));
    forall s, i | 0 <= i < |w'.works| && InWork(w'.works[i], s) ensures Live(w, s) && !InWork(w.works[k], s) {
      assert w'.works[i] in w'.works;
      RowLive(w, w'.works[i], s);
    }
  }

  lemma RowLive(w: Workspace, row: Row<Project>, s: Slot)
    requires row in w.works && InWork(row, s)
    ensures Live(w, s)
  {
    var n :| 0 <= n < |w.works| && w.works[n] == row;
    assert InWork(w.works[n], s);
  }

  lemma TrashWorkKeeps(w: Workspace, id: string, newId: string, now: string)
    requires Inv(w) && Unused(w, newId) && id in Ids(w.works)
    ensures Inv(TrashEntity(w, WorkKind, id, None, newId, now))
  {
    var k := WithoutAt(w.works, id);
    var d := w.works[k];
    var row := Row(newId, TrashEntry(d.value.work.title, now, TrashedWork(d)));
    AddTrashAccepts(w, row);
    var mid := AddTrash(w, row);
    WithoutWorkAccepts(mid, id);
    WithoutWorkLive(mid, id, k);
    AddTrashLive(w, row);
    TrashWorkSeparate(w, mid.(works := Without(mid.works, id)), row, k);
  }

  lemma AddTrashLive(w: Workspace, row: Row<TrashEntry>)
    ensures forall s :: Live(AddTrash(w, row), s) <==> Live(w, s)
  {
    assert AddTrash(w, row).works == w.works;
  }

  lemma TrashWorkSeparate(w: Workspace, w': Workspace, row: Row<TrashEntry>, k: nat)
    requires Separate(w) && k < |w.works| && row.value.what == TrashedWork(w.works[k])
    requires w'.trash == w.trash + [row]
    requires forall s :: Live(w', s) ==> Live(w, s) && !InWork(w.works[k], s)
    ensures Separate(w')
  {
    TrashSeparate(w, w', row.value);
  }

  // ---------- originals ----------

  lemma DetachCharactersSpec(p: Project, id: string)
    ensures var q := DetachCharacters(p, id);
            && (forall part :: PartIds(q, part) == PartIds(p, part))
            && (ValidProject(p) ==> ValidProject(q))
            && q.lorebooks == p.lorebooks && |q.characters| == |p.characters|
            && forall i :: 0 <= i < |p.characters| ==>
                 q.characters[i].value.sourceId == (if p.characters[i].value.sourceId == Some(id) then None else p.characters[i].value.sourceId)
  {
    MapKeeps(p.characters, (row: Row<Character>) =>
      if row.value.sourceId == Some(id) then row.value.(sourceId := None) else row.value);
    var q := DetachCharacters(p, id);
    if ValidProject(p) {
      forall i | 0 <= i < |q.scenes| ensures ResolvedScene(q, q.scenes[i].value) { assert ResolvedScene(p, p.scenes[i].value); }
    }
  }

  lemma DetachLoresRows(p: Project, id: string)
    ensures var q := DetachLores(p, id);
            && Ids(q.lorebooks) == Ids(p.lorebooks) && (UniqueRows(q.lorebooks) <==> UniqueRows(p.lorebooks))
            && |q.lorebooks| == |p.lorebooks|
            && forall i :: 0 <= i < |p.lorebooks| ==>
                 && q.lorebooks[i].id == p.lorebooks[i].id
                 && q.lorebooks[i].value == p.lorebooks[i].value.(sourceId := q.lorebooks[i].value.sourceId)
                 && q.lorebooks[i].value.sourceId == (if p.lorebooks[i].value.sourceId == Some(id) then None else p.lorebooks[i].value.sourceId)
  {
    MapKeeps(p.lorebooks, (row: Row<Lore>) =>
      if row.value.sourceId == Some(id) then row.value.(sourceId := None) else row.value);
  }

  lemma DetachLoresSpec(p: Project, id: string)
    ensures var q := DetachLores(p, id);
            && (forall part :: PartIds(q, part) == PartIds(p, part))
            && (ValidProject(p) ==> ValidProject(q))
  {
    DetachLoresRows(p, id);
    var q := DetachLores(p, id);
    if ValidProject(p) {
      forall i | 0 <= i < |q.scenes| ensures ResolvedScene(q, q.scenes[i].value) {
        assert ResolvedScene(p, p.scenes[i].value);
        var s := p.scenes[i].value;
        if s.placeId != "" {
          var j :| 0 <= j < |p.lorebooks| && p.lorebooks[j].id == s.placeId && p.lorebooks[j].value.category == Place;
          assert q.lorebooks[j].id == s.placeId && q.lorebooks[j].value.category == Place;
        }
      }
    }
  }

  /** A detaching keeps every id and validity. */
  ghost predicate Gentle(detach: Project -> Project) {
    forall p :: (forall part :: PartIds(detach(p), part) == PartIds(p, part)) && (ValidProject(p) ==> ValidProject(detach(p)))
  }

  lemma DetachAllKeeps(w: Workspace, detach: Project -> Project)
    requires Gentle(detach)
    requires UniqueRows(w.works) && UniqueRows(w.trash)
    requires forall i :: 0 <= i < |w.trash| ==> ValidEntry(w.trash[i].value)
    requires forall i :: 0 <= i < |w.works| ==> ValidProject(w.works[i].value)
    ensures var w' := DetachAll(w, detach);
            && UniqueRows(w'.works) && UniqueRows(w'.trash) && |w'.trash| == |w.trash|
            && (forall i :: 0 <= i < |w'.trash| ==> ValidEntry(w'.trash[i].value))
            && (forall i :: 0 <= i < |w'.works| ==> ValidProject(w'.works[i].value))
            && (forall i, s :: 0 <= i < |w.trash| ==> (Holds(w'.trash[i].value, s) <==> Holds(w.trash[i].value, s)))
            && (forall s :: Live(w', s) <==> Live(w, s))
  {
    var w' := DetachAll(w, detach);
    MapKeeps(w.works, (row: Row<Project>) => detach(row.value));
    MapKeeps(w.trash, (row: Row<TrashEntry>) => DetachEntry(row.value, detach));
    forall i, s | 0 <= i < |w.trash| ensures Holds(w'.trash[i].value, s) <==> Holds(w.trash[i].value, s) {
      assert w'.trash[i].value == DetachEntry(w.trash[i].value, detach);
    }
    forall s ensures Live(w', s) <==> Live(w, s) {
      if s.WorkSlot? || s.PartSlot? {
        forall i | 0 <= i < |w.works| ensures InWork(w'.works[i], s) <==> InWork(w.works[i], s) {}
      }
    }
  }

  lemma GentleCharacters(id: string)
    ensures Gentle(CharacterDetacher(id))
  {
    forall p ensures (forall part :: PartIds(CharacterDetacher(id)(p), part) == PartIds(p, part))
                  && (ValidProject(p) ==> ValidProject(CharacterDetacher(id)(p)))
    {
      DetachCharactersSpec(p, id);
    }
  }

  lemma SourcesCharacters(w: Workspace, w': Workspace, p: Project, id: string)
    requires SourcesLive(w, p) && Ids(w'.characters) == Ids(w.characters) - {id} && w'.lorebooks == w.lorebooks
    ensures SourcesLive(w', CharacterDetacher(id)(p))
  {
    DetachCharactersSpec(p, id);
  }

  lemma WithoutCharacterAccepts(w: Workspace, id: string)
    requires Accepts(w)
    ensures Accepts(DetachAll(w.(characters := Without(w.characters, id)), CharacterDetacher(id)))
  {
    WithoutKeeps(w.characters, id);
    var mid := w.(characters := Without(w.characters, id));
    GentleCharacters(id);
    DetachAllKeeps(mid, CharacterDetacher(id));
    var w' := DetachAll(mid, CharacterDetacher(id));
    forall i | 0 <= i < |w'.works| ensures SourcesLive(w', w'.works[i].value) {
      assert SourcesLive(w, w.works[i].value);
      SourcesCharacters(w, w', w.works[i].value, id);
    }
    forall i | 0 <= i < |w'.characters| ensures w'.characters[i] in w.characters { assert w'.characters[i] in w'.characters; }
  }

  lemma WithoutCharacterLive(w: Workspace, row: Row<TrashEntry>, id: string)
    ensures forall s :: Live(AddTrash(w, row).(characters := Without(w.characters, id)), s) <==> Live(w, s) && s != CharacterSlot(id)
  {
    WithoutIds(w.characters, id);
    assert AddTrash(w, row).works == w.works;
  }

  lemma TrashCharacterSeparate(w: Workspace, id: string, row: Row<TrashEntry>)
    requires Separate(w) && Accepts(AddTrash(w, row)) && id in Ids(w.characters)
    requires forall s :: Holds(row.value, s) <==> s == CharacterSlot(id)
    ensures Separate(DetachAll(AddTrash(w, row).(characters := Without(w.characters, id)), CharacterDetacher(id)))
  {
    WithoutCharacterLive(w, row, id);
    var mid := AddTrash(w, row).(characters := Without(w.characters, id));
    GentleCharacters(id);
    DetachAllKeeps(mid, CharacterDetacher(id));
    DetachedSeparate(w, mid, DetachAll(mid, CharacterDetacher(id)), row);
  }

  lemma TrashCharacterKeeps(w: Workspace, id: string, newId: string, now: string)
    requires Inv(w) && Unused(w, newId) && id in Ids(w.characters)
    ensures Inv(TrashEntity(w, CharacterKind, id, None, newId, now))
  {
    var k := WithoutAt(w.characters, id);
    var d := w.characters[k];
    var row := Row(newId, TrashEntry(d.value.profile.name, now, TrashedCharacter(d)));
    AddTrashAccepts(w, row);
    WithoutCharacterAccepts(AddTrash(w, row), id);
    TrashCharacterSeparate(w, id, row);
  }

  lemma GentleLores(id: string)
    ensures Gentle(LoreDetacher(id))
  {
    forall p ensures (forall part :: PartIds(LoreDetacher(id)(p), part) == PartIds(p, part))
                  && (ValidProject(p) ==> ValidProject(LoreDetacher(id)(p)))
    {
      DetachLoresSpec(p, id);
    }
  }

  lemma SourcesLores(w: Workspace, w': Workspace, p: Project, id: string)
    requires SourcesLive(w, p) && Ids(w'.lorebooks) == Ids(w.lorebooks) - {id} && w'.characters == w.characters
    ensures SourcesLive(w', LoreDetacher(id)(p))
  {
    DetachLoresRows(p, id);
  }

  lemma WithoutLoreAccepts(w: Workspace, id: string)
    requires Accepts(w)
    ensures Accepts(DetachAll(w.(lorebooks := Without(w.lorebooks, id)), LoreDetacher(id)))
  {
    WithoutKeeps(w.lorebooks, id);
    var mid := w.(lorebooks := Without(w.lorebooks, id));
    GentleLores(id);
    DetachAllKeeps(mid, LoreDetacher(id));
    var w' := DetachAll(mid, LoreDetacher(id));
    forall i | 0 <= i < |w'.works| ensures SourcesLive(w', w'.works[i].value) {
      assert SourcesLive(w, w.works[i].value);
      SourcesLores(w, w', w.works[i].value, id);
    }
    forall i | 0 <= i < |w'.lorebooks| ensures w'.lorebooks[i] in w.lorebooks { assert w'.lorebooks[i] in w'.lorebooks; }
  }

  lemma WithoutLoreLive(w: Workspace, row: Row<TrashEntry>, id: string)
    ensures forall s :: Live(AddTrash(w, row).(lorebooks := Without(w.lorebooks, id)), s) <==> Live(w, s) && s != LoreSlot(id)
  {
    WithoutIds(w.lorebooks, id);
    assert AddTrash(w, row).works == w.works;
  }

  lemma TrashLoreSeparate(w: Workspace, id: string, row: Row<TrashEntry>)
    requires Separate(w) && Accepts(AddTrash(w, row)) && id in Ids(w.lorebooks)
    requires forall s :: Holds(row.value, s) <==> s == LoreSlot(id)
    ensures Separate(DetachAll(AddTrash(w, row).(lorebooks := Without(w.lorebooks, id)), LoreDetacher(id)))
  {
    WithoutLoreLive(w, row, id);
    var mid := AddTrash(w, row).(lorebooks := Without(w.lorebooks, id));
    GentleLores(id);
    DetachAllKeeps(mid, LoreDetacher(id));
    DetachedSeparate(w, mid, DetachAll(mid, LoreDetacher(id)), row);
  }

  lemma TrashLoreKeeps(w: Workspace, id: string, newId: string, now: string)
    requires Inv(w) && Unused(w, newId) && id in Ids(w.lorebooks)
    ensures Inv(TrashEntity(w, LoreKind, id, None, newId, now))
  {
    var k := WithoutAt(w.lorebooks, id);
    var d := w.lorebooks[k];
    var row := Row(newId, TrashEntry(d.value.title, now, TrashedLore(d)));
    AddTrashAccepts(w, row);
    WithoutLoreAccepts(AddTrash(w, row), id);
    TrashLoreSeparate(w, id, row);
  }

  lemma DetachedSeparate(w: Workspace, mid: Workspace, w': Workspace, row: Row<TrashEntry>)
    requires Separate(w) && mid.trash == w.trash + [row] && |w'.trash| == |mid.trash|
    requires forall i, s :: 0 <= i < |mid.trash| ==> (Holds(w'.trash[i].value, s) <==> Holds(mid.trash[i].value, s))
    requires forall s :: Live(w', s) <==> Live(mid, s)
    requires forall s :: Live(mid, s) <==> Live(w, s) && !Holds(row.value, s)
    requires forall s :: Holds(row.value, s) ==> Live(w, s)
    ensures Separate(w')
  {
    forall i | 0 <= i < |w.trash| ensures mid.trash[i] == w.trash[i] {}
    TrashSeparate(w, w', row.value);
  }

  // ---------- parts of a work ----------

  /** `change` takes one part out of a document and leaves the rest. */
  ghost predicate TakesOut(p: Project, q: Project, part: Part, id: string) {
    forall any :: PartIds(q, any) == PartIds(p, any) - (if any == part then {id} else {})
  }

  lemma TrashPartSeparate(w: Workspace, k: nat, change: Project -> Project, part: Part, id: string, row: Row<TrashEntry>)
    requires Separate(w) && Distinct(w.works) && k < |w.works|
    requires id in PartIds(w.works[k].value, part)
    requires TakesOut(w.works[k].value, change(w.works[k].value), part, id)
    requires forall s :: Holds(row.value, s) <==> s == PartSlot(w.works[k].id, part, id)
    ensures Separate(UpdateProject(AddTrash(w, row), w.works[k].id, change))
  {
    var mid := AddTrash(w, row);
    var workId := w.works[k].id;
    var w' := UpdateProject(mid, workId, change);
    UpdateLive(mid, workId, change, k);
    forall s ensures Live(mid, s) <==> Live(w, s) {
      if s.WorkSlot? || s.PartSlot? { assert mid.works == w.works; }
    }
    assert InWork(w.works[k], PartSlot(workId, part, id));
    forall s | Live(w', s) ensures Live(w, s) && !Holds(row.value, s) {
      if s.PartSlot? && s.workId == workId { assert InWork(w.works[k], s); }
    }
    forall i | 0 <= i < |w.trash| ensures w'.trash[i] == w.trash[i] {}
    TrashSeparate(w, w', row.value);
  }

  lemma {:induction false} WithoutRow<T>(rows: seq<Row<T>>, id: string, i: nat) returns (j: nat)
    requires i < |Without(rows, id)|
    ensures j < |rows| && rows[j] == Without(rows, id)[i]
  {
    if rows[0].id != id && i == 0 {
      j := 0;
    } else {
      var k := WithoutRow(rows[1..], id, if rows[0].id == id then i else i - 1);
      j := k + 1;
    }
  }

  lemma WithoutCharacterGood(w: Workspace, p: Project, id: string)
    requires GoodRows(w, p)
    ensures GoodRows(w, DropCharacter(id)(p)) && TakesOut(p, DropCharacter(id)(p), CharacterPart, id)
  {
    WithoutKeeps(p.characters, id);
    var c := Without(p.characters, id);
    forall i | 0 <= i < |c|
      ensures ValidCharacter(c[i].value) && (c[i].value.sourceId.Some? ==> c[i].value.sourceId.value in Ids(w.characters))
    {
      var j := WithoutRow(p.characters, id, i);
    }
  }

  lemma WithoutLoreGood(w: Workspace, p: Project, id: string)
    requires GoodRows(w, p)
    ensures GoodRows(w, DropLore(id)(p)) && TakesOut(p, DropLore(id)(p), LorePart, id)
  {
    WithoutKeeps(p.lorebooks, id);
    var l := Without(p.lorebooks, id);
    forall i | 0 <= i < |l|
      ensures ValidLore(l[i].value) && (l[i].value.sourceId.Some? ==> l[i].value.sourceId.value in Ids(w.lorebooks))
    {
      var j := WithoutRow(p.lorebooks, id, i);
    }
  }

  lemma WithoutSceneGood(w: Workspace, p: Project, id: string)
    requires GoodRows(w, p)
    ensures GoodRows(w, DropScene(id)(p)) && TakesOut(p, DropScene(id)(p), ScenePart, id)
  {
    WithoutKeeps(p.scenes, id);
  }

  predicate OfWork(kind: Kind) {
    kind.WorkCharacterKind? || kind.WorkLoreKind? || kind.SceneKind?
  }

  function Dropping(kind: Kind, id: string): Project -> Project
    requires OfWork(kind)
  {
    match kind
    case WorkCharacterKind => DropCharacter(id)
    case WorkLoreKind => DropLore(id)
    case SceneKind => DropScene(id)
  }

  function PartOf(kind: Kind): Part
    requires OfWork(kind)
  {
    match kind
    case WorkCharacterKind => CharacterPart
    case WorkLoreKind => LorePart
    case SceneKind => ScenePart
  }

  lemma WorkCharacterSelected(w: Workspace, k: nat, id: string) returns (j: nat)
    requires k < |w.works| && Find(w.works, w.works[k].id) == Some(w.works[k]) && UniqueRows(w.works[k].value.characters)
    requires Selected(w, WorkCharacterKind, id, Some(w.works[k].id)).Some?
    ensures j < |w.works[k].value.characters| && w.works[k].value.characters[j].id == id && id in Ids(w.works[k].value.characters)
    ensures Selected(w, WorkCharacterKind, id, Some(w.works[k].id)).value.1
         == TrashedWorkCharacter(w.works[k].id, w.works[k].value.characters[j], SceneIdsOf(w.works[k].value.scenes, UsesCharacter(id)))
  {
    j := FoundAt(w.works[k].value.characters, id);
  }

  lemma WorkLoreSelected(w: Workspace, k: nat, id: string) returns (j: nat)
    requires k < |w.works| && Find(w.works, w.works[k].id) == Some(w.works[k]) && UniqueRows(w.works[k].value.lorebooks)
    requires Selected(w, WorkLoreKind, id, Some(w.works[k].id)).Some?
    ensures j < |w.works[k].value.lorebooks| && w.works[k].value.lorebooks[j].id == id && id in Ids(w.works[k].value.lorebooks)
    ensures Selected(w, WorkLoreKind, id, Some(w.works[k].id)).value.1
         == TrashedWorkLore(w.works[k].id, w.works[k].value.lorebooks[j], SceneIdsOf(w.works[k].value.scenes, UsesPlace(id)))
  {
    j := FoundAt(w.works[k].value.lorebooks, id);
  }

  lemma SceneSelected(w: Workspace, k: nat, id: string) returns (j: nat)
    requires k < |w.works| && Find(w.works, w.works[k].id) == Some(w.works[k]) && UniqueRows(w.works[k].value.scenes)
    requires Selected(w, SceneKind, id, Some(w.works[k].id)).Some?
    ensures j < |w.works[k].value.scenes| && w.works[k].value.scenes[j].id == id && id in Ids(w.works[k].value.scenes)
    ensures Selected(w, SceneKind, id, Some(w.works[k].id)).value.1
         == TrashedScene(w.works[k].id, w.works[k].value.scenes[j], w.works[k].value.work.defaultSceneId == id)
  {
    j := FoundAt(w.works[k].value.scenes, id);
  }

  /** What goes to the trash is one part of the named work, and it is a valid entry. */
  lemma PartSelected(w: Workspace, k: nat, kind: Kind, id: string)
    requires OfWork(kind) && k < |w.works| && Find(w.works, w.works[k].id) == Some(w.works[k])
    requires w.works[k].id != "" && ValidRows(w.works[k].value)
    requires Selected(w, kind, id, Some(w.works[k].id)).Some?
    ensures var (title, what) := Selected(w, kind, id, Some(w.works[k].id)).value;
            forall now :: ValidEntry(TrashEntry(title, now, what))
                       && forall s :: Holds(TrashEntry(title, now, what), s) <==> s == PartSlot(w.works[k].id, PartOf(kind), id)
    ensures id in PartIds(w.works[k].value, PartOf(kind))
  {
    match kind
    case WorkCharacterKind => var j := WorkCharacterSelected(w, k, id);
    case WorkLoreKind => var j := WorkLoreSelected(w, k, id);
    case SceneKind => var j := SceneSelected(w, k, id);
  }

  lemma TrashedPart(w: Workspace, kind: Kind, id: string, workId: string, newId: string, now: string, row: Row<TrashEntry>)
    requires OfWork(kind)
    requires var selected := Selected(w, kind, id, Some(workId));
             selected.Some? && row == Row(newId, TrashEntry(selected.value.0, now, selected.value.1))
    ensures TrashEntity(w, kind, id, Some(workId), newId, now) == UpdateProject(AddTrash(w, row), workId, Dropping(kind, id))
  {}

  lemma TrashPartAccepts(w: Workspace, k: nat, change: Project -> Project, row: Row<TrashEntry>)
    requires Accepts(w) && k < |w.works| && GoodRows(w, change(w.works[k].value))
    requires row.id != "" && row.id !in Ids(w.trash) && ValidEntry(row.value)
    ensures Accepts(UpdateProject(AddTrash(w, row), w.works[k].id, change))
  {
    AddTrashAccepts(w, row);
    var mid := AddTrash(w, row);
    assert GoodRows(mid, change(mid.works[k].value));
    UpdateAccepts(mid, w.works[k].id, change);
  }

  lemma DroppingIsGood(w: Workspace, p: Project, kind: Kind, id: string)
    requires GoodRows(w, p) && OfWork(kind)
    ensures GoodRows(w, Dropping(kind, id)(p)) && TakesOut(p, Dropping(kind, id)(p), PartOf(kind), id)
  {
    match kind
    case WorkCharacterKind => WithoutCharacterGood(w, p, id);
    case WorkLoreKind => WithoutLoreGood(w, p, id);
    case SceneKind => WithoutSceneGood(w, p, id);
  }

  lemma TrashPartKeeps(w: Workspace, kind: Kind, id: string, workId: string, newId: string, now: string)
    requires Inv(w) && Unused(w, newId) && OfWork(kind) && Selected(w, kind, id, Some(workId)).Some?
    ensures Inv(TrashEntity(w, kind, id, Some(workId), newId, now))
  {
    var k := FoundAt(w.works, workId);
    var selected := Selected(w, kind, id, Some(workId)).value;
    var row := Row(newId, TrashEntry(selected.0, now, selected.1));
    PartSelected(w, k, kind, id);
    TrashedPart(w, kind, id, workId, newId, now, row);
    DroppingIsGood(w, w.works[k].value, kind, id);
    TrashPartAccepts(w, k, Dropping(kind, id), row);
    TrashPartSeparate(w, k, Dropping(kind, id), PartOf(kind), id, row);
  }

  /** Trashing any row keeps the invariant; a row that does not exist changes nothing. */
  lemma TrashKeeps(w: Workspace, kind: Kind, id: string, workId: Option<string>, newId: string, now: string)
    requires Inv(w) && Unused(w, newId)
    ensures Inv(TrashEntity(w, kind, id, workId, newId, now))
  {
    if Selected(w, kind, id, workId).Some? {
      match kind
      case WorkKind => TrashWorkKeeps(w, id, newId, now);
      case CharacterKind => TrashCharacterKeeps(w, id, newId, now);
      case LoreKind => TrashLoreKeeps(w, id, newId, now);
      case _ => TrashPartKeeps(w, kind, id, workId.value, newId, now);
    }
  }

  // ---------- restore ----------

  function DropTrash(w: Workspace, trashId: string): Workspace {
    w.(trash := Without(w.trash, trashId))
  }

  lemma DropTrashAccepts(w: Workspace, trashId: string)
    requires Accepts(w)
    ensures Accepts(DropTrash(w, trashId))
    ensures forall s :: Live(DropTrash(w, trashId), s) <==> Live(w, s)
  {
    WithoutKeeps(w.trash, trashId);
    var w' := DropTrash(w, trashId);
    forall i | 0 <= i < |w'.trash| ensures ValidEntry(w'.trash[i].value) {
      assert w'.trash[i] in w'.trash && w'.trash[i] in w.trash;
    }
    forall i | 0 <= i < |w'.works| ensures SourcesLive(w', w'.works[i].value) {}
    forall s ensures Live(w', s) <==> Live(w, s) {
      if s.WorkSlot? || s.PartSlot? { assert w'.works == w.works; }
    }
  }

  lemma AttachedSpec(w: Workspace, p: Project)
    requires ValidRows(p)
    ensures GoodRows(w, AttachedProject(w, p)) && forall part :: PartIds(AttachedProject(w, p), part) == PartIds(p, part)
  {
    MapKeeps(p.characters, (row: Row<Character>) => AttachedCharacter(w, row.value));
    MapKeeps(p.lorebooks, (row: Row<Lore>) => AttachedLore(w, row.value));
  }

  lemma DropTrashKeeps(w: Workspace, k: nat)
    requires Inv(w) && k < |w.trash|
    ensures var next := DropTrash(w, w.trash[k].id);
            Inv(next) && forall s :: Holds(w.trash[k].value, s) ==> !Held(next, s) && !Live(next, s)
  {
    var t := w.trash[k];
    var next := DropTrash(w, t.id);
    var j := WithoutAt(w.trash, t.id);
    DropTrashAccepts(w, t.id);
    RestoreSeparate(w, next, j);
    forall s, i | Holds(t.value, s) && 0 <= i < |next.trash| ensures !Holds(next.trash[i].value, s) {
      assert next.trash[i] == w.trash[if i < k then i else i + 1];
    }
  }

  lemma WorkIsLive(w: Workspace, id: string)
    ensures id in Ids(w.works) ==> Live(w, WorkSlot(id))
  {
    if id in Ids(w.works) {
      var i :| 0 <= i < |w.works| && w.works[i].id == id;
      assert InWork(w.works[i], WorkSlot(id));
    }
  }

  lemma RestoredWorkIs(w: Workspace, d: Row<Project>)
    requires ValidProject(d.value)
    ensures var q := Repair(AttachedProject(w, d.value));
            ValidProject(q) && SourcesLive(w, q) && forall part :: PartIds(q, part) == PartIds(d.value, part)
  {
    AttachedSpec(w, d.value);
    RepairValid(AttachedProject(w, d.value));
    RepairIds(AttachedProject(w, d.value));
  }

  lemma RestoreWorkKeeps(w: Workspace, k: nat)
    requires Inv(w) && k < |w.trash| && w.trash[k].value.what.TrashedWork?
    ensures Inv(RestoreTrash(w, w.trash[k].id))
  {
    var d := w.trash[k].value.what.work;
    var next := DropTrash(w, w.trash[k].id);
    var j := WithoutAt(w.trash, w.trash[k].id);
    assert ValidEntry(w.trash[k].value) && Holds(w.trash[k].value, WorkSlot(d.id));
    RestoredWorkIs(w, d);
    DropTrashKeeps(w, k);
    var row := Row(d.id, Repair(AttachedProject(w, d.value)));
    assert forall s :: InWork(row, s) <==> InWork(d, s);
    WorkIsLive(next, d.id);
    AddWorkKeeps(next, row);
  }

  lemma RestoreCharacterKeeps(w: Workspace, k: nat)
    requires Inv(w) && k < |w.trash| && w.trash[k].value.what.TrashedCharacter?
    ensures Inv(RestoreTrash(w, w.trash[k].id))
  {
    var d := w.trash[k].value.what.character;
    var j := WithoutAt(w.trash, w.trash[k].id);
    assert ValidEntry(w.trash[k].value) && Holds(w.trash[k].value, CharacterSlot(d.id));
    DropTrashKeeps(w, k);
    AddFreeCharacter(DropTrash(w, w.trash[k].id), Row(d.id, d.value.(sourceId := None)));
  }

  lemma RestoreLoreKeeps(w: Workspace, k: nat)
    requires Inv(w) && k < |w.trash| && w.trash[k].value.what.TrashedLore?
    ensures Inv(RestoreTrash(w, w.trash[k].id))
  {
    var d := w.trash[k].value.what.lore;
    var j := WithoutAt(w.trash, w.trash[k].id);
    assert ValidEntry(w.trash[k].value) && Holds(w.trash[k].value, LoreSlot(d.id));
    DropTrashKeeps(w, k);
    AddFreeLore(DropTrash(w, w.trash[k].id), Row(d.id, d.value.(sourceId := None)));
  }

  ghost predicate PutsIn(p: Project, q: Project, part: Part, id: string) {
    forall any :: PartIds(q, any) == PartIds(p, any) + (if any == part then {id} else {})
  }

  lemma RestorePartAccepts(w: Workspace, trashId: string, n: nat, change: Project -> Project)
    requires Accepts(w) && n < |w.works| && GoodRows(w, change(w.works[n].value))
    ensures Accepts(UpdateProject(DropTrash(w, trashId), w.works[n].id, change))
  {
    var next := DropTrash(w, trashId);
    DropTrashAccepts(w, trashId);
    assert GoodRows(next, change(w.works[n].value));
    UpdateAccepts(next, w.works[n].id, change);
  }

  /** Putting a trashed part back into its live work, where its id is free. */
  lemma RestorePartKeeps(w: Workspace, k: nat, n: nat, change: Project -> Project, part: Part, id: string)
    requires Inv(w) && k < |w.trash| && n < |w.works|
    requires forall s :: Holds(w.trash[k].value, s) <==> s == PartSlot(w.works[n].id, part, id)
    requires GoodRows(w, change(w.works[n].value)) && PutsIn(w.works[n].value, change(w.works[n].value), part, id)
    ensures Inv(UpdateProject(DropTrash(w, w.trash[k].id), w.works[n].id, change))
  {
    var t := w.trash[k];
    var workId := w.works[n].id;
    var next := DropTrash(w, t.id);
    RestorePartAccepts(w, t.id, n, change);
    var j := WithoutAt(w.trash, t.id);
    RestorePartSeparate(w, k, n, change, part, id);
  }

  lemma SameWorksLive(w: Workspace, w': Workspace, s: Slot)
    requires w' == w.(trash := w'.trash)
    ensures Live(w', s) <==> Live(w, s)
  {}

  lemma RestorePartSeparate(w: Workspace, k: nat, n: nat, change: Project -> Project, part: Part, id: string)
    requires Separate(w) && UniqueRows(w.trash) && UniqueRows(w.works) && k < |w.trash| && n < |w.works|
    requires forall s :: Holds(w.trash[k].value, s) <==> s == PartSlot(w.works[n].id, part, id)
    requires PutsIn(w.works[n].value, change(w.works[n].value), part, id)
    ensures Separate(UpdateProject(DropTrash(w, w.trash[k].id), w.works[n].id, change))
  {
    var t := w.trash[k];
    var workId := w.works[n].id;
    var next := DropTrash(w, t.id);
    var j := WithoutAt(w.trash, t.id);
    UpdateLive(next, workId, change, n);
    var w' := UpdateProject(next, workId, change);
    forall s | Live(w', s) ensures Live(w, s) || Holds(t.value, s) {
      if s.PartSlot? && s.workId == workId {
        PartIsLive(w, n, s.part, s.id);
      } else {
        assert Live(next, s);
        SameWorksLive(w, next, s);
      }
    }
    RestoreSeparate(w, w', k);
  }

  lemma RejoinCharacterGood(w: Workspace, p: Project, c: Row<Character>, sceneIds: seq<string>)
    requires GoodRows(w, p) && c.id != "" && c.id !in Ids(p.characters) && ValidCharacter(c.value)
    requires c.value.sourceId.Some? ==> c.value.sourceId.value in Ids(w.characters)
    ensures GoodRows(w, RejoinCharacter(c, sceneIds)(p)) && PutsIn(p, RejoinCharacter(c, sceneIds)(p), CharacterPart, c.id)
  {
    AppendUnique(p.characters, c);
    MapKeeps(p.scenes, (row: Row<Scene>) =>
      if row.id in sceneIds && row.value.characterId == "" then row.value.(characterId := c.id) else row.value);
  }

  lemma RejoinLoreGood(w: Workspace, p: Project, l: Row<Lore>, sceneIds: seq<string>)
    requires GoodRows(w, p) && l.id != "" && l.id !in Ids(p.lorebooks) && ValidLore(l.value)
    requires l.value.sourceId.Some? ==> l.value.sourceId.value in Ids(w.lorebooks)
    ensures GoodRows(w, RejoinLore(l, sceneIds)(p)) && PutsIn(p, RejoinLore(l, sceneIds)(p), LorePart, l.id)
  {
    AppendUnique(p.lorebooks, l);
    MapKeeps(p.scenes, (row: Row<Scene>) =>
      if row.id in sceneIds && row.value.placeId == "" then row.value.(placeId := l.id) else row.value);
  }

  /** The place of a trashed part is free in its work, and the work's document is good. */
  lemma HeldPartIsFree(w: Workspace, k: nat, n: nat, part: Part, id: string)
    requires Inv(w) && k < |w.trash| && n < |w.works| && Holds(w.trash[k].value, PartSlot(w.works[n].id, part, id))
    ensures id !in PartIds(w.works[n].value, part)
    ensures GoodRows(w, w.works[n].value) && ValidEntry(w.trash[k].value)
  {
    PartIsLive(w, n, part, id);
  }

  /** What restoring a part of a live work comes down to. */
  lemma RestoredPart(w: Workspace, k: nat)
    requires k < |w.trash| && Find(w.trash, w.trash[k].id) == Some(w.trash[k])
    ensures match w.trash[k].value.what
            case TrashedWorkCharacter(workId, d, sceneIds) =>
              RestoreTrash(w, w.trash[k].id) == (if workId !in Ids(w.works) then w else
                UpdateProject(DropTrash(w, w.trash[k].id), workId, RejoinCharacter(Row(d.id, AttachedCharacter(w, d.value)), sceneIds)))
            case TrashedWorkLore(workId, d, sceneIds) =>
              RestoreTrash(w, w.trash[k].id) == (if workId !in Ids(w.works) then w else
                UpdateProject(DropTrash(w, w.trash[k].id), workId, RejoinLore(Row(d.id, AttachedLore(w, d.value)), sceneIds)))
            case TrashedScene(workId, d, wasDefault) =>
              RestoreTrash(w, w.trash[k].id) == (if workId !in Ids(w.works) then w else
                UpdateProject(DropTrash(w, w.trash[k].id), workId, RejoinScene(d, wasDefault)))
            case _ => true
  {}

  lemma RejoinWorkCharacterKeeps(w: Workspace, k: nat, n: nat)
    requires Inv(w) && k < |w.trash| && w.trash[k].value.what.TrashedWorkCharacter?
    requires n < |w.works| && w.works[n].id == w.trash[k].value.what.workId
    ensures var what := w.trash[k].value.what;
            Inv(UpdateProject(DropTrash(w, w.trash[k].id), what.workId, RejoinCharacter(Row(what.character.id, AttachedCharacter(w, what.character.value)), what.sceneIds)))
  {
    var what := w.trash[k].value.what;
    HeldPartIsFree(w, k, n, CharacterPart, what.character.id);
    var c := Row(what.character.id, AttachedCharacter(w, what.character.value));
    RejoinCharacterGood(w, w.works[n].value, c, what.sceneIds);
    RestorePartKeeps(w, k, n, RejoinCharacter(c, what.sceneIds), CharacterPart, what.character.id);
  }

  lemma RestoreWorkCharacterKeeps(w: Workspace, k: nat)
    requires Inv(w) && k < |w.trash| && w.trash[k].value.what.TrashedWorkCharacter?
    ensures Inv(RestoreTrash(w, w.trash[k].id))
  {
    var j := WithoutAt(w.trash, w.trash[k].id);
    RestoredPart(w, k);
    if w.trash[k].value.what.workId in Ids(w.works) {
      var n := WithoutAt(w.works, w.trash[k].value.what.workId);
      RejoinWorkCharacterKeeps(w, k, n);
    }
  }

  lemma RejoinWorkLoreKeeps(w: Workspace, k: nat, n: nat)
    requires Inv(w) && k < |w.trash| && w.trash[k].value.what.TrashedWorkLore?
    requires n < |w.works| && w.works[n].id == w.trash[k].value.what.workId
    ensures var what := w.trash[k].value.what;
            Inv(UpdateProject(DropTrash(w, w.trash[k].id), what.workId, RejoinLore(Row(what.lore.id, AttachedLore(w, what.lore.value)), what.sceneIds)))
  {
    var what := w.trash[k].value.what;
    HeldPartIsFree(w, k, n, LorePart, what.lore.id);
    var l := Row(what.lore.id, AttachedLore(w, what.lore.value));
    RejoinLoreGood(w, w.works[n].value, l, what.sceneIds);
    RestorePartKeeps(w, k, n, RejoinLore(l, what.sceneIds), LorePart, what.lore.id);
  }

  lemma RestoreWorkLoreKeeps(w: Workspace, k: nat)
    requires Inv(w) && k < |w.trash| && w.trash[k].value.what.TrashedWorkLore?
    ensures Inv(RestoreTrash(w, w.trash[k].id))
  {
    var j := WithoutAt(w.trash, w.trash[k].id);
    RestoredPart(w, k);
    if w.trash[k].value.what.workId in Ids(w.works) {
      var n := WithoutAt(w.works, w.trash[k].value.what.workId);
      RejoinWorkLoreKeeps(w, k, n);
    }
  }

  lemma RejoinSceneGood(w: Workspace, p: Project, s: Row<Scene>, wasDefault: bool)
    requires GoodRows(w, p) && s.id != "" && s.id !in Ids(p.scenes)
    ensures GoodRows(w, RejoinScene(s, wasDefault)(p)) && PutsIn(p, RejoinScene(s, wasDefault)(p), ScenePart, s.id)
  {
    AppendUnique(p.scenes, s);
  }

  lemma RejoinSceneKeeps(w: Workspace, k: nat, n: nat)
    requires Inv(w) && k < |w.trash| && w.trash[k].value.what.TrashedScene?
    requires n < |w.works| && w.works[n].id == w.trash[k].value.what.workId
    ensures var what := w.trash[k].value.what;
            Inv(UpdateProject(DropTrash(w, w.trash[k].id), what.workId, RejoinScene(what.scene, what.wasDefault)))
  {
    var what := w.trash[k].value.what;
    HeldPartIsFree(w, k, n, ScenePart, what.scene.id);
    RejoinSceneGood(w, w.works[n].value, what.scene, what.wasDefault);
    RestorePartKeeps(w, k, n, RejoinScene(what.scene, what.wasDefault), ScenePart, what.scene.id);
  }

  lemma RestoreSceneKeeps(w: Workspace, k: nat)
    requires Inv(w) && k < |w.trash| && w.trash[k].value.what.TrashedScene?
    ensures Inv(RestoreTrash(w, w.trash[k].id))
  {
    var j := WithoutAt(w.trash, w.trash[k].id);
    RestoredPart(w, k);
    if w.trash[k].value.what.workId in Ids(w.works) {
      var n := WithoutAt(w.works, w.trash[k].value.what.workId);
      RejoinSceneKeeps(w, k, n);
    }
  }

  /** Every trash row stays restorable: restoring it meets no id in use. */
  lemma RestoreKeeps(w: Workspace, trashId: string)
    requires Inv(w)
    ensures Inv(RestoreTrash(w, trashId))
  {
    if Find(w.trash, trashId).Some? {
      var k := FoundAt(w.trash, trashId);
      match w.trash[k].value.what
      case TrashedWork(_) => RestoreWorkKeeps(w, k);
      case TrashedCharacter(_) => RestoreCharacterKeeps(w, k);
      case TrashedLore(_) => RestoreLoreKeeps(w, k);
      case TrashedWorkCharacter(_, _, _) => RestoreWorkCharacterKeeps(w, k);
      case TrashedWorkLore(_, _, _) => RestoreWorkLoreKeeps(w, k);
      case TrashedScene(_, _, _) => RestoreSceneKeeps(w, k);
    }
  }
}
