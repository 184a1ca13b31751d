/**
  What every reachable workspace keeps. Acceptance alone is not inductive: a restore must never
  meet an id that is already in use, so each id position ("slot"), live or in the trash, whole
  works with their inner rows included, belongs to one place only.
 */
module WorkspaceInvariant {
  import opened Wrappers
  import opened Rows
  import opened StudioProject
  import opened StudioWorkspace

  datatype Part = CharacterPart | LorePart | ScenePart
  datatype Slot = WorkSlot(id: string) | CharacterSlot(id: string) | LoreSlot(id: string)
                | PartSlot(workId: string, part: Part, id: string)

  function PartIds(p: Project, part: Part): set<string> {
    match part
    case CharacterPart => Ids(p.characters)
    case LorePart => Ids(p.lorebooks)
    case ScenePart => Ids(p.scenes)
  }

  predicate InWork(row: Row<Project>, s: Slot) {
    s == WorkSlot(row.id) || (s.PartSlot? && s.workId == row.id && s.id in PartIds(row.value, s.part))
  }

  ghost predicate Live(w: Workspace, s: Slot) {
    match s
    case CharacterSlot(id) => id in Ids(w.characters)
    case LoreSlot(id) => id in Ids(w.lorebooks)
    case _ => exists i :: 0 <= i < |w.works| && InWork(w.works[i], s)
  }

  predicate Holds(e: TrashEntry, s: Slot) {
    match e.what
    case TrashedWork(d) => InWork(d, s)
    case TrashedCharacter(d) => s == CharacterSlot(d.id)
    case TrashedLore(d) => s == LoreSlot(d.id)
    case TrashedWorkCharacter(workId, d, _) => s == PartSlot(workId, CharacterPart, d.id)
    case TrashedWorkLore(workId, d, _) => s == PartSlot(workId, LorePart, d.id)
    case TrashedScene(workId, d, _) => s == PartSlot(workId, ScenePart, d.id)
  }

  ghost predicate Held(w: Workspace, s: Slot) {
    exists i :: 0 <= i < |w.trash| && Holds(w.trash[i].value, s)
  }

  ghost predicate Separate(w: Workspace) {
    && (forall i, s :: 0 <= i < |w.trash| && Holds(w.trash[i].value, s) ==> !Live(w, s))
    && (forall i, j, s :: 0 <= i < j < |w.trash| && Holds(w.trash[i].value, s) ==> !Holds(w.trash[j].value, s))
  }

  ghost predicate Inv(w: Workspace) {
    Accepts(w) && Separate(w)
  }

  // ---------- how operations move slots ----------

  lemma StaySeparate(w: Workspace, w': Workspace)
    requires Separate(w) && |w'.trash| == |w.trash|
    requires forall i, s :: 0 <= i < |w.trash| ==> (Holds(w'.trash[i].value, s) <==> Holds(w.trash[i].value, s))
    requires forall s :: Live(w', s) ==> Live(w, s) || !Held(w, s)
    ensures Separate(w')
  {}

  lemma TrashSeparate(w: Workspace, w': Workspace, t: TrashEntry)
    requires Separate(w) && |w'.trash| == |w.trash| + 1
    requires forall i, s :: 0 <= i < |w.trash| ==> (Holds(w'.trash[i].value, s) <==> Holds(w.trash[i].value, s))
    requires forall s :: Holds(w'.trash[|w.trash|].value, s) <==> Holds(t, s)
    requires forall s :: Live(w', s) ==> Live(w, s) && !Holds(t, s)
    requires forall s :: Holds(t, s) ==> Live(w, s)
    ensures Separate(w')
  {}

  lemma RestoreSeparate(w: Workspace, w': Workspace, k: nat)
    requires Separate(w) && k < |w.trash| && w'.trash == w.trash[..k] + w.trash[k + 1..]
    requires forall s :: Live(w', s) ==> Live(w, s) || Holds(w.trash[k].value, s)
    ensures Separate(w')
  {
    forall i | 0 <= i < |w'.trash| ensures w'.trash[i] == w.trash[if i < k then i else i + 1] {}
  }

  // ---------- one work's project changes ----------

  ghost predicate GoodRows(w: Workspace, p: Project) {
    ValidRows(p) && SourcesLive(w, p)
  }

  lemma RepairKeepsRows(w: Workspace, p: Project)
    requires GoodRows(w, p)
    ensures ValidProject(Repair(p)) && SourcesLive(w, Repair(p))
  {
    RepairValid(p);
  }

  lemma UpdateAccepts(w: Workspace, id: string, change: Project -> Project)
    requires Accepts(w)
    requires forall i :: 0 <= i < |w.works| && w.works[i].id == id ==> GoodRows(w, change(w.works[i].value))
    ensures Accepts(UpdateProject(w, id, change))
  {
    var w' := UpdateProject(w, id, change);
    MapKeeps(w.works, (row: Row<Project>) => if row.id == id then Repair(change(row.value)) else row.value);
    forall i | 0 <= i < |w'.works| ensures ValidProject(w'.works[i].value) && SourcesLive(w', w'.works[i].value) {
      if w.works[i].id == id { RepairKeepsRows(w, change(w.works[i].value)); }
    }
  }

  lemma UpdateAbsent(w: Workspace, id: string, change: Project -> Project)
    requires id !in Ids(w.works)
    ensures UpdateProject(w, id, change) == w
  {
    var w' := UpdateProject(w, id, change);
    forall i | 0 <= i < |w.works| ensures w'.works[i] == w.works[i] { assert w.works[i].id in Ids(w.works); }
    assert w'.works == w.works;
  }

  lemma UpdateInWork(w: Workspace, id: string, change: Project -> Project, i: nat, s: Slot)
    requires i < |w.works|
    ensures InWork(UpdateProject(w, id, change).works[i], s) <==>
      if w.works[i].id == id
      then s == WorkSlot(id) || (s.PartSlot? && s.workId == id && s.id in PartIds(change(w.works[i].value), s.part))
      else InWork(w.works[i], s)
  {
    RepairIds(change(w.works[i].value));
    var row := UpdateProject(w, id, change).works[i];
    if w.works[i].id == id { assert row == Row(id, Repair(change(w.works[i].value))); }
  }

  lemma UpdateLiveAt(w: Workspace, id: string, change: Project -> Project, k: nat, s: Slot)
    requires Distinct(w.works) && k < |w.works| && w.works[k].id == id
    requires s.WorkSlot? || s.PartSlot?
    ensures Live(UpdateProject(w, id, change), s) <==>
              if s.PartSlot? && s.workId == id then s.id in PartIds(change(w.works[k].value), s.part) else Live(w, s)
  {
    var w' := UpdateProject(w, id, change);
    UpdateInWork(w, id, change, k, s);
    if Live(w', s) {
      var i :| 0 <= i < |w'.works| && InWork(w'.works[i], s);
      UpdateInWork(w, id, change, i, s);
      if i == k { assert s == WorkSlot(id) ==> InWork(w.works[k], s); }
    }
    if Live(w, s) && !(s.PartSlot? && s.workId == id) {
      var i :| 0 <= i < |w.works| && InWork(w.works[i], s);
      UpdateInWork(w, id, change, i, s);
    }
  }

  /** Only the parts of the named work change, to those of the edited document. */
  lemma UpdateLive(w: Workspace, id: string, change: Project -> Project, k: nat)
    requires Distinct(w.works) && k < |w.works| && w.works[k].id == id
    ensures forall s :: Live(UpdateProject(w, id, change), s) <==>
              if s.PartSlot? && s.workId == id then s.id in PartIds(change(w.works[k].value), s.part) else Live(w, s)
  {
    forall s ensures Live(UpdateProject(w, id, change), s) <==>
      if s.PartSlot? && s.workId == id then s.id in PartIds(change(w.works[k].value), s.part) else Live(w, s)
    {
      if s.WorkSlot? || s.PartSlot? { UpdateLiveAt(w, id, change, k, s); }
    }
  }

  /** An edit of a work: its rows are valid, linked to live originals, and reuse no trashed id. */
  ghost predicate GoodEdit(w: Workspace, id: string, change: Project -> Project) {
    forall i :: 0 <= i < |w.works| && w.works[i].id == id ==>
      && GoodRows(w, change(w.works[i].value))
      && forall part, x :: x in PartIds(change(w.works[i].value), part) ==> !Held(w, PartSlot(id, part, x))
  }

  lemma EditKeeps(w: Workspace, id: string, change: Project -> Project)
    requires Inv(w) && GoodEdit(w, id, change)
    ensures Inv(UpdateProject(w, id, change))
  {
    UpdateAccepts(w, id, change);
    if id in Ids(w.works) {
      var k := WithoutAt(w.works, id);
      UpdateLive(w, id, change, k);
      StaySeparate(w, UpdateProject(w, id, change));
    } else {
      UpdateAbsent(w, id, change);
    }
  }

  lemma PartIsLive(w: Workspace, n: nat, part: Part, id: string)
    requires n < |w.works|
    ensures id in PartIds(w.works[n].value, part) ==> Live(w, PartSlot(w.works[n].id, part, id))
  {
    if id in PartIds(w.works[n].value, part) { assert InWork(w.works[n], PartSlot(w.works[n].id, part, id)); }
  }

  // ---------- new rows ----------

  /** An id nothing in the workspace uses: what a fresh UUID gives. */
  ghost predicate Unused(w: Workspace, x: string) {
    && x != "" && x !in Ids(w.trash)
    && (forall s: Slot :: s.id == x ==> !Live(w, s) && !Held(w, s))
    && (forall s: Slot :: s.PartSlot? && s.workId == x ==> !Held(w, s))
  }

  lemma AddWorkLive(w: Workspace, row: Row<Project>)
    ensures forall s :: Live(AddWork(w, row), s) <==> Live(w, s) || InWork(row, s)
  {
    var w' := AddWork(w, row);
    forall s ensures Live(w', s) <==> Live(w, s) || InWork(row, s) {
      if s.WorkSlot? || s.PartSlot? {
        if Live(w, s) { var i :| 0 <= i < |w.works| && InWork(w.works[i], s); assert w'.works[i] == w.works[i]; }
        if InWork(row, s) { assert w'.works[|w.works|] == row; }
        if Live(w', s) {
          var i :| 0 <= i < |w'.works| && InWork(w'.works[i], s);
          if i < |w.works| { assert w'.works[i] == w.works[i]; } else { assert w'.works[i] == row; }
        }
      }
    }
  }

  /** Adding a work is safe exactly when none of its slots sits in the trash. */
  lemma AddWorkKeeps(w: Workspace, row: Row<Project>)
    requires Inv(w) && row.id != "" && ValidProject(row.value) && SourcesLive(w, row.value) && row.id !in Ids(w.works)
    ensures Accepts(AddWork(w, row))
    ensures Inv(AddWork(w, row)) <==> forall s :: InWork(row, s) ==> !Held(w, s)
  {
    var w' := AddWork(w, row);
    AppendUnique(w.works, row);
    forall i | 0 <= i < |w'.works| ensures ValidProject(w'.works[i].value) && SourcesLive(w', w'.works[i].value) {
      if i < |w.works| { assert w'.works[i] == w.works[i]; }
    }
    AddWorkLive(w, row);
    if forall s :: InWork(row, s) ==> !Held(w, s) { StaySeparate(w, w'); }
    if Separate(w') {
      forall s | InWork(row, s) ensures !Held(w, s) { assert Live(w', s); }
    }
  }

  lemma AddCharacterAccepts(w: Workspace, row: Row<Character>)
    requires Accepts(w) && row.id != "" && ValidCharacter(row.value) && row.value.sourceId.None? && row.id !in Ids(w.characters)
    ensures Accepts(AddCharacter(w, row))
    ensures forall s :: Live(AddCharacter(w, row), s) <==> Live(w, s) || s == CharacterSlot(row.id)
  {
    AppendUnique(w.characters, row);
    var w' := AddCharacter(w, row);
    forall i | 0 <= i < |w'.works| ensures SourcesLive(w', w'.works[i].value) {}
    forall s ensures Live(w', s) <==> Live(w, s) || s == CharacterSlot(row.id) {}
  }

  /** An original may come in wherever its slot is free. */
  lemma AddFreeCharacter(w: Workspace, row: Row<Character>)
    requires Inv(w) && row.id != "" && ValidCharacter(row.value) && row.value.sourceId.None?
    requires !Live(w, CharacterSlot(row.id)) && !Held(w, CharacterSlot(row.id))
    ensures Inv(AddCharacter(w, row))
  {
    AddCharacterAccepts(w, row);
    StaySeparate(w, AddCharacter(w, row));
  }

  lemma AddCharacterKeeps(w: Workspace, row: Row<Character>)
    requires Inv(w) && Unused(w, row.id) && ValidCharacter(row.value) && row.value.sourceId.None?
    ensures Inv(AddCharacter(w, row))
  {
    assert !Live(w, CharacterSlot(row.id)) && !Held(w, CharacterSlot(row.id));
    AddFreeCharacter(w, row);
  }

  lemma AddLoreAccepts(w: Workspace, row: Row<Lore>)
    requires Accepts(w) && row.id != "" && ValidLore(row.value) && row.value.sourceId.None? && row.id !in Ids(w.lorebooks)
    ensures Accepts(AddLore(w, row))
    ensures forall s :: Live(AddLore(w, row), s) <==> Live(w, s) || s == LoreSlot(row.id)
  {
    AppendUnique(w.lorebooks, row);
    var w' := AddLore(w, row);
    forall i | 0 <= i < |w'.works| ensures SourcesLive(w', w'.works[i].value) {}
    forall s ensures Live(w', s) <==> Live(w, s) || s == LoreSlot(row.id) {}
  }

  lemma AddFreeLore(w: Workspace, row: Row<Lore>)
    requires Inv(w) && row.id != "" && ValidLore(row.value) && row.value.sourceId.None?
    requires !Live(w, LoreSlot(row.id)) && !Held(w, LoreSlot(row.id))
    ensures Inv(AddLore(w, row))
  {
    AddLoreAccepts(w, row);
    StaySeparate(w, AddLore(w, row));
  }

  lemma AddLoreKeeps(w: Workspace, row: Row<Lore>)
    requires Inv(w) && Unused(w, row.id) && ValidLore(row.value) && row.value.sourceId.None?
    ensures Inv(AddLore(w, row))
  {
    assert !Live(w, LoreSlot(row.id)) && !Held(w, LoreSlot(row.id));
    AddFreeLore(w, row);
  }

  lemma EditCharacterKeeps(w: Workspace, id: string, edited: Character)
    requires Inv(w) && ValidCharacter(edited) && edited.sourceId.None?
    ensures Inv(EditCharacter(w, id, edited))
  {
    MapKeeps(w.characters, (row: Row<Character>) => if row.id == id then edited else row.value);
    var w' := EditCharacter(w, id, edited);
    forall i | 0 <= i < |w'.works| ensures SourcesLive(w', w'.works[i].value) {}
    forall s ensures Live(w', s) <==> Live(w, s) {}
    StaySeparate(w, w');
  }

  lemma EditLoreKeeps(w: Workspace, id: string, edited: Lore)
    requires Inv(w) && ValidLore(edited) && edited.sourceId.None?
    ensures Inv(EditLore(w, id, edited))
  {
    MapKeeps(w.lorebooks, (row: Row<Lore>) => if row.id == id then edited else row.value);
    var w' := EditLore(w, id, edited);
    forall i | 0 <= i < |w'.works| ensures SourcesLive(w', w'.works[i].value) {}
    forall s ensures Live(w', s) <==> Live(w, s) {}
    StaySeparate(w, w');
  }

  // ---------- links ----------

  lemma LinkCharacterKeeps(w: Workspace, workId: string, sourceId: string, newId: string)
    requires Inv(w) && Unused(w, newId)
    ensures Inv(LinkCharacter(w, workId, sourceId, newId))
  {
    var source := Find(w.characters, sourceId);
    if source.Some? {
      var n :| 0 <= n < |w.characters| && w.characters[n] == source.value;
      var copy := Row(newId, source.value.value.(sourceId := Some(sourceId)));
      assert sourceId != "" by { assert w.characters[n].id != ""; }
      forall i | 0 <= i < |w.works| && w.works[i].id == workId
        ensures GoodRows(w, WithCharacter(copy)(w.works[i].value))
        ensures forall part, x :: x in PartIds(WithCharacter(copy)(w.works[i].value), part) ==> !Held(w, PartSlot(workId, part, x))
      {
        var p := w.works[i].value;
        PartIsLive(w, i, CharacterPart, newId);
        AppendUnique(p.characters, copy);
        OldPartsFree(w, i);
        assert !Held(w, PartSlot(workId, CharacterPart, newId));
      }
      EditKeeps(w, workId, WithCharacter(copy));
    }
  }

  lemma LinkLoreKeeps(w: Workspace, workId: string, sourceId: string, newId: string)
    requires Inv(w) && Unused(w, newId)
    ensures Inv(LinkLore(w, workId, sourceId, newId))
  {
    var source := Find(w.lorebooks, sourceId);
    if source.Some? {
      var n :| 0 <= n < |w.lorebooks| && w.lorebooks[n] == source.value;
      var copy := Row(newId, source.value.value.(sourceId := Some(sourceId)));
      assert sourceId != "" by { assert w.lorebooks[n].id != ""; }
      forall i | 0 <= i < |w.works| && w.works[i].id == workId
        ensures GoodRows(w, WithLore(copy)(w.works[i].value))
        ensures forall part, x :: x in PartIds(WithLore(copy)(w.works[i].value), part) ==> !Held(w, PartSlot(workId, part, x))
      {
        var p := w.works[i].value;
        PartIsLive(w, i, LorePart, newId);
        AppendUnique(p.lorebooks, copy);
        OldPartsFree(w, i);
        assert !Held(w, PartSlot(workId, LorePart, newId));
      }
      EditKeeps(w, workId, WithLore(copy));
    }
  }

  lemma OldPartsFree(w: Workspace, i: nat)
    requires Separate(w) && i < |w.works|
    ensures forall part, x :: x in PartIds(w.works[i].value, part) ==> !Held(w, PartSlot(w.works[i].id, part, x))
  {
    forall part, x | x in PartIds(w.works[i].value, part) ensures !Held(w, PartSlot(w.works[i].id, part, x)) {
      assert InWork(w.works[i], PartSlot(w.works[i].id, part, x));
      assert Live(w, PartSlot(w.works[i].id, part, x));
    }
  }
}
