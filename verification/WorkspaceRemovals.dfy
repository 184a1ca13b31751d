/**
  Row by row, what moving something to the trash changes, what it writes down for the restore,
  and that it changes nothing else.
 */
module WorkspaceRemovals {
  import opened Wrappers
  import opened Rows
  import opened StudioProject
  import opened StudioWorkspace
  import opened WorkspaceInvariant
  import opened WorkspaceTrash
  import opened WorkspaceReturns
  import opened WorkspaceRestores

  /** A row is gone from the list, and the others are left in their order. */
  ghost predicate Removed<T>(rows: seq<Row<T>>, rows': seq<Row<T>>, row: Row<T>) {
    exists k :: 0 <= k < |rows| && rows[k] == row && rows' == rows[..k] + rows[k + 1..]
  }

  lemma WithoutRemoved<T>(rows: seq<Row<T>>, row: Row<T>)
    requires Distinct(rows) && row in rows
    ensures Removed(rows, Without(rows, row.id), row)
  {
    FindMember(rows, row);
    MemberId(rows, row);
    var k := WithoutAt(rows, row.id);
  }

  /** One entry more in the trash: this one, under this title. */
  ghost predicate EntryAdded(w: Workspace, w': Workspace, newId: string, title: string, now: string, what: Trashed) {
    w'.trash == w.trash + [Row(newId, TrashEntry(title, now, what))]
  }

  // ---------- parts of a work ----------

  ghost predicate CharacterTaken(p: Project, p': Project, c: Row<Character>) {
    && p'.work == p.work && p'.lorebooks == p.lorebooks
    && Removed(p.characters, p'.characters, c)
    && |p'.scenes| == |p.scenes|
    && forall j :: 0 <= j < |p.scenes| ==>
         p'.scenes[j] == if p.scenes[j].value.characterId == c.id
                         then Row(p.scenes[j].id, p.scenes[j].value.(characterId := "")) else p.scenes[j]
  }

  ghost predicate LoreTaken(p: Project, p': Project, l: Row<Lore>) {
    && p'.work == p.work && p'.characters == p.characters
    && Removed(p.lorebooks, p'.lorebooks, l)
    && |p'.scenes| == |p.scenes|
    && forall j :: 0 <= j < |p.scenes| ==>
         p'.scenes[j] == if p.scenes[j].value.placeId == l.id
                         then Row(p.scenes[j].id, p.scenes[j].value.(placeId := "")) else p.scenes[j]
  }

  /** A removed default scene hands its role to the first scene that is left. */
  ghost predicate SceneTaken(p: Project, p': Project, s: Row<Scene>) {
    && p'.characters == p.characters && p'.lorebooks == p.lorebooks
    && Removed(p.scenes, p'.scenes, s)
    && p'.work == p.work.(defaultSceneId := p'.work.defaultSceneId)
    && (p.work.defaultSceneId != s.id ==> p'.work.defaultSceneId == p.work.defaultSceneId)
    && (p.work.defaultSceneId == s.id ==> p'.work.defaultSceneId == if p'.scenes == [] then "" else p'.scenes[0].id)
  }

  lemma CharacterDrops(p: Project, c: Row<Character>)
    requires ValidProject(p) && c in p.characters
    ensures CharacterTaken(p, Repair(DropCharacter(c.id)(p)), c)
  {
    var q := DropCharacter(c.id)(p);
    WithoutRemoved(p.characters, c);
    WithoutKeeps(p.characters, c.id);
    MemberId(p.characters, c);
    DefaultStays(q);
    RepairIds(q);
    forall j | 0 <= j < |p.scenes|
      ensures Repair(q).scenes[j] == if p.scenes[j].value.characterId == c.id
                                     then Row(p.scenes[j].id, p.scenes[j].value.(characterId := "")) else p.scenes[j]
    {
      assert ResolvedScene(p, p.scenes[j].value);
      SceneLosesAndRegainsCharacter(p, c.id, p.scenes[j].value);
    }
  }

  lemma LoreDrops(p: Project, l: Row<Lore>)
    requires ValidProject(p) && l in p.lorebooks
    ensures LoreTaken(p, Repair(DropLore(l.id)(p)), l)
  {
    var q := DropLore(l.id)(p);
    WithoutRemoved(p.lorebooks, l);
    DefaultStays(q);
    RepairIds(q);
    forall j | 0 <= j < |p.scenes|
      ensures Repair(q).scenes[j] == if p.scenes[j].value.placeId == l.id
                                     then Row(p.scenes[j].id, p.scenes[j].value.(placeId := "")) else p.scenes[j]
    {
      assert ResolvedScene(p, p.scenes[j].value);
      SceneLosesAndRegainsPlace(p, l.id, p.scenes[j].value);
    }
  }

  lemma SceneDrops(p: Project, s: Row<Scene>)
    requires ValidProject(p) && s in p.scenes
    ensures SceneTaken(p, Repair(DropScene(s.id)(p)), s)
  {
    WithoutRemoved(p.scenes, s);
    WithoutKeeps(p.scenes, s.id);
    MemberId(p.scenes, s);
    DroppedSceneStaysResolved(p, s.id);
    NoEmptyId(p.scenes, s);
  }

  lemma NoEmptyId<T>(rows: seq<Row<T>>, row: Row<T>)
    requires UniqueRows(rows) && row in rows
    ensures row.id != ""
  {}

  /** The listed scenes are those of the work that showed the row. */
  ghost predicate ListsUsers(p: Project, sceneIds: seq<string>, uses: Scene -> bool) {
    && (forall j :: 0 <= j < |p.scenes| ==> (p.scenes[j].id in sceneIds <==> uses(p.scenes[j].value)))
    && forall id :: id in sceneIds ==> id in Ids(p.scenes)
  }

  lemma SceneIdsList(p: Project, uses: Scene -> bool)
    requires UniqueRows(p.scenes)
    ensures ListsUsers(p, SceneIdsOf(p.scenes, uses), uses)
  {
    SceneIdsSpec(p.scenes, uses);
    forall j | 0 <= j < |p.scenes| ensures p.scenes[j].id in SceneIdsOf(p.scenes, uses) <==> uses(p.scenes[j].value) {
      SceneIdsExact(p.scenes, uses, j);
    }
  }

  lemma WorkAt(w: Workspace, i: nat)
    requires Accepts(w) && i < |w.works|
    ensures Find(w.works, w.works[i].id) == Some(w.works[i]) && ValidProject(w.works[i].value)
  {
    FindMember(w.works, w.works[i]);
  }

  /** One work edited, one entry in the trash. */
  ghost predicate PartGoes(w: Workspace, w': Workspace, i: nat, row: Row<TrashEntry>, change: Project -> Project)
    requires i < |w.works|
  {
    && w'.characters == w.characters && w'.lorebooks == w.lorebooks && w'.trash == w.trash + [row]
    && OthersKept(w.works, w'.works, w.works[i].id)
    && w'.works[i].value == Repair(change(w.works[i].value))
  }

  lemma PartTrashed(w: Workspace, i: nat, kind: Kind, id: string, newId: string, now: string, title: string, what: Trashed)
    requires i < |w.works| && OfWork(kind)
    requires Selected(w, kind, id, Some(w.works[i].id)) == Some((title, what))
    ensures PartGoes(w, TrashEntity(w, kind, id, Some(w.works[i].id), newId, now), i,
                     Row(newId, TrashEntry(title, now, what)), Dropping(kind, id))
  {
    var row := Row(newId, TrashEntry(title, now, what));
    var workId := w.works[i].id;
    TrashedPart(w, kind, id, workId, newId, now, row);
    UpdatedWork(AddTrash(w, row), UpdateProject(AddTrash(w, row), workId, Dropping(kind, id)), workId, Dropping(kind, id), i);
  }

  /** What the workspace looks like around a part that went to the trash. */
  ghost predicate AroundPart(w: Workspace, w': Workspace, i: nat)
    requires i < |w.works|
  {
    && w'.characters == w.characters && w'.lorebooks == w.lorebooks
    && OthersKept(w.works, w'.works, w.works[i].id)
  }

  /**
    A character of a work goes: the cast loses it, the scenes that showed it show nobody, and the
    trash notes the row, its name, the work and exactly those scenes.
   */
  lemma WorkCharacterTrashed(w: Workspace, i: nat, c: Row<Character>, newId: string, now: string) returns (ids: seq<string>)
    requires Accepts(w) && i < |w.works| && c in w.works[i].value.characters
    ensures var w' := TrashEntity(w, WorkCharacterKind, c.id, Some(w.works[i].id), newId, now);
            && AroundPart(w, w', i) && CharacterTaken(w.works[i].value, w'.works[i].value, c)
            && EntryAdded(w, w', newId, c.value.profile.name, now, TrashedWorkCharacter(w.works[i].id, c, ids))
    ensures ListsUsers(w.works[i].value, ids, UsesCharacter(c.id))
  {
    WorkAt(w, i);
    var p := w.works[i].value;
    FindMember(p.characters, c);
    ids := SceneIdsOf(p.scenes, UsesCharacter(c.id));
    SceneIdsList(p, UsesCharacter(c.id));
    SelectedParts(w, c.id, w.works[i].id);
    PartTrashed(w, i, WorkCharacterKind, c.id, newId, now, c.value.profile.name, TrashedWorkCharacter(w.works[i].id, c, ids));
    CharacterDrops(p, c);
  }

  lemma WorkLoreTrashed(w: Workspace, i: nat, l: Row<Lore>, newId: string, now: string) returns (ids: seq<string>)
    requires Accepts(w) && i < |w.works| && l in w.works[i].value.lorebooks
    ensures var w' := TrashEntity(w, WorkLoreKind, l.id, Some(w.works[i].id), newId, now);
            && AroundPart(w, w', i) && LoreTaken(w.works[i].value, w'.works[i].value, l)
            && EntryAdded(w, w', newId, l.value.title, now, TrashedWorkLore(w.works[i].id, l, ids))
    ensures ListsUsers(w.works[i].value, ids, UsesPlace(l.id))
  {
    WorkAt(w, i);
    var p := w.works[i].value;
    FindMember(p.lorebooks, l);
    ids := SceneIdsOf(p.scenes, UsesPlace(l.id));
    SceneIdsList(p, UsesPlace(l.id));
    SelectedParts(w, l.id, w.works[i].id);
    PartTrashed(w, i, WorkLoreKind, l.id, newId, now, l.value.title, TrashedWorkLore(w.works[i].id, l, ids));
    LoreDrops(p, l);
  }

  lemma SceneTrashed(w: Workspace, i: nat, s: Row<Scene>, newId: string, now: string)
    requires Accepts(w) && i < |w.works| && s in w.works[i].value.scenes
    ensures var p, w' := w.works[i].value, TrashEntity(w, SceneKind, s.id, Some(w.works[i].id), newId, now);
            && AroundPart(w, w', i) && SceneTaken(p, w'.works[i].value, s)
            && EntryAdded(w, w', newId, s.value.title, now, TrashedScene(w.works[i].id, s, p.work.defaultSceneId == s.id))
  {
    WorkAt(w, i);
    var p := w.works[i].value;
    FindMember(p.scenes, s);
    SelectedParts(w, s.id, w.works[i].id);
    PartTrashed(w, i, SceneKind, s.id, newId, now, s.value.title,
                TrashedScene(w.works[i].id, s, p.work.defaultSceneId == s.id));
    SceneDrops(p, s);
  }

  // ---------- works and originals ----------

  lemma WorkTrashed(w: Workspace, row: Row<Project>, newId: string, now: string, workId: Option<string>)
    requires Accepts(w) && row in w.works
    ensures var w' := TrashEntity(w, WorkKind, row.id, workId, newId, now);
            && w'.characters == w.characters && w'.lorebooks == w.lorebooks && Removed(w.works, w'.works, row)
            && EntryAdded(w, w', newId, row.value.work.title, now, TrashedWork(row))
  {
    FindMember(w.works, row);
    WithoutRemoved(w.works, row);
  }

  /** Of one document exactly the copies of this original lose their link. */
  ghost predicate CopiesCut(p: Project, p': Project, id: string) {
    && p' == p.(characters := p'.characters) && |p'.characters| == |p.characters|
    && forall j :: 0 <= j < |p.characters| ==> CopyCut(p.characters[j], p'.characters[j], id)
  }

  predicate CopyCut(c: Row<Character>, c': Row<Character>, id: string) {
    c' == if c.value.sourceId == Some(id) then Row(c.id, Character(None, c.value.profile, c.value.assets)) else c
  }

  ghost predicate LoreCopiesCut(p: Project, p': Project, id: string) {
    && p' == p.(lorebooks := p'.lorebooks) && |p'.lorebooks| == |p.lorebooks|
    && forall j :: 0 <= j < |p.lorebooks| ==> LoreCopyCut(p.lorebooks[j], p'.lorebooks[j], id)
  }

  predicate LoreCopyCut(l: Row<Lore>, l': Row<Lore>, id: string) {
    l' == if l.value.sourceId == Some(id) then Row(l.id, l.value.(sourceId := None)) else l
  }

  ghost predicate EntryCut(e: Row<TrashEntry>, e': Row<TrashEntry>, cut: (Project, Project) -> bool) {
    && e'.id == e.id && e'.value == e.value.(what := e'.value.what)
    && if e.value.what.TrashedWork?
       then e'.value.what.TrashedWork? && e'.value.what.work.id == e.value.what.work.id
            && cut(e.value.what.work.value, e'.value.what.work.value)
       else e' == e
  }

  /** In all live and all trashed works; the new entry is last. */
  ghost predicate CutEverywhere(w: Workspace, w': Workspace, cut: (Project, Project) -> bool, last: Row<TrashEntry>) {
    && |w'.works| == |w.works| && |w'.trash| == |w.trash| + 1 && w'.trash[|w.trash|] == last
    && (forall i :: 0 <= i < |w.works| ==> w'.works[i].id == w.works[i].id && cut(w.works[i].value, w'.works[i].value))
    && forall i :: 0 <= i < |w.trash| ==> EntryCut(w.trash[i], w'.trash[i], cut)
  }

  lemma DetachedEverywhere(w: Workspace, detach: Project -> Project, cut: (Project, Project) -> bool, last: Row<TrashEntry>)
    requires !last.value.what.TrashedWork? && forall p :: cut(p, detach(p))
    ensures CutEverywhere(w, DetachAll(AddTrash(w, last), detach), cut, last)
  {
    var mid := AddTrash(w, last);
    var w' := DetachAll(mid, detach);
    assert w'.trash[|w.trash|] == Row(mid.trash[|w.trash|].id, DetachEntry(mid.trash[|w.trash|].value, detach));
    forall i | 0 <= i < |w.trash| ensures EntryCut(w.trash[i], w'.trash[i], cut) {
      assert mid.trash[i] == w.trash[i];
      assert w'.trash[i] == Row(mid.trash[i].id, DetachEntry(mid.trash[i].value, detach));
    }
  }

  ghost function CharacterCut(id: string): (Project, Project) -> bool {
    (p, p') => CopiesCut(p, p', id)
  }

  ghost function LoreCut(id: string): (Project, Project) -> bool {
    (p, p') => LoreCopiesCut(p, p', id)
  }

  lemma CharacterTrashed(w: Workspace, c: Row<Character>, newId: string, now: string, workId: Option<string>)
    requires Accepts(w) && c in w.characters
    ensures var w' := TrashEntity(w, CharacterKind, c.id, workId, newId, now);
            && Removed(w.characters, w'.characters, c) && w'.lorebooks == w.lorebooks
            && CutEverywhere(w, w', CharacterCut(c.id), Row(newId, TrashEntry(c.value.profile.name, now, TrashedCharacter(c))))
  {
    FindMember(w.characters, c);
    WithoutRemoved(w.characters, c);
    var last := Row(newId, TrashEntry(c.value.profile.name, now, TrashedCharacter(c)));
    forall p ensures CharacterCut(c.id)(p, CharacterDetacher(c.id)(p)) {}
    DetachedEverywhere(w, CharacterDetacher(c.id), CharacterCut(c.id), last);
  }

  lemma LoreTrashed(w: Workspace, l: Row<Lore>, newId: string, now: string, workId: Option<string>)
    requires Accepts(w) && l in w.lorebooks
    ensures var w' := TrashEntity(w, LoreKind, l.id, workId, newId, now);
            && Removed(w.lorebooks, w'.lorebooks, l) && w'.characters == w.characters
            && CutEverywhere(w, w', LoreCut(l.id), Row(newId, TrashEntry(l.value.title, now, TrashedLore(l))))
  {
    FindMember(w.lorebooks, l);
    WithoutRemoved(w.lorebooks, l);
    var last := Row(newId, TrashEntry(l.value.title, now, TrashedLore(l)));
    forall p ensures LoreCut(l.id)(p, LoreDetacher(l.id)(p)) {}
    DetachedEverywhere(w, LoreDetacher(l.id), LoreCut(l.id), last);
  }
}
