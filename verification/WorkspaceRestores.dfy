/**
  Row by row, what trashing and restoring change, and that they change nothing else: for every
  accepted workspace and every trash entry, however long ago it was made and whatever was edited
  in between.
 */
module WorkspaceRestores {
  import opened Wrappers
  import opened Rows
  import opened StudioProject
  import opened StudioWorkspace
  import opened WorkspaceInvariant
  import opened WorkspaceTrash
  import opened WorkspaceReturns

  // ---------- what may change ----------

  ghost predicate OthersKept(works: seq<Row<Project>>, works': seq<Row<Project>>, workId: string) {
    && |works'| == |works|
    && forall i :: 0 <= i < |works| ==> works'[i].id == works[i].id && (works[i].id != workId ==> works'[i] == works[i])
  }

  ghost predicate Appended<T>(rows: seq<Row<T>>, rows': seq<Row<T>>) {
    |rows'| == |rows| + 1 && rows'[..|rows|] == rows
  }

  /** The restored row, linked to its original only while that exists. */
  ghost predicate CharacterBack(c': Row<Character>, c: Row<Character>, originals: set<string>) {
    var linked := c.value.sourceId.Some? && c.value.sourceId.value in originals;
    c' == Row(c.id, c.value.(sourceId := if linked then c.value.sourceId else None))
  }

  ghost predicate LoreBack(l': Row<Lore>, l: Row<Lore>, originals: set<string>) {
    var linked := l.value.sourceId.Some? && l.value.sourceId.value in originals;
    l' == Row(l.id, l.value.(sourceId := if linked then l.value.sourceId else None))
  }

  /** A scene that had this character and has none now gets it again; a scene with one keeps it. */
  ghost predicate SceneRegainsCharacter(s: Row<Scene>, s': Row<Scene>, id: string, sceneIds: seq<string>) {
    && s'.id == s.id
    && s'.value == s.value.(characterId := s'.value.characterId)
    && (s.value.characterId != "" ==> s'.value.characterId == s.value.characterId)
    && (s.value.characterId == "" ==> s'.value.characterId == if s.id in sceneIds then id else "")
  }

  /** The same for its place, if the restored entry still is a place. */
  ghost predicate SceneRegainsPlace(s: Row<Scene>, s': Row<Scene>, id: string, isPlace: bool, sceneIds: seq<string>) {
    && s'.id == s.id
    && s'.value == s.value.(placeId := s'.value.placeId)
    && (s.value.placeId != "" ==> s'.value.placeId == s.value.placeId)
    && (s.value.placeId == "" ==> s'.value.placeId == if s.id in sceneIds && isPlace then id else "")
  }

  ghost predicate CharacterRejoined(p: Project, p': Project, d: Row<Character>, sceneIds: seq<string>, originals: set<string>) {
    && p'.work == p.work && p'.lorebooks == p.lorebooks
    && Appended(p.characters, p'.characters) && CharacterBack(p'.characters[|p.characters|], d, originals)
    && |p'.scenes| == |p.scenes|
    && forall j :: 0 <= j < |p.scenes| ==> SceneRegainsCharacter(p.scenes[j], p'.scenes[j], d.id, sceneIds)
  }

  ghost predicate LoreRejoined(p: Project, p': Project, d: Row<Lore>, sceneIds: seq<string>, originals: set<string>) {
    && p'.work == p.work && p'.characters == p.characters
    && Appended(p.lorebooks, p'.lorebooks) && LoreBack(p'.lorebooks[|p.lorebooks|], d, originals)
    && |p'.scenes| == |p.scenes|
    && forall j :: 0 <= j < |p.scenes| ==>
         SceneRegainsPlace(p.scenes[j], p'.scenes[j], d.id, d.value.category == Place || IsPlace(p.lorebooks, d.id), sceneIds)
  }

  /** The scene comes back with what still exists of its cast and place; a default scene keeps its role. */
  ghost predicate SceneRejoined(p: Project, p': Project, d: Row<Scene>, wasDefault: bool) {
    && p'.characters == p.characters && p'.lorebooks == p.lorebooks
    && Appended(p.scenes, p'.scenes)
    && p'.scenes[|p.scenes|] == Row(d.id, d.value.(
         characterId := if d.value.characterId in Ids(p.characters) then d.value.characterId else "",
         placeId := if d.value.placeId in PlaceIds(p.lorebooks) then d.value.placeId else ""))
    && p'.work == p.work.(defaultSceneId := p'.work.defaultSceneId)
    && (p.work.defaultSceneId != "" ==> p'.work.defaultSceneId == p.work.defaultSceneId)
    && (p.work.defaultSceneId == "" ==> p'.work.defaultSceneId == if wasDefault then d.id else "")
  }

  // ---------- one document ----------

  lemma DefaultStays(p: Project)
    requires p.work.defaultSceneId != "" ==> p.work.defaultSceneId in Ids(p.scenes)
    ensures Repair(p).work == p.work
  {}

  lemma PlaceIdsAppend(lores: seq<Row<Lore>>, l: Row<Lore>)
    ensures PlaceIds(lores + [l]) == PlaceIds(lores) + (if l.value.category == Place then {l.id} else {})
  {
    var all := lores + [l];
    forall x | x in PlaceIds(lores) ensures x in PlaceIds(all) {
      var i :| 0 <= i < |lores| && lores[i].value.category == Place && lores[i].id == x;
      assert all[i].id == x;
    }
    assert all[|lores|] == l;
  }

  lemma RejoinedCharacterScene(p: Project, q: Project, j: nat, c: Row<Character>, sceneIds: seq<string>)
    requires ValidProject(p) && j < |p.scenes| && c.id != ""
    requires q.characters == p.characters + [c] && q.lorebooks == p.lorebooks && q.scenes == RejoinCharacter(c, sceneIds)(p).scenes
    ensures SceneRegainsCharacter(p.scenes[j], Row(q.scenes[j].id, RepairScene(q, q.scenes[j].value)), c.id, sceneIds)
  {
    assert ResolvedScene(p, p.scenes[j].value);
    IdsConcat(p.characters, [c]);
    assert [c][0].id in Ids([c]);
    PlaceIdsSpec(p.lorebooks, p.scenes[j].value.placeId);
  }

  lemma CharacterRejoins(p: Project, d: Row<Character>, c: Row<Character>, sceneIds: seq<string>, originals: set<string>)
    requires ValidProject(p) && d.id != "" && CharacterBack(c, d, originals)
    ensures CharacterRejoined(p, Repair(RejoinCharacter(c, sceneIds)(p)), d, sceneIds, originals)
  {
    var q := RejoinCharacter(c, sceneIds)(p);
    SameSceneIds(p.scenes, q.scenes);
    DefaultStays(q);
    RepairIds(q);
    forall j | 0 <= j < |p.scenes| ensures SceneRegainsCharacter(p.scenes[j], Repair(q).scenes[j], d.id, sceneIds) {
      RejoinedCharacterScene(p, q, j, c, sceneIds);
    }
  }

  lemma SameSceneIds(a: seq<Row<Scene>>, b: seq<Row<Scene>>)
    requires |a| == |b| && forall i :: 0 <= i < |a| ==> a[i].id == b[i].id
    ensures Ids(a) == Ids(b)
  {
    forall x | x in Ids(a) ensures x in Ids(b) { var i :| 0 <= i < |a| && a[i].id == x; assert b[i].id == x; }
    forall x | x in Ids(b) ensures x in Ids(a) { var i :| 0 <= i < |b| && b[i].id == x; assert a[i].id == x; }
  }

  lemma RejoinedLoreScene(p: Project, q: Project, j: nat, l: Row<Lore>, sceneIds: seq<string>)
    requires ValidProject(p) && j < |p.scenes| && l.id != ""
    requires q.lorebooks == p.lorebooks + [l] && q.characters == p.characters && q.scenes == RejoinLore(l, sceneIds)(p).scenes
    ensures SceneRegainsPlace(p.scenes[j], Row(q.scenes[j].id, RepairScene(q, q.scenes[j].value)), l.id,
                              l.value.category == Place || IsPlace(p.lorebooks, l.id), sceneIds)
  {
    assert ResolvedScene(p, p.scenes[j].value);
    PlaceIdsAppend(p.lorebooks, l);
    PlaceIdsSpec(p.lorebooks, p.scenes[j].value.placeId);
    PlaceIdsSpec(p.lorebooks, l.id);
    NoEmptyPlace(p.lorebooks);
  }

  lemma NoEmptyPlace(lores: seq<Row<Lore>>)
    requires UniqueRows(lores)
    ensures "" !in PlaceIds(lores)
  {}

  lemma LoreRejoins(p: Project, d: Row<Lore>, l: Row<Lore>, sceneIds: seq<string>, originals: set<string>)
    requires ValidProject(p) && d.id != "" && LoreBack(l, d, originals)
    ensures LoreRejoined(p, Repair(RejoinLore(l, sceneIds)(p)), d, sceneIds, originals)
  {
    var q := RejoinLore(l, sceneIds)(p);
    SameSceneIds(p.scenes, q.scenes);
    DefaultStays(q);
    RepairIds(q);
    forall j | 0 <= j < |p.scenes|
      ensures SceneRegainsPlace(p.scenes[j], Repair(q).scenes[j], d.id, d.value.category == Place || IsPlace(p.lorebooks, d.id), sceneIds)
    {
      RejoinedLoreScene(p, q, j, l, sceneIds);
    }
  }

  lemma KeptScene(p: Project, q: Project, s: Scene)
    requires ResolvedScene(p, s) && q.characters == p.characters && q.lorebooks == p.lorebooks
    ensures RepairScene(q, s) == s
  {
    PlaceIdsSpec(p.lorebooks, s.placeId);
  }

  lemma SceneRejoins(p: Project, d: Row<Scene>, wasDefault: bool)
    requires ValidProject(p)
    ensures SceneRejoined(p, Repair(RejoinScene(d, wasDefault)(p)), d, wasDefault)
  {
    var q := RejoinScene(d, wasDefault)(p);
    IdsConcat(p.scenes, [d]);
    assert [d][0].id in Ids([d]);
    DefaultStays(q);
    RepairIds(q);
    forall j | 0 <= j < |p.scenes| ensures Repair(q).scenes[j] == p.scenes[j] {
      assert ResolvedScene(p, p.scenes[j].value);
      KeptScene(p, q, p.scenes[j].value);
    }
  }

  // ---------- restoring a part of a work ----------

  /** Everything outside the works is as before, but for the entry that left the trash. */
  ghost predicate OnlyEntryLeaves(w: Workspace, w': Workspace, trashId: string) {
    && w'.characters == w.characters && w'.lorebooks == w.lorebooks
    && w'.trash == Without(w.trash, trashId)
  }

  lemma UpdatedWork(w: Workspace, w': Workspace, workId: string, change: Project -> Project, i: nat)
    requires w'.works == UpdateProject(w, workId, change).works && i < |w.works| && w.works[i].id == workId
    ensures OthersKept(w.works, w'.works, workId)
    ensures w'.works[i].value == Repair(change(w.works[i].value))
  {
    forall k | 0 <= k < |w.works| ensures w'.works[k].id == w.works[k].id && (w.works[k].id != workId ==> w'.works[k] == w.works[k]) {
      UpdatedAt(w, workId, change, k);
    }
    UpdatedAt(w, workId, change, i);
  }

  lemma EntryIsValid(w: Workspace, trashId: string)
    requires Accepts(w) && Find(w.trash, trashId).Some?
    ensures ValidEntry(Find(w.trash, trashId).value.value)
  {}

  /** One work is edited, and the entry leaves the trash. */
  lemma PartRestored(w: Workspace, trashId: string, workId: string, change: Project -> Project, i: nat)
    requires RestoreTrash(w, trashId) == UpdateProject(DropTrash(w, trashId), workId, change)
    requires i < |w.works| && w.works[i].id == workId
    ensures var w' := RestoreTrash(w, trashId);
            && OnlyEntryLeaves(w, w', trashId) && OthersKept(w.works, w'.works, workId)
            && w'.works[i].value == Repair(change(w.works[i].value))
  {
    UpdatedWork(DropTrash(w, trashId), RestoreTrash(w, trashId), workId, change, i);
  }

  lemma FoundEntry(w: Workspace, trashId: string) returns (row: Row<TrashEntry>)
    requires Accepts(w) && Find(w.trash, trashId).Some?
    ensures Find(w.trash, row.id) == Some(row) && row.id == trashId && ValidEntry(row.value)
  {
    row := Find(w.trash, trashId).value;
    EntryIsValid(w, trashId);
  }

  lemma IsLive(w: Workspace, i: nat)
    requires i < |w.works|
    ensures w.works[i].id in Ids(w.works)
  {}

  /**
    Restoring a character of a work, at any later time: it comes back last in the cast, and the
    listed scenes of that work that name nobody show it; no scene that names someone changes,
    nothing else of the work, no other work and no original.
   */
  lemma WorkCharacterRestored(w: Workspace, trashId: string, i: nat)
    requires Accepts(w) && Find(w.trash, trashId).Some? && i < |w.works|
    requires Find(w.trash, trashId).value.value.what.TrashedWorkCharacter?
    requires w.works[i].id == Find(w.trash, trashId).value.value.what.workId
    ensures var t, w' := Find(w.trash, trashId).value.value.what, RestoreTrash(w, trashId);
            && OnlyEntryLeaves(w, w', trashId) && OthersKept(w.works, w'.works, t.workId)
            && CharacterRejoined(w.works[i].value, w'.works[i].value, t.character, t.sceneIds, Ids(w.characters))
  {
    var row := FoundEntry(w, trashId);
    var t := row.value.what;
    IsLive(w, i);
    var c := Row(t.character.id, AttachedCharacter(w, t.character.value));
    RestoredPartIs(w, row);
    PartRestored(w, trashId, t.workId, RejoinCharacter(c, t.sceneIds), i);
    CharacterRejoins(w.works[i].value, t.character, c, t.sceneIds, Ids(w.characters));
  }

  /** The same for a lore entry of a work and the places of scenes. */
  lemma WorkLoreRestored(w: Workspace, trashId: string, i: nat)
    requires Accepts(w) && Find(w.trash, trashId).Some? && i < |w.works|
    requires Find(w.trash, trashId).value.value.what.TrashedWorkLore?
    requires w.works[i].id == Find(w.trash, trashId).value.value.what.workId
    ensures var t, w' := Find(w.trash, trashId).value.value.what, RestoreTrash(w, trashId);
            && OnlyEntryLeaves(w, w', trashId) && OthersKept(w.works, w'.works, t.workId)
            && LoreRejoined(w.works[i].value, w'.works[i].value, t.lore, t.sceneIds, Ids(w.lorebooks))
  {
    var row := FoundEntry(w, trashId);
    var t := row.value.what;
    IsLive(w, i);
    var l := Row(t.lore.id, AttachedLore(w, t.lore.value));
    RestoredPartIs(w, row);
    PartRestored(w, trashId, t.workId, RejoinLore(l, t.sceneIds), i);
    LoreRejoins(w.works[i].value, t.lore, l, t.sceneIds, Ids(w.lorebooks));
  }

  /** Restoring a scene never takes the default role from another scene. */
  lemma SceneRestored(w: Workspace, trashId: string, i: nat)
    requires Accepts(w) && Find(w.trash, trashId).Some? && i < |w.works|
    requires Find(w.trash, trashId).value.value.what.TrashedScene?
    requires w.works[i].id == Find(w.trash, trashId).value.value.what.workId
    ensures var t, w' := Find(w.trash, trashId).value.value.what, RestoreTrash(w, trashId);
            && OnlyEntryLeaves(w, w', trashId) && OthersKept(w.works, w'.works, t.workId)
            && SceneRejoined(w.works[i].value, w'.works[i].value, t.scene, t.wasDefault)
  {
    var row := FoundEntry(w, trashId);
    var t := row.value.what;
    IsLive(w, i);
    RestoredPartIs(w, row);
    PartRestored(w, trashId, t.workId, RejoinScene(t.scene, t.wasDefault), i);
    SceneRejoins(w.works[i].value, t.scene, t.wasDefault);
  }

  predicate PartOf(t: Trashed, workId: string) {
    match t
    case TrashedWorkCharacter(id, _, _) => id == workId
    case TrashedWorkLore(id, _, _) => id == workId
    case TrashedScene(id, _, _) => id == workId
    case _ => false
  }

  /**
    A restore changes nothing, not even the trash, exactly when there is no such entry or it is a
    part of a work that is gone.
   */
  lemma RestoreDoesNothingIff(w: Workspace, trashId: string)
    requires Accepts(w)
    ensures RestoreTrash(w, trashId) == w <==>
              || trashId !in Ids(w.trash)
              || exists workId :: workId !in Ids(w.works) && PartOf(Find(w.trash, trashId).value.value.what, workId)
  {
    if trashId in Ids(w.trash) {
      WithoutKeeps(w.trash, trashId);
      assert Without(w.trash, trashId) != w.trash;
      var t := Find(w.trash, trashId).value.value.what;
      match t
      case TrashedWorkCharacter(workId, _, _) => assert PartOf(t, workId);
      case TrashedWorkLore(workId, _, _) => assert PartOf(t, workId);
      case TrashedScene(workId, _, _) => assert PartOf(t, workId);
      case _ =>
    }
  }

  // ---------- restoring a whole work or an original ----------

  ghost predicate WorkBack(p: Project, p': Project, characters: set<string>, lorebooks: set<string>) {
    && p'.work == p.work && p'.scenes == p.scenes
    && |p'.characters| == |p.characters| && |p'.lorebooks| == |p.lorebooks|
    && (forall j :: 0 <= j < |p.characters| ==> CharacterBack(p'.characters[j], p.characters[j], characters))
    && (forall j :: 0 <= j < |p.lorebooks| ==> LoreBack(p'.lorebooks[j], p.lorebooks[j], lorebooks))
  }

  lemma AttachedScene(w: Workspace, p: Project, s: Scene)
    requires ResolvedScene(p, s)
    ensures RepairScene(AttachedProject(w, p), s) == s
  {
    MapKeeps(p.characters, (row: Row<Character>) => AttachedCharacter(w, row.value));
    SamePlacesAttached(w, p);
    PlaceIdsSpec(p.lorebooks, s.placeId);
  }

  lemma AttachedStaysWhole(w: Workspace, p: Project)
    requires ValidProject(p)
    ensures Repair(AttachedProject(w, p)) == AttachedProject(w, p)
  {
    var q := AttachedProject(w, p);
    DefaultStays(q);
    RepairIds(q);
    forall j | 0 <= j < |p.scenes| ensures Repair(q).scenes[j] == p.scenes[j] {
      assert ResolvedScene(p, p.scenes[j].value);
      AttachedScene(w, p, p.scenes[j].value);
    }
    SameRows(Repair(q).scenes, q.scenes);
  }

  lemma AttachedIsBack(w: Workspace, p: Project)
    requires ValidProject(p)
    ensures WorkBack(p, Repair(AttachedProject(w, p)), Ids(w.characters), Ids(w.lorebooks))
  {
    AttachedStaysWhole(w, p);
  }

  lemma SamePlacesAttached(w: Workspace, p: Project)
    ensures PlaceIds(AttachedProject(w, p).lorebooks) == PlaceIds(p.lorebooks)
  {
    var a, b := AttachedProject(w, p).lorebooks, p.lorebooks;
    forall x | x in PlaceIds(b) ensures x in PlaceIds(a) {
      var i :| 0 <= i < |b| && b[i].value.category == Place && b[i].id == x;
      assert a[i].id == x;
    }
    forall x | x in PlaceIds(a) ensures x in PlaceIds(b) {
      var i :| 0 <= i < |a| && a[i].value.category == Place && a[i].id == x;
      assert b[i].id == x;
    }
  }

  /**
    A work comes back last, with all its scenes; of its rows exactly those lose their link whose
    original is gone. An original comes back last, linked to nothing.
   */
  lemma WholeRestored(w: Workspace, trashId: string)
    requires Accepts(w) && Find(w.trash, trashId).Some?
    ensures var w' := RestoreTrash(w, trashId);
            match Find(w.trash, trashId).value.value.what
            case TrashedWork(d) =>
              && OnlyEntryLeaves(w, w', trashId) && Appended(w.works, w'.works) && w'.works[|w.works|].id == d.id
              && WorkBack(d.value, w'.works[|w.works|].value, Ids(w.characters), Ids(w.lorebooks))
            case TrashedCharacter(d) =>
              && w'.trash == Without(w.trash, trashId) && w'.works == w.works && w'.lorebooks == w.lorebooks
              && w'.characters == w.characters + [Row(d.id, Character(None, d.value.profile, d.value.assets))]
            case TrashedLore(d) =>
              && w'.trash == Without(w.trash, trashId) && w'.works == w.works && w'.characters == w.characters
              && Appended(w.lorebooks, w'.lorebooks) && LoreBack(w'.lorebooks[|w.lorebooks|], d, {})
            case _ => true
  {
    EntryIsValid(w, trashId);
    var t := Find(w.trash, trashId).value.value.what;
    if t.TrashedWork? { AttachedIsBack(w, t.work.value); }
  }

  // ---------- linking ----------

  /** One row more in the cast, nothing else. */
  ghost predicate CastGrows(p: Project, p': Project, c: Row<Character>) {
    p' == p.(characters := p.characters + [c])
  }

  ghost predicate LoreGrows(p: Project, p': Project, l: Row<Lore>) {
    p' == p.(lorebooks := p.lorebooks + [l])
  }

  lemma CastGrowsOnly(p: Project, c: Row<Character>)
    requires ValidProject(p)
    ensures Repair(WithCharacter(c)(p)) == WithCharacter(c)(p)
  {
    var q := WithCharacter(c)(p);
    IdsConcat(p.characters, [c]);
    DefaultStays(q);
    RepairIds(q);
    forall j | 0 <= j < |p.scenes| ensures Repair(q).scenes[j] == p.scenes[j] {
      assert ResolvedScene(p, p.scenes[j].value);
      PlaceIdsSpec(p.lorebooks, p.scenes[j].value.placeId);
    }
    assert Repair(q).scenes == q.scenes;
  }

  lemma LoreGrowsOnly(p: Project, l: Row<Lore>)
    requires ValidProject(p)
    ensures Repair(WithLore(l)(p)) == WithLore(l)(p)
  {
    var q := WithLore(l)(p);
    PlaceIdsAppend(p.lorebooks, l);
    DefaultStays(q);
    RepairIds(q);
    forall j | 0 <= j < |p.scenes| ensures Repair(q).scenes[j] == p.scenes[j] {
      assert ResolvedScene(p, p.scenes[j].value);
      PlaceIdsSpec(p.lorebooks, p.scenes[j].value.placeId);
    }
    assert Repair(q).scenes == q.scenes;
  }

  /** The copy of a linked original is the original under a new id, and says where it came from. */
  lemma CharacterLinked(w: Workspace, workId: string, c: Row<Character>, newId: string, i: nat)
    requires Accepts(w) && c in w.characters && i < |w.works| && w.works[i].id == workId
    ensures var w' := LinkCharacter(w, workId, c.id, newId);
            && w' == w.(works := w'.works) && OthersKept(w.works, w'.works, workId)
            && CastGrows(w.works[i].value, w'.works[i].value, Row(newId, Character(Some(c.id), c.value.profile, c.value.assets)))
  {
    FindMember(w.characters, c);
    var copy := Row(newId, c.value.(sourceId := Some(c.id)));
    UpdatedWork(w, LinkCharacter(w, workId, c.id, newId), workId, WithCharacter(copy), i);
    CastGrowsOnly(w.works[i].value, copy);
  }

  lemma LoreLinked(w: Workspace, workId: string, l: Row<Lore>, newId: string, i: nat)
    requires Accepts(w) && l in w.lorebooks && i < |w.works| && w.works[i].id == workId
    ensures var w' := LinkLore(w, workId, l.id, newId);
            && w' == w.(works := w'.works) && OthersKept(w.works, w'.works, workId)
            && exists copy: Row<Lore> ::
                 && LoreGrows(w.works[i].value, w'.works[i].value, copy)
                 && copy.id == newId && copy.value.sourceId == Some(l.id) && copy.value.(sourceId := None) == l.value
  {
    FindMember(w.lorebooks, l);
    var copy := Row(newId, l.value.(sourceId := Some(l.id)));
    UpdatedWork(w, LinkLore(w, workId, l.id, newId), workId, WithLore(copy), i);
    LoreGrowsOnly(w.works[i].value, copy);
    assert LoreGrows(w.works[i].value, LinkLore(w, workId, l.id, newId).works[i].value, copy);
    assert l.value.sourceId.None?;
  }

  // ---------- editing an original ----------

  /** Editing an original changes that row alone: no other original, and no copy of it. */
  lemma CharacterEdited(w: Workspace, id: string, edited: Character, i: nat)
    requires i < |w.characters|
    ensures var w' := EditCharacter(w, id, edited);
            && w' == w.(characters := w'.characters) && |w'.characters| == |w.characters|
            && w'.characters[i].id == w.characters[i].id
            && w'.characters[i].value == if w.characters[i].id == id then edited else w.characters[i].value
  {}

  lemma LoreEdited(w: Workspace, id: string, edited: Lore, i: nat)
    requires i < |w.lorebooks|
    ensures var w' := EditLore(w, id, edited);
            && w' == w.(lorebooks := w'.lorebooks) && |w'.lorebooks| == |w.lorebooks|
            && w'.lorebooks[i].id == w.lorebooks[i].id
            && w'.lorebooks[i].value == if w.lorebooks[i].id == id then edited else w.lorebooks[i].value
  {}
}
