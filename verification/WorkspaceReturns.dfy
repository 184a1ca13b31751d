/**
  What trashing a row and restoring it gives back.

  Every kind of row comes back, last in its list. A work comes back as it was. An original
  comes back without the links its copies had, which were cut when it went. A character or
  lore entry of a work is joined again to the scenes that showed it, and a scene comes back
  with its cast and place. The one thing that can be lost is the role of the default scene:
  while the scene is in the trash another one takes it, so a default scene gets its role back
  only if it was the work's only scene.
 */
module WorkspaceReturns {
  import opened Wrappers
  import opened Rows
  import opened StudioProject
  import opened StudioWorkspace
  import opened WorkspaceInvariant
  import opened WorkspaceTrash

  function MovedLast<T>(rows: seq<Row<T>>, id: string): seq<Row<T>> {
    var row := Find(rows, id);
    if row.None? then rows else Without(rows, id) + [row.value]
  }

  lemma AttachedIdentity(w: Workspace, p: Project)
    requires SourcesLive(w, p)
    ensures AttachedProject(w, p) == p
  {
    assert AttachedProject(w, p).characters == p.characters;
    assert AttachedProject(w, p).lorebooks == p.lorebooks;
  }

  /** A work comes back unchanged, as the last of the works. */
  lemma WorkReturns(w: Workspace, id: string, newId: string, now: string)
    requires Accepts(w) && newId !in Ids(w.trash) && id in Ids(w.works)
    ensures RestoreTrash(TrashEntity(w, WorkKind, id, None, newId, now), newId) == w.(works := MovedLast(w.works, id))
  {
    var k := WithoutAt(w.works, id);
    var d := w.works[k];
    var w1 := TrashEntity(w, WorkKind, id, None, newId, now);
    AppendWithout(w.trash, Row(newId, TrashEntry(d.value.work.title, now, TrashedWork(d))));
    assert SourcesLive(w1, d.value) by { assert SourcesLive(w, d.value); }
    AttachedIdentity(w1, d.value);
    RepairIdentity(d.value);
  }

  lemma AppendWithoutMapped(w: Workspace, row: Row<TrashEntry>, detach: Project -> Project)
    requires row.id !in Ids(w.trash) && !row.value.what.TrashedWork?
    ensures var mapped := DetachAll(AddTrash(w, row), detach).trash;
            && Find(mapped, row.id) == Some(row)
            && Without(mapped, row.id) == DetachAll(w, detach).trash
  {
    var kept := DetachAll(w, detach).trash;
    var mapped := DetachAll(AddTrash(w, row), detach).trash;
    MapKeeps(w.trash, (r: Row<TrashEntry>) => DetachEntry(r.value, detach));
    assert mapped == kept + [row];
    AppendWithout(kept, row);
  }

  lemma BareCharacterReturns(w: Workspace, id: string, newId: string, now: string)
    requires newId !in Ids(w.trash) && Find(w.characters, id).Some? && Find(w.characters, id).value.value.sourceId.None?
    ensures RestoreTrash(TrashEntity(w, CharacterKind, id, None, newId, now), newId)
         == DetachAll(w, CharacterDetacher(id)).(characters := MovedLast(w.characters, id))
  {
    var d := Find(w.characters, id).value;
    AppendWithoutMapped(w, Row(newId, TrashEntry(d.value.profile.name, now, TrashedCharacter(d))), CharacterDetacher(id));
    assert d == Row(d.id, d.value.(sourceId := None));
  }

  lemma BareLoreReturns(w: Workspace, id: string, newId: string, now: string)
    requires newId !in Ids(w.trash) && Find(w.lorebooks, id).Some? && Find(w.lorebooks, id).value.value.sourceId.None?
    ensures RestoreTrash(TrashEntity(w, LoreKind, id, None, newId, now), newId)
         == DetachAll(w, LoreDetacher(id)).(lorebooks := MovedLast(w.lorebooks, id))
  {
    var d := Find(w.lorebooks, id).value;
    AppendWithoutMapped(w, Row(newId, TrashEntry(d.value.title, now, TrashedLore(d))), LoreDetacher(id));
    assert d == Row(d.id, d.value.(sourceId := None));
  }

  /** An original comes back last; the copies it was linked to stay detached. */
  lemma CharacterReturns(w: Workspace, id: string, newId: string, now: string)
    requires Accepts(w) && newId !in Ids(w.trash) && id in Ids(w.characters)
    ensures RestoreTrash(TrashEntity(w, CharacterKind, id, None, newId, now), newId)
         == DetachAll(w, CharacterDetacher(id)).(characters := MovedLast(w.characters, id))
  {
    var k := WithoutAt(w.characters, id);
    BareCharacterReturns(w, id, newId, now);
  }

  lemma LoreReturns(w: Workspace, id: string, newId: string, now: string)
    requires Accepts(w) && newId !in Ids(w.trash) && id in Ids(w.lorebooks)
    ensures RestoreTrash(TrashEntity(w, LoreKind, id, None, newId, now), newId)
         == DetachAll(w, LoreDetacher(id)).(lorebooks := MovedLast(w.lorebooks, id))
  {
    var k := WithoutAt(w.lorebooks, id);
    BareLoreReturns(w, id, newId, now);
  }

  /** No copy of this original character, in a live work or a trashed one, is linked to it. */
  ghost predicate Unlinked(w: Workspace, id: string) {
    && (forall i :: 0 <= i < |w.works| ==> NoCopy(w.works[i].value, id))
    && (forall i :: 0 <= i < |w.trash| && w.trash[i].value.what.TrashedWork? ==> NoCopy(w.trash[i].value.what.work.value, id))
  }

  ghost predicate NoCopy(p: Project, id: string) {
    forall j :: 0 <= j < |p.characters| ==> p.characters[j].value.sourceId != Some(id)
  }

  lemma DetachedIff(p: Project, id: string)
    ensures DetachCharacters(p, id) == p <==> NoCopy(p, id)
  {
    var q := DetachCharacters(p, id);
    if NoCopy(p, id) { assert q.characters == p.characters; }
    if q == p { forall j | 0 <= j < |p.characters| ensures p.characters[j].value.sourceId != Some(id) { assert q.characters[j] == p.characters[j]; } }
  }

  /** Detaching everything changes nothing exactly if it changes no work and no trashed work. */
  lemma DetachAllIff(w: Workspace, detach: Project -> Project)
    ensures DetachAll(w, detach) == w <==>
              && (forall i :: 0 <= i < |w.works| ==> detach(w.works[i].value) == w.works[i].value)
              && (forall i :: 0 <= i < |w.trash| && w.trash[i].value.what.TrashedWork? ==>
                    detach(w.trash[i].value.what.work.value) == w.trash[i].value.what.work.value)
  {
    var w' := DetachAll(w, detach);
    if w' == w {
      forall i | 0 <= i < |w.works| ensures detach(w.works[i].value) == w.works[i].value { assert w'.works[i] == w.works[i]; }
      forall i | 0 <= i < |w.trash| && w.trash[i].value.what.TrashedWork?
        ensures detach(w.trash[i].value.what.work.value) == w.trash[i].value.what.work.value
      {
        assert w'.trash[i] == w.trash[i];
      }
    }
    if (forall i :: 0 <= i < |w.works| ==> detach(w.works[i].value) == w.works[i].value) { SameRows(w'.works, w.works); }
    if (forall i :: 0 <= i < |w.trash| && w.trash[i].value.what.TrashedWork? ==>
          detach(w.trash[i].value.what.work.value) == w.trash[i].value.what.work.value) {
      SameRows(w'.trash, w.trash);
    }
  }

  /** An original character's round trip loses nothing exactly if no copy is linked to it. */
  lemma CharacterLosesNothingIff(w: Workspace, id: string)
    ensures DetachAll(w, CharacterDetacher(id)) == w <==> Unlinked(w, id)
  {
    DetachAllIff(w, CharacterDetacher(id));
    forall p: Project ensures CharacterDetacher(id)(p) == p <==> NoCopy(p, id) { DetachedIff(p, id); }
  }

  /** The same for a lore entry. */
  ghost predicate LoreUnlinked(w: Workspace, id: string) {
    && (forall i :: 0 <= i < |w.works| ==> NoLoreCopy(w.works[i].value, id))
    && (forall i :: 0 <= i < |w.trash| && w.trash[i].value.what.TrashedWork? ==> NoLoreCopy(w.trash[i].value.what.work.value, id))
  }

  ghost predicate NoLoreCopy(p: Project, id: string) {
    forall j :: 0 <= j < |p.lorebooks| ==> p.lorebooks[j].value.sourceId != Some(id)
  }

  lemma LoreDetachedIff(p: Project, id: string)
    ensures DetachLores(p, id) == p <==> NoLoreCopy(p, id)
  {
    var q := DetachLores(p, id);
    if NoLoreCopy(p, id) { assert q.lorebooks == p.lorebooks; }
    if q == p { forall j | 0 <= j < |p.lorebooks| ensures p.lorebooks[j].value.sourceId != Some(id) { assert q.lorebooks[j] == p.lorebooks[j]; } }
  }

  lemma LoreLosesNothingIff(w: Workspace, id: string)
    ensures DetachAll(w, LoreDetacher(id)) == w <==> LoreUnlinked(w, id)
  {
    DetachAllIff(w, LoreDetacher(id));
    forall p: Project ensures LoreDetacher(id)(p) == p <==> NoLoreCopy(p, id) { LoreDetachedIff(p, id); }
  }

  // ---------- parts: the document comes back with the row last ----------

  lemma {:induction false} SceneIdsSpec(scenes: seq<Row<Scene>>, uses: Scene -> bool)
    ensures forall id :: id in SceneIdsOf(scenes, uses) <==> exists i :: 0 <= i < |scenes| && scenes[i].id == id && uses(scenes[i].value)
  {
    if scenes != [] {
      SceneIdsSpec(scenes[1..], uses);
      forall id ensures id in SceneIdsOf(scenes, uses) <==> exists i :: 0 <= i < |scenes| && scenes[i].id == id && uses(scenes[i].value) {
        if i :| 0 <= i < |scenes| && scenes[i].id == id && uses(scenes[i].value) {
          if i > 0 { assert scenes[1..][i - 1] == scenes[i]; }
        }
        if id in SceneIdsOf(scenes[1..], uses) {
          var i :| 0 <= i < |scenes[1..]| && scenes[1..][i].id == id && uses(scenes[1..][i].value);
          assert scenes[i + 1] == scenes[1..][i];
        }
      }
    }
  }

  lemma MovedIds<T>(rows: seq<Row<T>>, id: string)
    requires UniqueRows(rows) && id in Ids(rows)
    ensures UniqueRows(MovedLast(rows, id)) && Ids(MovedLast(rows, id)) == Ids(rows)
    ensures forall row :: row in MovedLast(rows, id) <==> row in rows
  {
    WithoutKeeps(rows, id);
    AppendUnique(Without(rows, id), Find(rows, id).value);
    var i :| 0 <= i < |rows| && rows[i] == Find(rows, id).value;
    forall row | row in rows ensures row in MovedLast(rows, id) {
      if row.id == id { FindMember(rows, row); }
    }
  }

  lemma SceneIdsExact(scenes: seq<Row<Scene>>, uses: Scene -> bool, i: nat)
    requires UniqueRows(scenes) && i < |scenes|
    ensures scenes[i].id in SceneIdsOf(scenes, uses) <==> uses(scenes[i].value)
  {
    SceneIdsSpec(scenes, uses);
    if scenes[i].id in SceneIdsOf(scenes, uses) {
      var j :| 0 <= j < |scenes| && scenes[j].id == scenes[i].id && uses(scenes[j].value);
      assert j == i;
    }
  }

  lemma PlaceIdsSpec(lores: seq<Row<Lore>>, x: string)
    ensures x in PlaceIds(lores) <==> IsPlace(lores, x)
  {}

  lemma SceneLosesAndRegainsCharacter(p: Project, id: string, s: Scene)
    requires UniqueRows(p.characters) && id in Ids(p.characters) && ResolvedScene(p, s)
    ensures var t := RepairScene(DropCharacter(id)(p), s);
            s == if s.characterId == id then t.(characterId := id) else t
    ensures s.characterId == id ==> RepairScene(DropCharacter(id)(p), s).characterId == ""
  {
    WithoutKeeps(p.characters, id);
    PlaceIdsSpec(p.lorebooks, s.placeId);
  }

  lemma DocumentCharacterReturns(p: Project, id: string)
    requires ValidProject(p) && id in Ids(p.characters)
    ensures Repair(RejoinCharacter(Find(p.characters, id).value, SceneIdsOf(p.scenes, UsesCharacter(id)))
                                  (Repair(DropCharacter(id)(p))))
         == p.(characters := MovedLast(p.characters, id))
  {
    var uses := UsesCharacter(id);
    var sceneIds := SceneIdsOf(p.scenes, uses);
    var q := Repair(DropCharacter(id)(p));
    RepairIds(DropCharacter(id)(p));
    var r := RejoinCharacter(Find(p.characters, id).value, sceneIds)(q);
    forall i | 0 <= i < |p.scenes| ensures r.scenes[i] == p.scenes[i] {
      assert ResolvedScene(p, p.scenes[i].value);
      SceneIdsExact(p.scenes, uses, i);
      SceneLosesAndRegainsCharacter(p, id, p.scenes[i].value);
    }
    assert r.scenes == p.scenes;
    assert r == p.(characters := MovedLast(p.characters, id));
    MovedIds(p.characters, id);
    ReorderedStaysValid(p, r);
    RepairIdentity(r);
  }

  lemma ReorderedStaysValid(p: Project, r: Project)
    requires ValidProject(p) && r == p.(characters := r.characters) && UniqueRows(r.characters)
    requires Ids(r.characters) == Ids(p.characters) && forall row :: row in r.characters <==> row in p.characters
    ensures ValidProject(r)
  {
    forall i | 0 <= i < |r.characters| ensures ValidCharacter(r.characters[i].value) {
      assert r.characters[i] in r.characters;
      var j :| 0 <= j < |p.characters| && p.characters[j] == r.characters[i];
    }
    forall i | 0 <= i < |r.scenes| ensures ResolvedScene(r, r.scenes[i].value) { assert ResolvedScene(p, p.scenes[i].value); }
  }

  lemma SamePlaces(a: seq<Row<Lore>>, b: seq<Row<Lore>>)
    requires forall row :: row in a <==> row in b
    ensures PlaceIds(a) == PlaceIds(b)
  {
    forall x | x in PlaceIds(a) ensures x in PlaceIds(b) {
      var i :| 0 <= i < |a| && a[i].value.category == Place && a[i].id == x;
      assert a[i] in b;
      var j :| 0 <= j < |b| && b[j] == a[i];
    }
    forall x | x in PlaceIds(b) ensures x in PlaceIds(a) {
      var i :| 0 <= i < |b| && b[i].value.category == Place && b[i].id == x;
      assert b[i] in a;
      var j :| 0 <= j < |a| && a[j] == b[i];
    }
  }

  lemma PlacesWithout(lores: seq<Row<Lore>>, id: string)
    requires UniqueRows(lores)
    ensures PlaceIds(Without(lores, id)) == PlaceIds(lores) - {id}
  {
    WithoutKeeps(lores, id);
    var r := Without(lores, id);
    forall x | x in PlaceIds(r) ensures x in PlaceIds(lores) - {id} {
      var i :| 0 <= i < |r| && r[i].value.category == Place && r[i].id == x;
      assert r[i] in r;
      var j :| 0 <= j < |lores| && lores[j] == r[i];
    }
    forall x | x in PlaceIds(lores) - {id} ensures x in PlaceIds(r) {
      var i :| 0 <= i < |lores| && lores[i].value.category == Place && lores[i].id == x;
      assert lores[i] in r;
      var j :| 0 <= j < |r| && r[j] == lores[i];
    }
  }

  lemma SceneLosesAndRegainsPlace(p: Project, id: string, s: Scene)
    requires UniqueRows(p.lorebooks) && ResolvedScene(p, s)
    ensures var t := RepairScene(DropLore(id)(p), s);
            s == if s.placeId == id then t.(placeId := id) else t
    ensures s.placeId == id ==> RepairScene(DropLore(id)(p), s).placeId == ""
  {
    PlacesWithout(p.lorebooks, id);
    PlaceIdsSpec(p.lorebooks, s.placeId);
  }

  lemma DocumentLoreReturns(p: Project, id: string)
    requires ValidProject(p) && id in Ids(p.lorebooks)
    ensures Repair(RejoinLore(Find(p.lorebooks, id).value, SceneIdsOf(p.scenes, UsesPlace(id)))
                             (Repair(DropLore(id)(p))))
         == p.(lorebooks := MovedLast(p.lorebooks, id))
  {
    var uses := UsesPlace(id);
    var sceneIds := SceneIdsOf(p.scenes, uses);
    var q := Repair(DropLore(id)(p));
    RepairIds(DropLore(id)(p));
    var r := RejoinLore(Find(p.lorebooks, id).value, sceneIds)(q);
    forall i | 0 <= i < |p.scenes| ensures r.scenes[i] == p.scenes[i] {
      assert ResolvedScene(p, p.scenes[i].value);
      SceneIdsExact(p.scenes, uses, i);
      SceneLosesAndRegainsPlace(p, id, p.scenes[i].value);
    }
    assert r.scenes == p.scenes;
    assert r == p.(lorebooks := MovedLast(p.lorebooks, id));
    MovedIds(p.lorebooks, id);
    ReorderedLoreStaysValid(p, r);
    RepairIdentity(r);
  }

  lemma ReorderedLoreStaysValid(p: Project, r: Project)
    requires ValidProject(p) && r == p.(lorebooks := r.lorebooks) && UniqueRows(r.lorebooks)
    requires forall row :: row in r.lorebooks <==> row in p.lorebooks
    ensures ValidProject(r)
  {
    forall i | 0 <= i < |r.lorebooks| ensures ValidLore(r.lorebooks[i].value) {
      assert r.lorebooks[i] in r.lorebooks;
      var j :| 0 <= j < |p.lorebooks| && p.lorebooks[j] == r.lorebooks[i];
    }
    SamePlaces(r.lorebooks, p.lorebooks);
    forall i | 0 <= i < |r.scenes| ensures ResolvedScene(r, r.scenes[i].value) {
      var s := p.scenes[i].value;
      assert ResolvedScene(p, s);
      if s.placeId != "" {
        assert s.placeId in PlaceIds(p.lorebooks);
        var j :| 0 <= j < |r.lorebooks| && r.lorebooks[j].value.category == Place && r.lorebooks[j].id == s.placeId;
      }
    }
  }

  lemma ResolvedSceneStays(p: Project, s: Scene)
    requires ResolvedScene(p, s)
    ensures RepairScene(p, s) == s
  {
    PlaceIdsSpec(p.lorebooks, s.placeId);
  }

  lemma DroppedSceneAt(p: Project, id: string, row: Row<Scene>)
    requires row in p.scenes && forall i :: 0 <= i < |p.scenes| ==> ResolvedScene(p, p.scenes[i].value)
    ensures RepairScene(DropScene(id)(p), row.value) == row.value
  {
    var j :| 0 <= j < |p.scenes| && p.scenes[j] == row;
    ResolvedSceneStays(p, p.scenes[j].value);
    assert RepairScene(DropScene(id)(p), row.value) == RepairScene(p, row.value);
  }

  lemma DroppedSceneStaysResolved(p: Project, id: string)
    requires UniqueRows(p.scenes) && forall i :: 0 <= i < |p.scenes| ==> ResolvedScene(p, p.scenes[i].value)
    ensures Repair(DropScene(id)(p)).scenes == Without(p.scenes, id)
  {
    WithoutMembers(p.scenes, id);
    var rest, scenes := Without(p.scenes, id), Repair(DropScene(id)(p)).scenes;
    RepairIds(DropScene(id)(p));
    forall i | 0 <= i < |rest| ensures scenes[i] == rest[i] {
      assert rest[i] in rest;
      DroppedSceneAt(p, id, rest[i]);
    }
    assert scenes == rest;
  }

  lemma ReorderedScenesStayValid(p: Project, r: Project)
    requires ValidProject(p) && r == p.(scenes := r.scenes, work := r.work) && UniqueRows(r.scenes)
    requires forall row :: row in r.scenes <==> row in p.scenes
    requires r.work.defaultSceneId != "" ==> r.work.defaultSceneId in Ids(r.scenes)
    ensures ValidProject(r)
  {
    forall i | 0 <= i < |r.scenes| ensures ResolvedScene(r, r.scenes[i].value) {
      assert r.scenes[i] in r.scenes;
      var j :| 0 <= j < |p.scenes| && p.scenes[j] == r.scenes[i];
      assert ResolvedScene(p, p.scenes[j].value);
    }
  }

  /** A scene comes back whole; the default it carried comes back only if no other scene was left. */
  lemma DocumentSceneReturns(p: Project, id: string)
    requires ValidProject(p) && id in Ids(p.scenes)
    ensures var r := Repair(RejoinScene(Find(p.scenes, id).value, p.work.defaultSceneId == id)(Repair(DropScene(id)(p))));
            && r == p.(scenes := MovedLast(p.scenes, id), work := p.work.(defaultSceneId := r.work.defaultSceneId))
            && (r.work.defaultSceneId == p.work.defaultSceneId <==>
                  p.work.defaultSceneId != id || Without(p.scenes, id) == [])
  {
    var rest := Without(p.scenes, id);
    var q := Repair(DropScene(id)(p));
    assert q.scenes == rest by { DroppedSceneStaysResolved(p, id); }
    var r := RejoinScene(Find(p.scenes, id).value, p.work.defaultSceneId == id)(q);
    assert r.scenes == MovedLast(p.scenes, id);
    var d := r.work.defaultSceneId;
    assert rest != [] ==> rest[0].id in Ids(rest);
    assert Ids(rest) == Ids(p.scenes) - {id} by { WithoutIds(p.scenes, id); }
    assert d == (if p.work.defaultSceneId != id then p.work.defaultSceneId else if rest != [] then rest[0].id else id);
    MovedIds(p.scenes, id);
    ReorderedScenesStayValid(p, r);
    RepairIdentity(r);
  }

  // ---------- and in the workspace ----------

  /** Two edits in a row, each repaired. */
  function Then(first: Project -> Project, second: Project -> Project): Project -> Project {
    (p: Project) => Repair(second(Repair(first(p))))
  }

  function EditedBy(w: Workspace, workId: string, f: Project -> Project): Workspace {
    w.(works := MapRows(w.works, (r: Row<Project>) => if r.id == workId then f(r.value) else r.value))
  }

  /** The same workspace, with one document replaced. */
  function WithDocument(w: Workspace, workId: string, p: Project): Workspace {
    w.(works := MapRows(w.works, (r: Row<Project>) => if r.id == workId then p else r.value))
  }

  lemma UpdatedAt(w: Workspace, workId: string, change: Project -> Project, i: nat)
    requires i < |w.works|
    ensures UpdateProject(w, workId, change).works[i]
         == Row(w.works[i].id, if w.works[i].id == workId then Repair(change(w.works[i].value)) else w.works[i].value)
  {}

  lemma UpdatedTwiceAt(w: Workspace, mid: Workspace, workId: string, first: Project -> Project, second: Project -> Project, i: nat)
    requires i < |w.works| && mid.works == UpdateProject(w, workId, first).works
    ensures UpdateProject(mid, workId, second).works[i] == EditedBy(w, workId, Then(first, second)).works[i]
  {
    UpdatedAt(w, workId, first, i);
    UpdatedAt(mid, workId, second, i);
  }

  lemma UpdatedTwice(w: Workspace, mid: Workspace, workId: string, first: Project -> Project, second: Project -> Project,
                     a: seq<Row<Project>>, b: seq<Row<Project>>)
    requires mid.works == UpdateProject(w, workId, first).works
    requires a == UpdateProject(mid, workId, second).works && b == EditedBy(w, workId, Then(first, second)).works
    ensures a == b
  {
    forall i | 0 <= i < |a| ensures a[i] == b[i] { UpdatedTwiceAt(w, mid, workId, first, second, i); }
    SameRows(a, b);
  }

  lemma EditTwice(w: Workspace, row: Row<TrashEntry>, workId: string, first: Project -> Project, second: Project -> Project)
    requires row.id !in Ids(w.trash)
    ensures var there := UpdateProject(AddTrash(w, row), workId, first);
            && Find(there.trash, row.id) == Some(row)
            && UpdateProject(DropTrash(there, row.id), workId, second) == EditedBy(w, workId, Then(first, second))
  {
    AppendWithout(w.trash, row);
    var mid := DropTrash(UpdateProject(AddTrash(w, row), workId, first), row.id);
    UpdatedTwice(w, mid, workId, first, second, UpdateProject(mid, workId, second).works, EditedBy(w, workId, Then(first, second)).works);
  }

  lemma EditedAt(w: Workspace, workId: string, f: Project -> Project, i: nat)
    requires i < |w.works|
    ensures EditedBy(w, workId, f).works[i] == Row(w.works[i].id, if w.works[i].id == workId then f(w.works[i].value) else w.works[i].value)
  {}

  lemma DocumentAt(w: Workspace, workId: string, p: Project, i: nat)
    requires i < |w.works|
    ensures WithDocument(w, workId, p).works[i] == Row(w.works[i].id, if w.works[i].id == workId then p else w.works[i].value)
  {}

  lemma ReplacedDocument(w: Workspace, workId: string, f: Project -> Project, p: Project)
    requires Distinct(w.works) && Find(w.works, workId).Some? && f(Find(w.works, workId).value.value) == p
    ensures EditedBy(w, workId, f) == WithDocument(w, workId, p)
  {
    var k := WithoutAt(w.works, workId);
    var a, b := EditedBy(w, workId, f).works, WithDocument(w, workId, p).works;
    forall i | 0 <= i < |w.works| ensures a[i] == b[i] {
      EditedAt(w, workId, f, i);
      DocumentAt(w, workId, p, i);
    }
    assert a == b;
  }

  /** A part of a work, trashed and restored: one document is replaced, nothing else changes. */
  lemma PartReturns(w: Workspace, workId: string, row: Row<TrashEntry>, drop: Project -> Project, rejoin: Project -> Project, q: Project)
    requires Distinct(w.works) && Find(w.works, workId).Some? && row.id !in Ids(w.trash)
    requires Repair(rejoin(Repair(drop(Find(w.works, workId).value.value)))) == q
    ensures var there := UpdateProject(AddTrash(w, row), workId, drop);
            && Find(there.trash, row.id) == Some(row) && workId in Ids(there.works)
            && UpdateProject(DropTrash(there, row.id), workId, rejoin) == WithDocument(w, workId, q)
  {
    EditTwice(w, row, workId, drop, rejoin);
    MapKeeps(w.works, (r: Row<Project>) => if r.id == workId then Repair(drop(r.value)) else r.value);
    ReplacedDocument(w, workId, Then(drop, rejoin), q);
  }

  lemma StillAttached(w: Workspace, p: Project, id: string)
    requires SourcesLive(w, p) && UniqueRows(p.characters) && UniqueRows(p.lorebooks)
    ensures id in Ids(p.characters) ==> AttachedCharacter(w, Find(p.characters, id).value.value) == Find(p.characters, id).value.value
    ensures id in Ids(p.lorebooks) ==> AttachedLore(w, Find(p.lorebooks, id).value.value) == Find(p.lorebooks, id).value.value
  {
    if id in Ids(p.characters) { var n := FoundAt(p.characters, id); }
    if id in Ids(p.lorebooks) { var n := FoundAt(p.lorebooks, id); }
  }

  lemma TrashedPartIs(w: Workspace, kind: Kind, id: string, workId: string, newId: string, now: string, row: Row<TrashEntry>)
    requires kind.WorkCharacterKind? || kind.WorkLoreKind? || kind.SceneKind?
    requires Selected(w, kind, id, Some(workId)).Some?
    requires var selected := Selected(w, kind, id, Some(workId)).value;
             row == Row(newId, TrashEntry(selected.0, now, selected.1))
    ensures TrashEntity(w, kind, id, Some(workId), newId, now) == UpdateProject(AddTrash(w, row), workId,
              if kind.WorkCharacterKind? then DropCharacter(id) else if kind.WorkLoreKind? then DropLore(id) else DropScene(id))
  {}

  lemma SelectedParts(w: Workspace, id: string, workId: string)
    requires Find(w.works, workId).Some?
    ensures var p := Find(w.works, workId).value.value;
            && (var c := Find(p.characters, id); c.Some? ==>
                 Selected(w, WorkCharacterKind, id, Some(workId))
                 == Some((c.value.value.profile.name, TrashedWorkCharacter(workId, c.value, SceneIdsOf(p.scenes, UsesCharacter(id))))))
            && (var l := Find(p.lorebooks, id); l.Some? ==>
                 Selected(w, WorkLoreKind, id, Some(workId))
                 == Some((l.value.value.title, TrashedWorkLore(workId, l.value, SceneIdsOf(p.scenes, UsesPlace(id))))))
            && (var s := Find(p.scenes, id); s.Some? ==>
                 Selected(w, SceneKind, id, Some(workId))
                 == Some((s.value.value.title, TrashedScene(workId, s.value, p.work.defaultSceneId == id))))
  {}

  lemma RestoredPartIs(w: Workspace, row: Row<TrashEntry>)
    requires Find(w.trash, row.id) == Some(row)
    ensures match row.value.what
            case TrashedWorkCharacter(workId, d, sceneIds) => workId in Ids(w.works) ==>
              RestoreTrash(w, row.id) == UpdateProject(DropTrash(w, row.id), workId, RejoinCharacter(Row(d.id, AttachedCharacter(w, d.value)), sceneIds))
            case TrashedWorkLore(workId, d, sceneIds) => workId in Ids(w.works) ==>
              RestoreTrash(w, row.id) == UpdateProject(DropTrash(w, row.id), workId, RejoinLore(Row(d.id, AttachedLore(w, d.value)), sceneIds))
            case TrashedScene(workId, d, wasDefault) => workId in Ids(w.works) ==>
              RestoreTrash(w, row.id) == UpdateProject(DropTrash(w, row.id), workId, RejoinScene(d, wasDefault))
            case _ => true
  {}

  lemma FoundDocument(w: Workspace, workId: string)
    requires Accepts(w) && Find(w.works, workId).Some?
    ensures var p := Find(w.works, workId).value.value;
            Distinct(w.works) && ValidProject(p) && SourcesLive(w, p)
  {
    var k := FoundAt(w.works, workId);
  }

  lemma SelectedExists(w: Workspace, id: string, workId: string)
    ensures Selected(w, WorkCharacterKind, id, Some(workId)).Some? ==>
              Find(w.works, workId).Some? && Find(Find(w.works, workId).value.value.characters, id).Some?
    ensures Selected(w, WorkLoreKind, id, Some(workId)).Some? ==>
              Find(w.works, workId).Some? && Find(Find(w.works, workId).value.value.lorebooks, id).Some?
  {}

  lemma CharacterReady(w: Workspace, p: Project, id: string, c: Row<Character>)
    requires ValidProject(p) && SourcesLive(w, p) && Find(p.characters, id) == Some(c)
    ensures Repair(RejoinCharacter(c, SceneIdsOf(p.scenes, UsesCharacter(id)))(Repair(DropCharacter(id)(p)))) == p.(characters := MovedLast(p.characters, id))
    ensures AttachedCharacter(w, c.value) == c.value
  {
    DocumentCharacterReturns(p, id);
    StillAttached(w, p, id);
  }

  lemma WorkCharacterReturns(w: Workspace, workId: string, id: string, newId: string, now: string)
    requires Accepts(w) && newId !in Ids(w.trash) && Selected(w, WorkCharacterKind, id, Some(workId)).Some?
    ensures var p := Find(w.works, workId).value.value;
            RestoreTrash(TrashEntity(w, WorkCharacterKind, id, Some(workId), newId, now), newId)
            == WithDocument(w, workId, p.(characters := MovedLast(p.characters, id)))
  {
    SelectedExists(w, id, workId);
    FoundDocument(w, workId);
    var p := Find(w.works, workId).value.value;
    CharacterReady(w, p, id, Find(p.characters, id).value);
    BareWorkCharacterReturns(w, workId, id, newId, now, p, Find(p.characters, id).value, p.(characters := MovedLast(p.characters, id)));
  }

  /** Where the document itself comes back and its source is still live. */
  lemma BareWorkCharacterReturns(w: Workspace, workId: string, id: string, newId: string, now: string, p: Project, c: Row<Character>, q: Project)
    requires Distinct(w.works) && newId !in Ids(w.trash)
    requires Find(w.works, workId) == Some(Row(workId, p)) && Find(p.characters, id) == Some(c)
    requires Repair(RejoinCharacter(c, SceneIdsOf(p.scenes, UsesCharacter(id)))(Repair(DropCharacter(id)(p)))) == q
    requires AttachedCharacter(w, c.value) == c.value
    ensures RestoreTrash(TrashEntity(w, WorkCharacterKind, id, Some(workId), newId, now), newId) == WithDocument(w, workId, q)
  {
    var sceneIds := SceneIdsOf(p.scenes, UsesCharacter(id));
    var row := Row(newId, TrashEntry(c.value.profile.name, now, TrashedWorkCharacter(workId, c, sceneIds)));
    PartReturns(w, workId, row, DropCharacter(id), RejoinCharacter(c, sceneIds), q);
    var there := UpdateProject(AddTrash(w, row), workId, DropCharacter(id));
    SelectedParts(w, id, workId);
    TrashedPartIs(w, WorkCharacterKind, id, workId, newId, now, row);
    assert AttachedCharacter(there, c.value) == c.value;
    RestoredPartIs(there, row);
  }

  lemma LoreReady(w: Workspace, p: Project, id: string, l: Row<Lore>)
    requires ValidProject(p) && SourcesLive(w, p) && Find(p.lorebooks, id) == Some(l)
    ensures Repair(RejoinLore(l, SceneIdsOf(p.scenes, UsesPlace(id)))(Repair(DropLore(id)(p)))) == p.(lorebooks := MovedLast(p.lorebooks, id))
    ensures AttachedLore(w, l.value) == l.value
  {
    DocumentLoreReturns(p, id);
    StillAttached(w, p, id);
  }

  lemma WorkLoreReturns(w: Workspace, workId: string, id: string, newId: string, now: string)
    requires Accepts(w) && newId !in Ids(w.trash) && Selected(w, WorkLoreKind, id, Some(workId)).Some?
    ensures var p := Find(w.works, workId).value.value;
            RestoreTrash(TrashEntity(w, WorkLoreKind, id, Some(workId), newId, now), newId)
            == WithDocument(w, workId, p.(lorebooks := MovedLast(p.lorebooks, id)))
  {
    SelectedExists(w, id, workId);
    FoundDocument(w, workId);
    var p := Find(w.works, workId).value.value;
    LoreReady(w, p, id, Find(p.lorebooks, id).value);
    BareWorkLoreReturns(w, workId, id, newId, now, p, Find(p.lorebooks, id).value, p.(lorebooks := MovedLast(p.lorebooks, id)));
  }

  /** Where the document itself comes back and its source is still live. */
  lemma BareWorkLoreReturns(w: Workspace, workId: string, id: string, newId: string, now: string, p: Project, l: Row<Lore>, q: Project)
    requires Distinct(w.works) && newId !in Ids(w.trash)
    requires Find(w.works, workId) == Some(Row(workId, p)) && Find(p.lorebooks, id) == Some(l)
    requires Repair(RejoinLore(l, SceneIdsOf(p.scenes, UsesPlace(id)))(Repair(DropLore(id)(p)))) == q
    requires AttachedLore(w, l.value) == l.value
    ensures RestoreTrash(TrashEntity(w, WorkLoreKind, id, Some(workId), newId, now), newId) == WithDocument(w, workId, q)
  {
    var sceneIds := SceneIdsOf(p.scenes, UsesPlace(id));
    var row := Row(newId, TrashEntry(l.value.title, now, TrashedWorkLore(workId, l, sceneIds)));
    PartReturns(w, workId, row, DropLore(id), RejoinLore(l, sceneIds), q);
    var there := UpdateProject(AddTrash(w, row), workId, DropLore(id));
    SelectedParts(w, id, workId);
    TrashedPartIs(w, WorkLoreKind, id, workId, newId, now, row);
    assert AttachedLore(there, l.value) == l.value;
    RestoredPartIs(there, row);
  }

  /** The only loss: a default scene, when other scenes were left to take its place. */
  lemma SceneReturns(w: Workspace, workId: string, id: string, newId: string, now: string) returns (d: string)
    requires Accepts(w) && newId !in Ids(w.trash) && Selected(w, SceneKind, id, Some(workId)).Some?
    ensures var p := Find(w.works, workId).value.value;
            && RestoreTrash(TrashEntity(w, SceneKind, id, Some(workId), newId, now), newId)
               == WithDocument(w, workId, p.(scenes := MovedLast(p.scenes, id), work := p.work.(defaultSceneId := d)))
            && (d == p.work.defaultSceneId <==> p.work.defaultSceneId != id || Without(p.scenes, id) == [])
  {
    FoundDocument(w, workId);
    d := BareSceneReturns(w, workId, id, newId, now);
  }

  lemma BareSceneReturns(w: Workspace, workId: string, id: string, newId: string, now: string) returns (d: string)
    requires Distinct(w.works) && newId !in Ids(w.trash) && Selected(w, SceneKind, id, Some(workId)).Some?
    requires ValidProject(Find(w.works, workId).value.value)
    ensures var p := Find(w.works, workId).value.value;
            && RestoreTrash(TrashEntity(w, SceneKind, id, Some(workId), newId, now), newId)
               == WithDocument(w, workId, p.(scenes := MovedLast(p.scenes, id), work := p.work.(defaultSceneId := d)))
            && (d == p.work.defaultSceneId <==> p.work.defaultSceneId != id || Without(p.scenes, id) == [])
  {
    var p := Find(w.works, workId).value.value;
    var s := Find(p.scenes, id).value;
    var r := Repair(RejoinScene(s, p.work.defaultSceneId == id)(Repair(DropScene(id)(p))));
    d := r.work.defaultSceneId;
    DocumentSceneReturns(p, id);
    SceneComesBack(w, workId, id, newId, now, p, s, r);
  }

  lemma SceneComesBack(w: Workspace, workId: string, id: string, newId: string, now: string, p: Project, s: Row<Scene>, q: Project)
    requires Distinct(w.works) && newId !in Ids(w.trash)
    requires Find(w.works, workId) == Some(Row(workId, p)) && Find(p.scenes, id) == Some(s)
    requires Repair(RejoinScene(s, p.work.defaultSceneId == id)(Repair(DropScene(id)(p)))) == q
    ensures RestoreTrash(TrashEntity(w, SceneKind, id, Some(workId), newId, now), newId) == WithDocument(w, workId, q)
  {
    var wasDefault := p.work.defaultSceneId == id;
    var row := Row(newId, TrashEntry(s.value.title, now, TrashedScene(workId, s, wasDefault)));
    PartReturns(w, workId, row, DropScene(id), RejoinScene(s, wasDefault), q);
    var there := UpdateProject(AddTrash(w, row), workId, DropScene(id));
    SelectedParts(w, id, workId);
    TrashedPartIs(w, SceneKind, id, workId, newId, now, row);
    RestoredPartIs(there, row);
  }
}
