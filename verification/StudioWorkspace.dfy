/**
  The browser workspace: works, library originals, linked copies and a trash bin. Every
  operation returns a new workspace; `Accepts` is what the stored-workspace reader accepts.
 */
module StudioWorkspace {
  import opened Wrappers
  import opened Rows
  import opened StudioProject

  datatype Trashed =
    | TrashedWork(work: Row<Project>)
    | TrashedCharacter(character: Row<Character>)
    | TrashedLore(lore: Row<Lore>)
    | TrashedWorkCharacter(workId: string, character: Row<Character>, sceneIds: seq<string>)
    | TrashedWorkLore(workId: string, lore: Row<Lore>, sceneIds: seq<string>)
    | TrashedScene(workId: string, scene: Row<Scene>, wasDefault: bool)

  datatype TrashEntry = TrashEntry(title: string, deletedAt: string, what: Trashed)

  datatype Workspace = Workspace(works: seq<Row<Project>>, characters: seq<Row<Character>>,
                                 lorebooks: seq<Row<Lore>>, trash: seq<Row<TrashEntry>>)

  const EMPTY := Workspace([], [], [], [])

  datatype Kind = WorkKind | CharacterKind | LoreKind | WorkCharacterKind | WorkLoreKind | SceneKind

  // ---------- what the reader accepts ----------

  ghost predicate SourcesLive(w: Workspace, p: Project) {
    && (forall i :: 0 <= i < |p.characters| && p.characters[i].value.sourceId.Some? ==>
          p.characters[i].value.sourceId.value in Ids(w.characters))
    && (forall i :: 0 <= i < |p.lorebooks| && p.lorebooks[i].value.sourceId.Some? ==>
          p.lorebooks[i].value.sourceId.value in Ids(w.lorebooks))
  }

  ghost predicate ValidEntry(e: TrashEntry) {
    match e.what
    case TrashedWork(d) => d.id != "" && ValidProject(d.value)
    case TrashedCharacter(d) => d.id != "" && ValidCharacter(d.value)
    case TrashedLore(d) => d.id != "" && ValidLore(d.value)
    case TrashedWorkCharacter(workId, d, _) => workId != "" && d.id != "" && ValidCharacter(d.value)
    case TrashedWorkLore(workId, d, _) => workId != "" && d.id != "" && ValidLore(d.value)
    case TrashedScene(workId, d, _) => workId != "" && d.id != ""
  }

  ghost predicate Accepts(w: Workspace) {
    && UniqueRows(w.works) && UniqueRows(w.characters) && UniqueRows(w.lorebooks) && UniqueRows(w.trash)
    && (forall i :: 0 <= i < |w.works| ==> ValidProject(w.works[i].value) && SourcesLive(w, w.works[i].value))
    && (forall i :: 0 <= i < |w.characters| ==> ValidCharacter(w.characters[i].value) && w.characters[i].value.sourceId.None?)
    && (forall i :: 0 <= i < |w.lorebooks| ==> ValidLore(w.lorebooks[i].value) && w.lorebooks[i].value.sourceId.None?)
    && (forall i :: 0 <= i < |w.trash| ==> ValidEntry(w.trash[i].value))
  }

  // ---------- edits and links ----------

  function UpdateProject(w: Workspace, id: string, change: Project -> Project): Workspace {
    w.(works := MapRows(w.works, (row: Row<Project>) => if row.id == id then Repair(change(row.value)) else row.value))
  }

  function WithCharacter(c: Row<Character>): Project -> Project {
    (p: Project) => p.(characters := p.characters + [c])
  }

  function WithLore(l: Row<Lore>): Project -> Project {
    (p: Project) => p.(lorebooks := p.lorebooks + [l])
  }

  /** Append a copy of a library original to one work; the copy remembers where it came from. */
  function LinkCharacter(w: Workspace, workId: string, sourceId: string, newId: string): Workspace {
    var source := Find(w.characters, sourceId);
    if source.None? then w
    else UpdateProject(w, workId, WithCharacter(Row(newId, source.value.value.(sourceId := Some(sourceId)))))
  }

  function LinkLore(w: Workspace, workId: string, sourceId: string, newId: string): Workspace {
    var source := Find(w.lorebooks, sourceId);
    if source.None? then w
    else UpdateProject(w, workId, WithLore(Row(newId, source.value.value.(sourceId := Some(sourceId)))))
  }

  // ---------- trash ----------

  function DetachCharacters(p: Project, id: string): Project {
    p.(characters := MapRows(p.characters, (row: Row<Character>) =>
      if row.value.sourceId == Some(id) then row.value.(sourceId := None) else row.value))
  }

  function DetachLores(p: Project, id: string): Project {
    p.(lorebooks := MapRows(p.lorebooks, (row: Row<Lore>) =>
      if row.value.sourceId == Some(id) then row.value.(sourceId := None) else row.value))
  }

  function CharacterDetacher(id: string): Project -> Project {
    (p: Project) => DetachCharacters(p, id)
  }

  function LoreDetacher(id: string): Project -> Project {
    (p: Project) => DetachLores(p, id)
  }

  function DetachEntry(e: TrashEntry, detach: Project -> Project): TrashEntry {
    if e.what.TrashedWork? then e.(what := TrashedWork(Row(e.what.work.id, detach(e.what.work.value)))) else e
  }

  /** Detach every copy of an original, in live works and in trashed ones. */
  function DetachAll(w: Workspace, detach: Project -> Project): Workspace {
    w.(works := MapRows(w.works, (row: Row<Project>) => detach(row.value)),
       trash := MapRows(w.trash, (row: Row<TrashEntry>) => DetachEntry(row.value, detach)))
  }

  function SceneIdsOf(scenes: seq<Row<Scene>>, uses: Scene -> bool): seq<string> {
    if scenes == [] then []
    else (if uses(scenes[0].value) then [scenes[0].id] else []) + SceneIdsOf(scenes[1..], uses)
  }

  function UsesCharacter(id: string): Scene -> bool {
    (s: Scene) => s.characterId == id
  }

  function UsesPlace(id: string): Scene -> bool {
    (s: Scene) => s.placeId == id
  }

  function DropCharacter(id: string): Project -> Project {
    (p: Project) => p.(characters := Without(p.characters, id))
  }

  function DropLore(id: string): Project -> Project {
    (p: Project) => p.(lorebooks := Without(p.lorebooks, id))
  }

  function DropScene(id: string): Project -> Project {
    (p: Project) => p.(scenes := Without(p.scenes, id))
  }

  /** What would go to the trash, with its label; none when the row does not exist. */
  function Selected(w: Workspace, kind: Kind, id: string, workId: Option<string>): Option<(string, Trashed)> {
    var work := if workId.Some? then Find(w.works, workId.value) else None;
    match kind
    case WorkKind =>
      var d := Find(w.works, id);
      if d.None? then None else Some((d.value.value.work.title, TrashedWork(d.value)))
    case CharacterKind =>
      var d := Find(w.characters, id);
      if d.None? then None else Some((d.value.value.profile.name, TrashedCharacter(d.value)))
    case LoreKind =>
      var d := Find(w.lorebooks, id);
      if d.None? then None else Some((d.value.value.title, TrashedLore(d.value)))
    case WorkCharacterKind =>
      if work.None? then None
      else
        var p := work.value.value;
        var d := Find(p.characters, id);
        if d.None? then None
        else Some((d.value.value.profile.name,
                   TrashedWorkCharacter(workId.value, d.value, SceneIdsOf(p.scenes, UsesCharacter(id)))))
    case WorkLoreKind =>
      if work.None? then None
      else
        var p := work.value.value;
        var d := Find(p.lorebooks, id);
        if d.None? then None
        else Some((d.value.value.title,
                   TrashedWorkLore(workId.value, d.value, SceneIdsOf(p.scenes, UsesPlace(id)))))
    case SceneKind =>
      if work.None? then None
      else
        var p := work.value.value;
        var d := Find(p.scenes, id);
        if d.None? then None
        else Some((d.value.value.title, TrashedScene(workId.value, d.value, p.work.defaultSceneId == id)))
  }

  function TrashEntity(w: Workspace, kind: Kind, id: string, workId: Option<string>, newId: string, now: string): Workspace {
    var selected := Selected(w, kind, id, workId);
    if selected.None? then w
    else
      var next := w.(trash := w.trash + [Row(newId, TrashEntry(selected.value.0, now, selected.value.1))]);
      match kind
      case WorkKind => next.(works := Without(next.works, id))
      case CharacterKind => DetachAll(next.(characters := Without(next.characters, id)), CharacterDetacher(id))
      case LoreKind => DetachAll(next.(lorebooks := Without(next.lorebooks, id)), LoreDetacher(id))
      case WorkCharacterKind => UpdateProject(next, workId.value, DropCharacter(id))
      case WorkLoreKind => UpdateProject(next, workId.value, DropLore(id))
      case SceneKind => UpdateProject(next, workId.value, DropScene(id))
  }

  // ---------- restore ----------

  /** A copy whose original is gone becomes a row of its own. */
  function AttachedCharacter(w: Workspace, c: Character): Character {
    if c.sourceId.Some? && c.sourceId.value !in Ids(w.characters) then c.(sourceId := None) else c
  }

  function AttachedLore(w: Workspace, l: Lore): Lore {
    if l.sourceId.Some? && l.sourceId.value !in Ids(w.lorebooks) then l.(sourceId := None) else l
  }

  function AttachedProject(w: Workspace, p: Project): Project {
    p.(characters := MapRows(p.characters, (row: Row<Character>) => AttachedCharacter(w, row.value)),
       lorebooks := MapRows(p.lorebooks, (row: Row<Lore>) => AttachedLore(w, row.value)))
  }

  function RejoinCharacter(c: Row<Character>, sceneIds: seq<string>): Project -> Project {
    (p: Project) => p.(characters := p.characters + [c],
                       scenes := MapRows(p.scenes, (row: Row<Scene>) =>
                         if row.id in sceneIds && row.value.characterId == "" then row.value.(characterId := c.id) else row.value))
  }

  function RejoinLore(l: Row<Lore>, sceneIds: seq<string>): Project -> Project {
    (p: Project) => p.(lorebooks := p.lorebooks + [l],
                       scenes := MapRows(p.scenes, (row: Row<Scene>) =>
                         if row.id in sceneIds && row.value.placeId == "" then row.value.(placeId := l.id) else row.value))
  }

  function RejoinScene(s: Row<Scene>, wasDefault: bool): Project -> Project {
    (p: Project) => p.(scenes := p.scenes + [s],
                       work := p.work.(defaultSceneId :=
                         if wasDefault && p.work.defaultSceneId == "" then s.id else p.work.defaultSceneId))
  }

  function RestoreTrash(w: Workspace, trashId: string): Workspace {
    var t := Find(w.trash, trashId);
    if t.None? then w
    else
      var what := t.value.value.what;
      var next := w.(trash := Without(w.trash, trashId));
      match what
      case TrashedWork(d) => next.(works := next.works + [Row(d.id, Repair(AttachedProject(w, d.value)))])
      case TrashedCharacter(d) => next.(characters := next.characters + [Row(d.id, d.value.(sourceId := None))])
      case TrashedLore(d) => next.(lorebooks := next.lorebooks + [Row(d.id, d.value.(sourceId := None))])
      case TrashedWorkCharacter(workId, d, sceneIds) =>
        if workId !in Ids(w.works) then w
        else UpdateProject(next, workId, RejoinCharacter(Row(d.id, AttachedCharacter(w, d.value)), sceneIds))
      case TrashedWorkLore(workId, d, sceneIds) =>
        if workId !in Ids(w.works) then w
        else UpdateProject(next, workId, RejoinLore(Row(d.id, AttachedLore(w, d.value)), sceneIds))
      case TrashedScene(workId, d, wasDefault) =>
        if workId !in Ids(w.works) then w
        else UpdateProject(next, workId, RejoinScene(d, wasDefault))
  }

  // ---------- other commits ----------

  function AddWork(w: Workspace, row: Row<Project>): Workspace {
    w.(works := w.works + [row])
  }

  /** A server draft is added unless a live work already has its id. */
  function ImportWork(w: Workspace, row: Row<Project>): Workspace {
    if row.id in Ids(w.works) then w else AddWork(w, row)
  }

  function AddCharacter(w: Workspace, row: Row<Character>): Workspace {
    w.(characters := w.characters + [row])
  }

  function AddLore(w: Workspace, row: Row<Lore>): Workspace {
    w.(lorebooks := w.lorebooks + [row])
  }

  function EditCharacter(w: Workspace, id: string, edited: Character): Workspace {
    w.(characters := MapRows(w.characters, (row: Row<Character>) => if row.id == id then edited else row.value))
  }

  function EditLore(w: Workspace, id: string, edited: Lore): Workspace {
    w.(lorebooks := MapRows(w.lorebooks, (row: Row<Lore>) => if row.id == id then edited else row.value))
  }
}
