/** Every reachable workspace is accepted. */
module WorkspaceRuns {
  import opened Wrappers
  import opened Rows
  import opened StudioProject
  import opened StudioWorkspace
  import opened WorkspaceInvariant
  import opened WorkspaceTrash
  import opened WorkspaceImports

  datatype Event =
    | NewWork(newId: string)
    | NewCharacter(character: Row<Character>)
    | NewLore(lore: Row<Lore>)
    | EditOriginalCharacter(id: string, asCharacter: Character)
    | EditOriginalLore(id: string, asLore: Lore)
    | EditWork(id: string, change: Project -> Project)
    | LinkToCharacter(workId: string, sourceId: string, newId: string)
    | LinkToLore(workId: string, sourceId: string, newId: string)
    | Trash(kind: Kind, id: string, inWork: Option<string>, newId: string, now: string)
    | Restore(trashId: string)
    | OpenDraft(work: Row<Project>)
    | ImportDrafts(listed: seq<Row<Project>>, before: set<string>)
    | ImportLibrary(characters: seq<Row<Character>>, lores: seq<Row<Lore>>)

  /** What the page guarantees: fresh UUIDs, valid edits, self-contained imports; and that imports are clear of the trash. */
  ghost predicate Legal(w: Workspace, e: Event) {
    match e
    case NewWork(newId) => Unused(w, newId)
    case NewCharacter(row) => Unused(w, row.id) && ValidCharacter(row.value) && row.value.sourceId.None?
    case NewLore(row) => Unused(w, row.id) && ValidLore(row.value) && row.value.sourceId.None?
    case EditOriginalCharacter(_, edited) => ValidCharacter(edited) && edited.sourceId.None?
    case EditOriginalLore(_, edited) => ValidLore(edited) && edited.sourceId.None?
    case EditWork(id, change) => GoodEdit(w, id, change)
    case LinkToCharacter(_, _, newId) => Unused(w, newId)
    case LinkToLore(_, _, newId) => Unused(w, newId)
    case Trash(_, _, _, newId, _) => Unused(w, newId)
    case Restore(_) => true
    case OpenDraft(row) => SelfContained(row) && ImportIsClear(w, row)
    case ImportDrafts(listed, before) =>
      var rows := Additions(listed, before + Ids(w.works));
      (forall i :: 0 <= i < |listed| ==> SelfContained(listed[i])) && Distinct(rows) && AllClear(w, rows)
    case ImportLibrary(characters, lores) =>
      var cs, ls := Additions(characters, Ids(w.characters)), Additions(lores, Ids(w.lorebooks));
      LibraryRows(characters, lores) && Distinct(cs) && Distinct(ls) && InRange(ls) && OriginalsClear(w, cs, ls)
  }

  function Step(w: Workspace, e: Event): Workspace {
    match e
    case NewWork(newId) => AddWork(w, Row(newId, BLANK_PROJECT))
    case NewCharacter(row) => AddCharacter(w, row)
    case NewLore(row) => AddLore(w, row)
    case EditOriginalCharacter(id, edited) => EditCharacter(w, id, edited)
    case EditOriginalLore(id, edited) => EditLore(w, id, edited)
    case EditWork(id, change) => UpdateProject(w, id, change)
    case LinkToCharacter(workId, sourceId, newId) => LinkCharacter(w, workId, sourceId, newId)
    case LinkToLore(workId, sourceId, newId) => LinkLore(w, workId, sourceId, newId)
    case Trash(kind, id, workId, newId, now) => TrashEntity(w, kind, id, workId, newId, now)
    case Restore(trashId) => RestoreTrash(w, trashId)
    case OpenDraft(row) => ImportWork(w, row)
    case ImportDrafts(listed, before) => ImportWorks(w, listed, before)
    case ImportLibrary(characters, lores) => ImportOriginals(w, characters, lores)
  }

  lemma StepKeeps(w: Workspace, e: Event)
    requires Inv(w) && Legal(w, e)
    ensures Inv(Step(w, e))
  {
    match e
    case NewWork(newId) =>
      WorkIsLive(w, newId);
      assert !Live(w, WorkSlot(newId)) && !Held(w, WorkSlot(newId));
      AddWorkKeeps(w, Row(newId, BLANK_PROJECT));
    case NewCharacter(row) => AddCharacterKeeps(w, row);
    case NewLore(row) => AddLoreKeeps(w, row);
    case EditOriginalCharacter(id, edited) => EditCharacterKeeps(w, id, edited);
    case EditOriginalLore(id, edited) => EditLoreKeeps(w, id, edited);
    case EditWork(id, change) => EditKeeps(w, id, change);
    case LinkToCharacter(workId, sourceId, newId) => LinkCharacterKeeps(w, workId, sourceId, newId);
    case LinkToLore(workId, sourceId, newId) => LinkLoreKeeps(w, workId, sourceId, newId);
    case Trash(kind, id, workId, newId, now) => TrashKeeps(w, kind, id, workId, newId, now);
    case Restore(trashId) => RestoreKeeps(w, trashId);
    case OpenDraft(row) => ImportKeepsIff(w, row);
    case ImportDrafts(listed, before) => ImportWorksIff(w, listed, before);
    case ImportLibrary(characters, lores) => ImportOriginalsIff(w, characters, lores);
  }

  ghost predicate LegalRun(w: Workspace, events: seq<Event>)
    decreases events
  {
    events == [] || (Legal(w, events[0]) && LegalRun(Step(w, events[0]), events[1..]))
  }

  function Run(w: Workspace, events: seq<Event>): Workspace
    decreases events
  {
    if events == [] then w else Run(Step(w, events[0]), events[1..])
  }

  lemma {:induction false} RunKeeps(w: Workspace, events: seq<Event>)
    requires Inv(w) && LegalRun(w, events)
    ensures Inv(Run(w, events))
    decreases events
  {
    if events != [] {
      StepKeeps(w, events[0]);
      RunKeeps(Step(w, events[0]), events[1..]);
    }
  }

  /**
    From nothing or from a migrated draft, whatever is created, linked, edited, trashed, restored
    and imported: the reader accepts it, and no id position is filled twice.
   */
  lemma EveryReachableWorkspace(w: Workspace, events: seq<Event>)
    requires FirstWorkspace(w) && LegalRun(w, events)
    ensures Accepts(Run(w, events)) && Separate(Run(w, events))
  {
    FirstInv(w);
    RunKeeps(w, events);
  }
}
