/** The studio document of one work, and what its readers accept. */
module StudioProject {
  import opened Wrappers
  import opened Rows

  datatype Usage = Portrait | Expression | SceneImage
  datatype Asset = Asset(name: string, usage: Usage, mediaId: Option<string>)
  datatype CharacterProfile = CharacterProfile(name: string, role: string, introduction: string, persona: string,
                                               dialogue: string, tags: seq<string>, relationships: string)
  datatype Character = Character(sourceId: Option<string>, profile: CharacterProfile, assets: seq<Row<Asset>>)

  datatype Category = Place | World | Person | Incident
  datatype Activation = Keyword | Always | Manual
  datatype Matching = AnyWord | AllWords
  datatype Priority = Required | High | Normal | Low
  datatype SearchTarget = Everyone | UserOnly
  datatype Placement = Before | After
  datatype Lore = Lore(sourceId: Option<string>, title: string, category: Category, folder: string, content: string,
                       tags: seq<string>, keywords: seq<string>, enabled: bool, activation: Activation,
                       matching: Matching, priority: Priority, scanDepth: int, searchTarget: SearchTarget,
                       partialMatch: bool, caseSensitive: bool, tokenBudget: int, order: int,
                       placement: Placement, exclusiveGroup: string)

  datatype Language = Korean | English | Japanese
  datatype Perspective = Second | First | Third
  datatype Scene = Scene(title: string, background: string, opening: string, characterId: string, placeId: string,
                         initialNotes: string, language: Language, storyTime: string, perspective: Perspective,
                         variants: string)

  datatype Visibility = Private | Unlisted | Public
  datatype WorkProfile = WorkProfile(title: string, introduction: string, tags: seq<string>, worldRules: string,
                                     visibility: Visibility, defaultSceneId: string)

  datatype Project = Project(work: WorkProfile, characters: seq<Row<Character>>, lorebooks: seq<Row<Lore>>,
                             scenes: seq<Row<Scene>>)

  const BLANK_PROJECT := Project(WorkProfile("새 작품", "", [], "", Private, ""), [], [], [])

  // ---------- what the readers accept ----------

  ghost predicate ValidSource(sourceId: Option<string>) {
    sourceId.Some? ==> sourceId.value != ""
  }

  function Portraits(assets: seq<Row<Asset>>): nat {
    if assets == [] then 0
    else (if assets[0].value.usage == Portrait then 1 else 0) + Portraits(assets[1..])
  }

  ghost predicate ValidCharacter(c: Character) {
    ValidSource(c.sourceId) && UniqueRows(c.assets) && Portraits(c.assets) <= 1
  }

  lemma {:induction false} NoPortraitIff(assets: seq<Row<Asset>>)
    ensures Portraits(assets) == 0 <==> forall i :: 0 <= i < |assets| ==> assets[i].value.usage != Portrait
  {
    if assets != [] {
      NoPortraitIff(assets[1..]);
      assert forall i :: 0 < i < |assets| ==> assets[i] == assets[1..][i - 1];
    }
  }

  /** The reader takes a character whose image ids are distinct and of whose images at most one is the portrait. */
  lemma {:induction false} OnePortraitIff(assets: seq<Row<Asset>>)
    ensures ValidCharacter(Character(None, CharacterProfile("", "", "", "", "", [], ""), assets)) <==>
              && UniqueRows(assets)
              && forall i, j :: 0 <= i < j < |assets| ==> assets[i].value.usage != Portrait || assets[j].value.usage != Portrait
  {
    if assets != [] {
      var rest := assets[1..];
      assert forall i :: 0 < i < |assets| ==> assets[i] == rest[i - 1];
      NoPortraitIff(rest);
      if UniqueRows(assets) {
        assert UniqueRows(rest);
        OnePortraitIff(rest);
      }
    }
  }

  predicate LoreInRange(l: Lore) {
    1 <= l.scanDepth <= 100 && 1 <= l.tokenBudget <= 32000 && 0 <= l.order <= 100000
  }

  ghost predicate ValidLore(l: Lore) {
    ValidSource(l.sourceId) && LoreInRange(l)
  }

  /** A lore list is read row by row; the first bad row rejects it, and so does an empty list. */
  method ReadLoreDraft(rows: seq<Row<Lore>>) returns (accepted: bool)
    ensures accepted <==> rows != [] && UniqueRows(rows) && forall i :: 0 <= i < |rows| ==> ValidLore(rows[i].value)
  {
    if |rows| == 0 { return false; }
    var ids: set<string> := {};
    for k := 0 to |rows|
      invariant ids == Ids(rows[..k])
      invariant UniqueRows(rows[..k])
      invariant forall i :: 0 <= i < k ==> ValidLore(rows[i].value)
    {
      var row := rows[k];
      assert rows[..k + 1] == rows[..k] + [row];
      if row.id == "" || row.id in ids {
        if row.id != "" {
          var i :| 0 <= i < k && rows[..k][i].id == row.id;
          assert rows[i].id == rows[k].id;
        }
        return false;
      }
      if row.value.sourceId == Some("") { return false; }
      AppendUnique(rows[..k], row);
      ids := ids + {row.id};
      if row.value.scanDepth < 0 || row.value.tokenBudget < 0 || row.value.order < 0 { return false; }
      if row.value.scanDepth < 1 || row.value.scanDepth > 100 || row.value.tokenBudget < 1
         || row.value.tokenBudget > 32000 || row.value.order > 100000 { return false; }
    }
    assert rows[..|rows|] == rows;
    return true;
  }

  ghost predicate IsPlace(lores: seq<Row<Lore>>, id: string) {
    exists i :: 0 <= i < |lores| && lores[i].id == id && lores[i].value.category == Place
  }

  ghost predicate ResolvedScene(p: Project, s: Scene) {
    && (s.characterId != "" ==> s.characterId in Ids(p.characters))
    && (s.placeId != "" ==> IsPlace(p.lorebooks, s.placeId))
  }

  ghost predicate ValidRows(p: Project) {
    && UniqueRows(p.characters) && UniqueRows(p.lorebooks) && UniqueRows(p.scenes)
    && (forall i :: 0 <= i < |p.characters| ==> ValidCharacter(p.characters[i].value))
    && (forall i :: 0 <= i < |p.lorebooks| ==> ValidLore(p.lorebooks[i].value))
  }

  /** The document reader: valid rows, and every nonempty reference resolves. */
  ghost predicate ValidProject(p: Project) {
    && ValidRows(p)
    && (p.work.defaultSceneId != "" ==> p.work.defaultSceneId in Ids(p.scenes))
    && (forall i :: 0 <= i < |p.scenes| ==> ResolvedScene(p, p.scenes[i].value))
  }

  // ---------- repair ----------

  function PlaceIds(lores: seq<Row<Lore>>): set<string> {
    set i | 0 <= i < |lores| && lores[i].value.category == Place :: lores[i].id
  }

  function RepairScene(p: Project, s: Scene): Scene {
    s.(characterId := if s.characterId in Ids(p.characters) then s.characterId else "",
       placeId := if s.placeId in PlaceIds(p.lorebooks) then s.placeId else "")
  }

  function RepairDefault(p: Project): string {
    var d := p.work.defaultSceneId;
    if d == "" || d in Ids(p.scenes) then d
    else if p.scenes != [] then p.scenes[0].id else ""
  }

  function Repair(p: Project): Project {
    p.(work := p.work.(defaultSceneId := RepairDefault(p)),
       scenes := MapRows(p.scenes, (row: Row<Scene>) => RepairScene(p, row.value)))
  }

  lemma RepairIds(p: Project)
    ensures Ids(Repair(p).scenes) == Ids(p.scenes)
    ensures UniqueRows(Repair(p).scenes) <==> UniqueRows(p.scenes)
    ensures |Repair(p).scenes| == |p.scenes|
    ensures forall i :: 0 <= i < |p.scenes| ==>
      Repair(p).scenes[i] == Row(p.scenes[i].id, RepairScene(p, p.scenes[i].value))
  {
    MapKeeps(p.scenes, (row: Row<Scene>) => RepairScene(p, row.value));
  }

  /** Repair makes a document with valid rows acceptable, whatever its references were. */
  lemma RepairValid(p: Project)
    requires ValidRows(p)
    ensures ValidProject(Repair(p))
  {
    RepairIds(p);
    var r := Repair(p);
    if p.scenes != [] { assert p.scenes[0].id in Ids(p.scenes); }
    forall i | 0 <= i < |r.scenes| ensures ResolvedScene(r, r.scenes[i].value) {}
  }

  lemma RepairIdentity(p: Project)
    requires ValidProject(p)
    ensures Repair(p) == p
  {
    RepairIds(p);
    forall i | 0 <= i < |p.scenes| ensures Repair(p).scenes[i] == p.scenes[i] {
      assert ResolvedScene(p, p.scenes[i].value);
    }
    assert Repair(p).scenes == p.scenes;
  }

  lemma RepairedSceneStays(p: Project, s: Scene)
    ensures RepairScene(Repair(p), RepairScene(p, s)) == RepairScene(p, s)
  {}

  lemma RepairedDefaultStays(p: Project)
    ensures RepairDefault(Repair(p)) == RepairDefault(p)
  {
    RepairIds(p);
    if p.scenes != [] { assert p.scenes[0].id in Ids(p.scenes); }
  }

  lemma RepairIdempotent(p: Project)
    ensures Repair(Repair(p)) == Repair(p)
  {
    RepairIds(p);
    RepairIds(Repair(p));
    RepairedDefaultStays(p);
    var once, twice := Repair(p).scenes, Repair(Repair(p)).scenes;
    forall i | 0 <= i < |once| ensures twice[i] == once[i] { RepairedSceneStays(p, p.scenes[i].value); }
    assert twice == once;
  }
}
