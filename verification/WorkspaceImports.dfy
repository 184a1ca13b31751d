/**
  Where workspaces come from: migrated drafts, listed server drafts, one opened server draft, and
  the owner's originals. Every import compares ids with live rows only, never with the trash.
 */
module WorkspaceImports {
  import opened Wrappers
  import opened Rows
  import opened StudioProject
  import opened StudioWorkspace
  import opened WorkspaceInvariant
  import opened WorkspaceTrash

  // ---------- the first workspace ----------

  function WithoutSources(p: Project): Project {
    p.(characters := MapRows(p.characters, (row: Row<Character>) => row.value.(sourceId := None)),
       lorebooks := MapRows(p.lorebooks, (row: Row<Lore>) => row.value.(sourceId := None)))
  }

  /** A draft from before workspaces becomes their one work, linked to nothing. */
  function Migrated(p: Project): Workspace {
    EMPTY.(works := [Row("migrated-work", WithoutSources(p))])
  }

  function SampleCharacter(id: string, name: string): Row<Character> {
    Row(id, Character(None, CharacterProfile(name, "", "", "", "", [], ""), []))
  }

  function SampleScene(id: string, title: string, characterId: string, placeId: string): Row<Scene> {
    Row(id, Scene(title, "", "", characterId, placeId, "", Korean, "", Second, ""))
  }

  function FirstPlace(lores: seq<Row<Lore>>): string {
    if lores == [] then "" else if lores[0].value.category == Place then lores[0].id else FirstPlace(lores[1..])
  }

  /** What an old lore list becomes: the sample work around it. Its prose is left out. */
  function SampleProject(lores: seq<Row<Lore>>): Project {
    var place := FirstPlace(lores);
    Project(WorkProfile("별빛 기록실", "", [], "", Private, "first-door"),
            [SampleCharacter("erin", "에린"), SampleCharacter("leon", "레온"), SampleCharacter("adel", "아델")], lores,
            [SampleScene("first-door", "처음 열린 문", "erin", place), SampleScene("night-room", "야간 열람실", "leon", place)])
  }

  lemma {:induction false} FirstPlaceIsPlace(lores: seq<Row<Lore>>)
    ensures FirstPlace(lores) != "" ==> IsPlace(lores, FirstPlace(lores))
  {
    if lores != [] && lores[0].value.category != Place {
      FirstPlaceIsPlace(lores[1..]);
      if FirstPlace(lores) != "" {
        var i :| 0 <= i < |lores[1..]| && lores[1..][i].id == FirstPlace(lores) && lores[1..][i].value.category == Place;
        assert lores[i + 1] == lores[1..][i];
      }
    }
  }

  lemma SampleIsValid(lores: seq<Row<Lore>>)
    requires UniqueRows(lores) && forall i :: 0 <= i < |lores| ==> ValidLore(lores[i].value)
    ensures ValidProject(SampleProject(lores))
  {
    var p := SampleProject(lores);
    FirstPlaceIsPlace(lores);
    assert p.characters[0].id == "erin" && p.characters[1].id == "leon" && p.scenes[0].id == "first-door";
    assert "erin" in Ids(p.characters) && "leon" in Ids(p.characters) && "first-door" in Ids(p.scenes);
    forall i, j | 0 <= i < j < 3 ensures p.characters[i].id != p.characters[j].id { assert p.characters[i].id[0] != p.characters[j].id[0]; }
    assert p.scenes[0].id[0] != p.scenes[1].id[0];
  }

  /** Nothing yet, a migrated draft, or the sample around an old lore list. */
  ghost predicate FirstWorkspace(w: Workspace) {
    || w == EMPTY
    || (exists p :: ValidProject(p) && w == Migrated(p))
    || (exists lores :: ValidLores(lores) && w == Migrated(SampleProject(lores)))
  }

  ghost predicate ValidLores(lores: seq<Row<Lore>>) {
    lores != [] && UniqueRows(lores) && forall i :: 0 <= i < |lores| ==> ValidLore(lores[i].value)
  }

  lemma MigratedRows(p: Project)
    requires ValidRows(p)
    ensures var q := WithoutSources(p); ValidRows(q) && Ids(q.characters) == Ids(p.characters) && SelfSourced(q)
  {
    MapKeeps(p.characters, (row: Row<Character>) => row.value.(sourceId := None));
    MapKeeps(p.lorebooks, (row: Row<Lore>) => row.value.(sourceId := None));
  }

  ghost predicate SelfSourced(p: Project) {
    && (forall i :: 0 <= i < |p.characters| ==> p.characters[i].value.sourceId.None?)
    && (forall i :: 0 <= i < |p.lorebooks| ==> p.lorebooks[i].value.sourceId.None?)
  }

  lemma MigratedPlace(p: Project, id: string)
    requires IsPlace(p.lorebooks, id)
    ensures IsPlace(WithoutSources(p).lorebooks, id)
  {
    var j :| 0 <= j < |p.lorebooks| && p.lorebooks[j].id == id && p.lorebooks[j].value.category == Place;
    var q := WithoutSources(p);
    assert q.lorebooks[j].id == id && q.lorebooks[j].value.category == Place;
  }

  lemma MigratedValid(p: Project)
    requires ValidProject(p)
    ensures ValidProject(WithoutSources(p)) && SelfSourced(WithoutSources(p))
  {
    var q := WithoutSources(p);
    MigratedRows(p);
    forall i | 0 <= i < |q.scenes| ensures ResolvedScene(q, q.scenes[i].value) {
      assert ResolvedScene(p, p.scenes[i].value);
      if p.scenes[i].value.placeId != "" { MigratedPlace(p, p.scenes[i].value.placeId); }
    }
  }

  lemma MigratedInv(p: Project)
    requires ValidProject(p)
    ensures Inv(Migrated(p))
  {
    MigratedValid(p);
  }

  lemma FirstInv(w: Workspace)
    requires FirstWorkspace(w)
    ensures Inv(w)
  {
    if p :| ValidProject(p) && w == Migrated(p) { MigratedInv(p); }
    else if lores :| ValidLores(lores) && w == Migrated(SampleProject(lores)) {
      SampleIsValid(lores);
      MigratedInv(SampleProject(lores));
    }
  }

  // ---------- one opened server draft ----------

  ghost predicate SelfContained(row: Row<Project>) {
    && row.id != "" && ValidProject(row.value)
    && (forall i :: 0 <= i < |row.value.characters| ==> row.value.characters[i].value.sourceId.None?)
    && (forall i :: 0 <= i < |row.value.lorebooks| ==> row.value.lorebooks[i].value.sourceId.None?)
  }

  /** Nothing in the trash uses one of the work's ids. */
  ghost predicate Clear(w: Workspace, row: Row<Project>) {
    forall s :: InWork(row, s) ==> !Held(w, s)
  }

  /** The import is ignored, or clear of the trash. */
  ghost predicate ImportIsClear(w: Workspace, row: Row<Project>) {
    row.id in Ids(w.works) || Clear(w, row)
  }

  /** A server import keeps the invariant exactly when it is clear of the trash. */
  lemma ImportKeepsIff(w: Workspace, row: Row<Project>)
    requires Inv(w) && SelfContained(row)
    ensures Accepts(ImportWork(w, row))
    ensures Inv(ImportWork(w, row)) <==> ImportIsClear(w, row)
  {
    if row.id !in Ids(w.works) { AddWorkKeeps(w, row); }
  }

  /**
    The family where acceptance is lost: a work sits in the trash, a server draft with the same
    id is imported (only live works are compared), and the trashed work is restored.
   */
  lemma ImportOverTrashBreaks(w: Workspace, k: nat, row: Row<Project>)
    requires Inv(w) && k < |w.trash| && w.trash[k].value.what.TrashedWork?
    requires SelfContained(row) && row.id == w.trash[k].value.what.work.id
    ensures !ImportIsClear(w, row)
    ensures Accepts(ImportWork(w, row))
    ensures !Accepts(RestoreTrash(ImportWork(w, row), w.trash[k].id))
  {
    var d := w.trash[k].value.what.work;
    assert InWork(d, WorkSlot(row.id)) && InWork(row, WorkSlot(row.id));
    assert Holds(w.trash[k].value, WorkSlot(row.id));
    WorkIsLive(w, row.id);
    ImportKeepsIff(w, row);
    var w' := ImportWork(w, row);
    assert w'.trash == w.trash;
    var j := WithoutAt(w'.trash, w.trash[k].id);
    var r := RestoreTrash(w', w.trash[k].id);
    assert w'.works[|w.works|] == row;
    assert r.works[|w.works|].id == r.works[|w.works| + 1].id;
  }

  // ---------- a listing of server drafts ----------

  /** The rows whose ids are not in use. */
  function Additions<T>(rows: seq<Row<T>>, used: set<string>): seq<Row<T>> {
    if rows == [] then []
    else (if rows[0].id in used then [] else [rows[0]]) + Additions(rows[1..], used)
  }

  /** An added row was listed, and its id was not in use. */
  lemma {:induction false} AdditionAt<T>(rows: seq<Row<T>>, used: set<string>, i: nat) returns (j: nat)
    requires i < |Additions(rows, used)|
    ensures j < |rows| && rows[j] == Additions(rows, used)[i] && rows[j].id !in used
  {
    if rows[0].id in used {
      var k := AdditionAt(rows[1..], used, i);
      j := k + 1;
    } else if i == 0 {
      j := 0;
    } else {
      var k := AdditionAt(rows[1..], used, i - 1);
      j := k + 1;
    }
  }

  /** Exactly the listed rows whose id is not in use are added. */
  lemma {:induction false} AdditionsAre<T>(rows: seq<Row<T>>, used: set<string>)
    ensures forall row :: row in Additions(rows, used) <==> row in rows && row.id !in used
  {
    if rows != [] {
      AdditionsAre(rows[1..], used);
      assert rows == [rows[0]] + rows[1..];
      assert forall row :: row in rows <==> row == rows[0] || row in rows[1..];
    }
  }

  /** All at once: compared with the works before the listing, and with the works held by now. */
  function ImportWorks(w: Workspace, listed: seq<Row<Project>>, before: set<string>): Workspace {
    w.(works := w.works + Additions(listed, before + Ids(w.works)))
  }

  function WithWorks(w: Workspace, rows: seq<Row<Project>>): Workspace {
    w.(works := w.works + rows)
  }

  lemma JoinedUnique<T>(a: seq<Row<T>>, b: seq<Row<T>>)
    requires UniqueRows(a) && forall i :: 0 <= i < |b| ==> b[i].id != "" && b[i].id !in Ids(a)
    ensures UniqueRows(a + b) <==> Distinct(b)
  {
    if UniqueRows(a + b) {
      forall i, j | 0 <= i < j < |b| ensures b[i].id != b[j].id { assert (a + b)[|a| + i].id != (a + b)[|a| + j].id; }
    }
    if Distinct(b) {
      forall i, j | 0 <= i < j < |a + b| ensures (a + b)[i].id != (a + b)[j].id {
        if i < |a| <= j { assert a[i].id in Ids(a); }
      }
    }
  }

  lemma WithWorksLive(w: Workspace, rows: seq<Row<Project>>, s: Slot)
    ensures Live(WithWorks(w, rows), s) <==> Live(w, s) || exists i :: 0 <= i < |rows| && InWork(rows[i], s)
  {
    var w' := WithWorks(w, rows);
    if s.WorkSlot? || s.PartSlot? {
      if Live(w, s) { var i :| 0 <= i < |w.works| && InWork(w.works[i], s); assert w'.works[i] == w.works[i]; }
      if i :| 0 <= i < |rows| && InWork(rows[i], s) { assert w'.works[|w.works| + i] == rows[i]; }
      if Live(w', s) {
        var i :| 0 <= i < |w'.works| && InWork(w'.works[i], s);
        if i < |w.works| { assert w'.works[i] == w.works[i]; } else { assert w'.works[i] == rows[i - |w.works|]; }
      }
    }
  }

  ghost predicate NewWorks(w: Workspace, rows: seq<Row<Project>>) {
    forall i :: 0 <= i < |rows| ==> SelfContained(rows[i]) && rows[i].id !in Ids(w.works)
  }

  lemma WithWorksAccepts(w: Workspace, rows: seq<Row<Project>>)
    requires Accepts(w) && NewWorks(w, rows)
    ensures Accepts(WithWorks(w, rows)) <==> Distinct(rows)
  {
    var w' := WithWorks(w, rows);
    JoinedUnique(w.works, rows);
    forall i | 0 <= i < |w'.works| ensures ValidProject(w'.works[i].value) && SourcesLive(w', w'.works[i].value) {
      if i < |w.works| { assert w'.works[i] == w.works[i]; } else { assert SelfContained(rows[i - |w.works|]); }
    }
  }

  ghost predicate AllClear(w: Workspace, rows: seq<Row<Project>>) {
    forall i :: 0 <= i < |rows| ==> Clear(w, rows[i])
  }

  lemma WithWorksSeparate(w: Workspace, rows: seq<Row<Project>>)
    requires Separate(w)
    ensures Separate(WithWorks(w, rows)) <==> AllClear(w, rows)
  {
    var w' := WithWorks(w, rows);
    forall s ensures Live(w', s) <==> Live(w, s) || exists i :: 0 <= i < |rows| && InWork(rows[i], s) { WithWorksLive(w, rows, s); }
    if AllClear(w, rows) {
      forall s | Live(w', s) ensures Live(w, s) || !Held(w, s) {
        if !Live(w, s) { var i :| 0 <= i < |rows| && InWork(rows[i], s); assert Clear(w, rows[i]); }
      }
      StaySeparate(w, w');
    }
    if Separate(w') {
      forall i, s | 0 <= i < |rows| && InWork(rows[i], s) ensures !Held(w, s) { assert Live(w', s); }
    }
  }

  lemma AddedAreNew(w: Workspace, listed: seq<Row<Project>>, used: set<string>)
    requires Ids(w.works) <= used && forall i :: 0 <= i < |listed| ==> SelfContained(listed[i])
    ensures NewWorks(w, Additions(listed, used))
  {
    forall i | 0 <= i < |Additions(listed, used)|
      ensures SelfContained(Additions(listed, used)[i]) && Additions(listed, used)[i].id !in Ids(w.works)
    {
      var j := AdditionAt(listed, used, i);
      assert SelfContained(listed[j]);
    }
  }

  lemma WithWorksIff(w: Workspace, rows: seq<Row<Project>>)
    requires Inv(w) && NewWorks(w, rows)
    ensures Accepts(WithWorks(w, rows)) <==> Distinct(rows)
    ensures Inv(WithWorks(w, rows)) <==> Distinct(rows) && AllClear(w, rows)
  {
    WithWorksAccepts(w, rows);
    WithWorksSeparate(w, rows);
  }

  /** The listing keeps the invariant exactly when what it adds has distinct ids, all clear of the trash. */
  lemma ImportWorksIff(w: Workspace, listed: seq<Row<Project>>, before: set<string>)
    requires Inv(w) && forall i :: 0 <= i < |listed| ==> SelfContained(listed[i])
    ensures var rows := Additions(listed, before + Ids(w.works));
            && (Accepts(ImportWorks(w, listed, before)) <==> Distinct(rows))
            && (Inv(ImportWorks(w, listed, before)) <==> Distinct(rows) && AllClear(w, rows))
  {
    AddedAreNew(w, listed, before + Ids(w.works));
    WithWorksIff(w, Additions(listed, before + Ids(w.works)));
  }

  // ---------- the ids a listing gives ----------

  /** A listed draft: its product, and the id of the work it was saved from, if it has one. */
  datatype Listed = Listed(product: string, clientWorkId: string)

  function Original(d: Listed): string {
    if d.clientWorkId != "" then d.clientWorkId else d.product
  }

  function NextId(ids: seq<string>, d: Listed): string {
    if Original(d) in ids then d.product else Original(d)
  }

  function ListedIds(drafts: seq<Listed>): (r: seq<string>)
    ensures |r| == |drafts|
  {
    if drafts == [] then []
    else
      var ids := ListedIds(drafts[..|drafts| - 1]);
      ids + [NextId(ids, drafts[|drafts| - 1])]
  }

  ghost predicate NoRepeats(ids: seq<string>) {
    forall i, j :: 0 <= i < j < |ids| ==> ids[i] != ids[j]
  }

  /** When the k-th draft comes, both ids it could have are given away already. */
  ghost predicate BothTaken(drafts: seq<Listed>, k: nat)
    requires k < |drafts|
  {
    Original(drafts[k]) in ListedIds(drafts[..k]) && drafts[k].product in ListedIds(drafts[..k])
  }

  /** A listing gives every draft an id of its own exactly when no draft finds both of its ids taken. */
  lemma {:induction false} ListedIdsDistinctIff(drafts: seq<Listed>)
    ensures NoRepeats(ListedIds(drafts)) <==> forall k :: 0 <= k < |drafts| ==> !BothTaken(drafts, k)
  {
    if drafts != [] {
      var n := |drafts| - 1;
      var ids, all := ListedIds(drafts[..n]), ListedIds(drafts);
      ListedIdsDistinctIff(drafts[..n]);
      forall k | 0 <= k < n ensures BothTaken(drafts, k) <==> BothTaken(drafts[..n], k) { assert drafts[..n][..k] == drafts[..k]; }
      LastRepeats(ids, all[n]);
      assert BothTaken(drafts, n) <==> all[n] in ids;
    }
  }

  lemma LastRepeats(ids: seq<string>, last: string)
    ensures NoRepeats(ids + [last]) <==> NoRepeats(ids) && last !in ids
  {
    var all := ids + [last];
    if NoRepeats(ids) && last !in ids {
      forall i, j | 0 <= i < j < |all| ensures all[i] != all[j] { assert all[i] in ids; }
    }
    if i :| 0 <= i < |ids| && ids[i] == last { assert all[i] == all[|ids|]; }
    if !NoRepeats(ids) {
      var i, j :| 0 <= i < j < |ids| && ids[i] == ids[j];
      assert all[i] == all[j];
    }
  }

  /** Pages by offset can show a product twice; a draft without a work id then comes as two rows of one id. */
  lemma ShiftedListingBreaks(p: Project)
    requires SelfContained(Row("p", p))
    ensures ListedIds([Listed("p", ""), Listed("p", "")]) == ["p", "p"]
    ensures !Accepts(ImportWorks(EMPTY, [Row("p", p), Row("p", p)], {}))
  {
    var drafts := [Listed("p", ""), Listed("p", "")];
    assert drafts[..1] == [Listed("p", "")] && drafts[..1][..0] == [];
    assert ListedIds(drafts[..1]) == ["p"];
    var rows := [Row("p", p), Row("p", p)];
    assert rows[1..] == [Row("p", p)] && rows[1..][1..] == [];
    assert Additions(rows[1..], {} + Ids(EMPTY.works)) == rows[1..];
    assert Additions(rows, {} + Ids(EMPTY.works)) == rows;
    assert rows[0].id == rows[1].id;
    ImportWorksIff(EMPTY, rows, {});
  }

  // ---------- originals from the server's library ----------

  function ImportOriginals(w: Workspace, characters: seq<Row<Character>>, lores: seq<Row<Lore>>): Workspace {
    w.(characters := w.characters + Additions(characters, Ids(w.characters)),
       lorebooks := w.lorebooks + Additions(lores, Ids(w.lorebooks)))
  }

  /** Rows as the library gives them: made here, so linked to nothing; lore numbers come from the server. */
  ghost predicate LibraryRows(characters: seq<Row<Character>>, lores: seq<Row<Lore>>) {
    && (forall i :: 0 <= i < |characters| ==>
          characters[i].id != "" && ValidCharacter(characters[i].value) && characters[i].value.sourceId.None?)
    && (forall i :: 0 <= i < |lores| ==> lores[i].id != "" && lores[i].value.sourceId.None?)
  }

  function WithOriginals(w: Workspace, characters: seq<Row<Character>>, lores: seq<Row<Lore>>): Workspace {
    w.(characters := w.characters + characters, lorebooks := w.lorebooks + lores)
  }

  ghost predicate InRange(lores: seq<Row<Lore>>) {
    forall i :: 0 <= i < |lores| ==> LoreInRange(lores[i].value)
  }

  ghost predicate ValidOriginals(rows: seq<Row<Lore>>) {
    forall i :: 0 <= i < |rows| ==> ValidLore(rows[i].value) && rows[i].value.sourceId.None?
  }

  lemma JoinedValid(rows: seq<Row<Lore>>, lores: seq<Row<Lore>>)
    requires ValidOriginals(rows)
    requires forall i :: 0 <= i < |lores| ==> lores[i].value.sourceId.None?
    ensures ValidOriginals(rows + lores) <==> InRange(lores)
  {
    if ValidOriginals(rows + lores) {
      forall i | 0 <= i < |lores| ensures LoreInRange(lores[i].value) { assert (rows + lores)[|rows| + i] == lores[i]; }
    }
    if InRange(lores) {
      forall i | 0 <= i < |rows + lores| ensures ValidLore((rows + lores)[i].value) && (rows + lores)[i].value.sourceId.None? {
        if i < |rows| { assert (rows + lores)[i] == rows[i]; } else { assert (rows + lores)[i] == lores[i - |rows|]; }
      }
    }
  }

  lemma WithOriginalsAccepts(w: Workspace, characters: seq<Row<Character>>, lores: seq<Row<Lore>>)
    requires Accepts(w) && LibraryRows(characters, lores)
    requires forall i :: 0 <= i < |characters| ==> characters[i].id !in Ids(w.characters)
    requires forall i :: 0 <= i < |lores| ==> lores[i].id !in Ids(w.lorebooks)
    ensures Accepts(WithOriginals(w, characters, lores)) <==> Distinct(characters) && Distinct(lores) && InRange(lores)
  {
    var w' := WithOriginals(w, characters, lores);
    JoinedUnique(w.characters, characters);
    JoinedUnique(w.lorebooks, lores);
    IdsConcat(w.characters, characters);
    IdsConcat(w.lorebooks, lores);
    forall i | 0 <= i < |w'.works| ensures SourcesLive(w', w'.works[i].value) { assert SourcesLive(w, w.works[i].value); }
    JoinedValid(w.lorebooks, lores);
  }

  /** No original in the trash has one of these ids. */
  ghost predicate OriginalsClear(w: Workspace, characters: seq<Row<Character>>, lores: seq<Row<Lore>>) {
    && (forall i :: 0 <= i < |characters| ==> !Held(w, CharacterSlot(characters[i].id)))
    && (forall i :: 0 <= i < |lores| ==> !Held(w, LoreSlot(lores[i].id)))
  }

  lemma WithOriginalsLive(w: Workspace, characters: seq<Row<Character>>, lores: seq<Row<Lore>>, s: Slot)
    ensures Live(WithOriginals(w, characters, lores), s) <==>
              || Live(w, s) || (s.CharacterSlot? && s.id in Ids(characters)) || (s.LoreSlot? && s.id in Ids(lores))
  {
    IdsConcat(w.characters, characters);
    IdsConcat(w.lorebooks, lores);
  }

  lemma WithOriginalsSeparate(w: Workspace, characters: seq<Row<Character>>, lores: seq<Row<Lore>>)
    requires Separate(w)
    ensures Separate(WithOriginals(w, characters, lores)) <==> OriginalsClear(w, characters, lores)
  {
    var w' := WithOriginals(w, characters, lores);
    forall s ensures Live(w', s) <==>
      || Live(w, s) || (s.CharacterSlot? && s.id in Ids(characters)) || (s.LoreSlot? && s.id in Ids(lores))
    {
      WithOriginalsLive(w, characters, lores, s);
    }
    if OriginalsClear(w, characters, lores) { StaySeparate(w, w'); }
    if Separate(w') {
      forall i | 0 <= i < |characters| ensures !Held(w, CharacterSlot(characters[i].id)) {
        assert characters[i].id in Ids(characters) && Live(w', CharacterSlot(characters[i].id));
      }
      forall i | 0 <= i < |lores| ensures !Held(w, LoreSlot(lores[i].id)) {
        assert lores[i].id in Ids(lores) && Live(w', LoreSlot(lores[i].id));
      }
    }
  }

  lemma LibraryAdditions(characters: seq<Row<Character>>, lores: seq<Row<Lore>>, usedC: set<string>, usedL: set<string>)
    requires LibraryRows(characters, lores)
    ensures LibraryRows(Additions(characters, usedC), Additions(lores, usedL))
    ensures forall i :: 0 <= i < |Additions(characters, usedC)| ==> Additions(characters, usedC)[i].id !in usedC
    ensures forall i :: 0 <= i < |Additions(lores, usedL)| ==> Additions(lores, usedL)[i].id !in usedL
  {
    var cs, ls := Additions(characters, usedC), Additions(lores, usedL);
    forall i | 0 <= i < |cs|
      ensures cs[i].id !in usedC && cs[i].id != "" && ValidCharacter(cs[i].value) && cs[i].value.sourceId.None?
    {
      var j := AdditionAt(characters, usedC, i);
    }
    forall i | 0 <= i < |ls| ensures ls[i].id !in usedL && ls[i].id != "" && ls[i].value.sourceId.None? {
      var j := AdditionAt(lores, usedL, i);
    }
  }

  /** Importing originals keeps the invariant exactly when the new ones are in range, distinct and clear of the trash. */
  lemma ImportOriginalsIff(w: Workspace, characters: seq<Row<Character>>, lores: seq<Row<Lore>>)
    requires Inv(w) && LibraryRows(characters, lores)
    ensures var cs, ls := Additions(characters, Ids(w.characters)), Additions(lores, Ids(w.lorebooks));
            var w' := ImportOriginals(w, characters, lores);
            && (Accepts(w') <==> Distinct(cs) && Distinct(ls) && InRange(ls))
            && (Inv(w') <==> Distinct(cs) && Distinct(ls) && InRange(ls) && OriginalsClear(w, cs, ls))
  {
    LibraryAdditions(characters, lores, Ids(w.characters), Ids(w.lorebooks));
    WithOriginalsIff(w, Additions(characters, Ids(w.characters)), Additions(lores, Ids(w.lorebooks)));
  }

  lemma WithOriginalsIff(w: Workspace, cs: seq<Row<Character>>, ls: seq<Row<Lore>>)
    requires Inv(w) && LibraryRows(cs, ls)
    requires forall i :: 0 <= i < |cs| ==> cs[i].id !in Ids(w.characters)
    requires forall i :: 0 <= i < |ls| ==> ls[i].id !in Ids(w.lorebooks)
    ensures Accepts(WithOriginals(w, cs, ls)) <==> Distinct(cs) && Distinct(ls) && InRange(ls)
    ensures Inv(WithOriginals(w, cs, ls)) <==> Distinct(cs) && Distinct(ls) && InRange(ls) && OriginalsClear(w, cs, ls)
  {
    WithOriginalsAccepts(w, cs, ls);
    WithOriginalsSeparate(w, cs, ls);
  }

  lemma OneAddition<T>(row: Row<T>, used: set<string>)
    requires row.id !in used
    ensures Additions([row], used) == [row]
  {
    assert [row][1..] == [];
  }

  /** An original in the trash, imported again and then restored, is there twice. */
  lemma CharacterImportBreaks(w: Workspace, k: nat, row: Row<Character>)
    requires Inv(w) && k < |w.trash| && w.trash[k].value.what.TrashedCharacter?
    requires LibraryRows([row], []) && row.id == w.trash[k].value.what.character.id
    ensures Accepts(ImportOriginals(w, [row], []))
    ensures !Accepts(RestoreTrash(ImportOriginals(w, [row], []), w.trash[k].id))
  {
    assert Holds(w.trash[k].value, CharacterSlot(row.id));
    assert !Live(w, CharacterSlot(row.id));
    OneAddition(row, Ids(w.characters));
    ImportOriginalsIff(w, [row], []);
    var w' := ImportOriginals(w, [row], []);
    var j := WithoutAt(w'.trash, w.trash[k].id);
    var r := RestoreTrash(w', w.trash[k].id);
    assert w'.characters[|w.characters|] == row;
    assert r.characters[|w.characters|].id == r.characters[|w.characters| + 1].id;
  }

  lemma LoreImportBreaks(w: Workspace, k: nat, row: Row<Lore>)
    requires Inv(w) && k < |w.trash| && w.trash[k].value.what.TrashedLore?
    requires LibraryRows([], [row]) && LoreInRange(row.value) && row.id == w.trash[k].value.what.lore.id
    ensures Accepts(ImportOriginals(w, [], [row]))
    ensures !Accepts(RestoreTrash(ImportOriginals(w, [], [row]), w.trash[k].id))
  {
    assert Holds(w.trash[k].value, LoreSlot(row.id));
    assert !Live(w, LoreSlot(row.id));
    OneAddition(row, Ids(w.lorebooks));
    ImportOriginalsIff(w, [], [row]);
    var w' := ImportOriginals(w, [], [row]);
    var j := WithoutAt(w'.trash, w.trash[k].id);
    var r := RestoreTrash(w', w.trash[k].id);
    assert w'.lorebooks[|w.lorebooks|] == row;
    assert r.lorebooks[|w.lorebooks|].id == r.lorebooks[|w.lorebooks| + 1].id;
  }

  /** In one browser, for every original: import it, trash it, import it again, restore it. */
  lemma ReimportBreaks(w: Workspace, row: Row<Character>, newId: string, now: string)
    requires Inv(w) && row.id in Ids(w.characters) && Unused(w, newId) && LibraryRows([row], [])
    ensures var trashed := TrashEntity(w, CharacterKind, row.id, None, newId, now);
            && Accepts(ImportOriginals(trashed, [row], []))
            && !Accepts(RestoreTrash(ImportOriginals(trashed, [row], []), newId))
  {
    var trashed := TrashEntity(w, CharacterKind, row.id, None, newId, now);
    TrashKeeps(w, CharacterKind, row.id, None, newId, now);
    var d := Find(w.characters, row.id).value;
    assert trashed.trash[|w.trash|] == Row(newId, TrashEntry(d.value.profile.name, now, TrashedCharacter(d)));
    CharacterImportBreaks(trashed, |w.trash|, row);
  }
}
