/**
  What the studio client compares when it asks whether two projects are the same.

  Both projects lose the source ids of their characters and lore and the media ids of uploaded
  images, and the canonical texts of what is left are compared. Two projects of the right shape
  count as the same exactly when they agree everywhere else.
 */
module StudioSerialized {
  import opened CanonicalJson
  import opened CanonicalEquality

  function DropField(fields: seq<Field<Json>>, key: string): seq<Field<Json>> {
    if fields == [] then []
    else (if fields[0].key == key then [] else [fields[0]]) + DropField(fields[1..], key)
  }

  /** Destructuring one property away. */
  function Drop(v: Json, key: string): Json
    requires v.Obj?
  {
    Obj(DropField(v.fields, key))
  }

  function SetField(fields: seq<Field<Json>>, key: string, value: Json): seq<Field<Json>> {
    if fields == [] then [Field(key, value)]
    else if fields[0].key == key then [Field(key, value)] + fields[1..]
    else [fields[0]] + SetField(fields[1..], key, value)
  }

  /** Spreading an object and overriding one property. */
  function Set(v: Json, key: string, value: Json): Json
    requires v.Obj?
  {
    Obj(SetField(v.fields, key, value))
  }

  ghost predicate Rows(v: Json) {
    v.Arr? && forall i :: 0 <= i < |v.items| ==> v.items[i].Obj?
  }

  ghost predicate CharacterShape(c: Json) {
    c.Obj? && Rows(Lookup(c.fields, "assets"))
  }

  /** The lists a studio project is known to have once it has been read. */
  ghost predicate StudioShape(p: Json) {
    && WellFormed(p) && p.Obj? && Rows(Lookup(p.fields, "characters")) && Rows(Lookup(p.fields, "lorebooks"))
    && forall i :: 0 <= i < |Lookup(p.fields, "characters").items| ==> CharacterShape(Lookup(p.fields, "characters").items[i])
  }

  ghost function DropEach(rows: Json, key: string): Json
    requires Rows(rows)
  {
    Arr(seq(|rows.items|, i requires 0 <= i < |rows.items| => Drop(rows.items[i], key)))
  }

  ghost function StripCharacter(c: Json): Json
    requires CharacterShape(c)
  {
    Set(Drop(c, "sourceId"), "assets", DropEach(Lookup(c.fields, "assets"), "mediaId"))
  }

  ghost function StripCharacters(p: Json): Json
    requires StudioShape(p)
  {
    var rows := Lookup(p.fields, "characters").items;
    Arr(seq(|rows|, i requires 0 <= i < |rows| => StripCharacter(rows[i])))
  }

  ghost function Detached(p: Json): Json
    requires StudioShape(p)
  {
    Set(Set(p, "characters", StripCharacters(p)), "lorebooks", DropEach(Lookup(p.fields, "lorebooks"), "sourceId"))
  }

  ghost function Serialized(p: Json, less: Order): string
    requires StudioShape(p)
  {
    Canonical(Detached(p), less)
  }

  // ---------- the same project, but for source and media references ----------

  ghost predicate SameExcept(a: Json, b: Json, skipped: set<string>)
    requires a.Obj? && b.Obj?
  {
    forall key :: key !in skipped ==> SameAt(a, b, key)
  }

  ghost predicate SameRows(a: Json, b: Json, skipped: set<string>)
    requires Rows(a) && Rows(b)
  {
    |a.items| == |b.items| && forall i :: 0 <= i < |a.items| ==> SameExcept(a.items[i], b.items[i], skipped)
  }

  ghost predicate SameCharacter(a: Json, b: Json)
    requires CharacterShape(a) && CharacterShape(b)
  {
    SameExcept(a, b, {"sourceId", "assets"}) && SameRows(Lookup(a.fields, "assets"), Lookup(b.fields, "assets"), {"mediaId"})
  }

  ghost predicate SameCharacters(a: Json, b: Json)
    requires StudioShape(a) && StudioShape(b)
  {
    var x, y := Lookup(a.fields, "characters").items, Lookup(b.fields, "characters").items;
    |x| == |y| && forall i :: 0 <= i < |x| ==> SameCharacter(x[i], y[i])
  }

  /** Equal apart from the source of characters and lore and the uploaded media of assets. */
  ghost predicate SameProject(a: Json, b: Json)
    requires StudioShape(a) && StudioShape(b)
  {
    && SameExcept(a, b, {"characters", "lorebooks"})
    && SameRows(Lookup(a.fields, "lorebooks"), Lookup(b.fields, "lorebooks"), {"sourceId"})
    && SameCharacters(a, b)
  }

  // ---------- lookups after dropping and setting ----------

  lemma {:induction false} DropLookup(fields: seq<Field<Json>>, key: string, k: string)
    ensures Lookup(DropField(fields, key), k) == if k == key then Undefined else Lookup(fields, k)
  {
    if fields != [] {
      DropLookup(fields[1..], key, k);
      var rest := DropField(fields[1..], key);
      if fields[0].key == key { assert DropField(fields, key) == rest; }
      else { assert DropField(fields, key)[1..] == rest; }
    }
  }

  lemma {:induction false} SetLookup(fields: seq<Field<Json>>, key: string, value: Json, k: string)
    ensures Lookup(SetField(fields, key, value), k) == if k == key then value else Lookup(fields, k)
  {
    var r := SetField(fields, key, value);
    if fields == [] {
    } else if fields[0].key == key {
      assert r[1..] == fields[1..];
    } else {
      SetLookup(fields[1..], key, value, k);
      assert r[1..] == SetField(fields[1..], key, value);
    }
  }

  lemma {:induction false} DropMember(fields: seq<Field<Json>>, key: string, f: Field<Json>)
    ensures f in DropField(fields, key) <==> f in fields && f.key != key
  {
    if fields != [] {
      DropMember(fields[1..], key, f);
      assert fields == [fields[0]] + fields[1..];
    }
  }

  lemma {:induction false} DropWellFormed(fields: seq<Field<Json>>, key: string)
    requires WellFormed(Obj(fields))
    ensures WellFormed(Obj(DropField(fields, key)))
  {
    if fields != [] {
      assert forall i :: 0 <= i < |fields[1..]| ==> fields[1..][i] == fields[i + 1];
      DropWellFormed(fields[1..], key);
      var rest := DropField(fields[1..], key);
      if fields[0].key == key { assert DropField(fields, key) == rest; }
      else {
        forall j | 0 <= j < |rest| ensures rest[j].key != fields[0].key {
          assert rest[j] in rest;
          DropMember(fields[1..], key, rest[j]);
          var k :| 0 <= k < |fields[1..]| && fields[1..][k] == rest[j];
        }
      }
    }
  }

  lemma {:induction false} SetKeys(fields: seq<Field<Json>>, key: string, value: Json, k: string)
    ensures HasKey(SetField(fields, key, value), k) ==> k == key || HasKey(fields, k)
  {
    var r := SetField(fields, key, value);
    if fields != [] && HasKey(r, k) {
      var i :| 0 <= i < |r| && r[i].key == k;
      if fields[0].key == key {
        if i > 0 { assert fields[i].key == k; }
      } else if i > 0 {
        var rest := SetField(fields[1..], key, value);
        assert rest[i - 1].key == k;
        SetKeys(fields[1..], key, value, k);
        if k != key {
          var j :| 0 <= j < |fields[1..]| && fields[1..][j].key == k;
          assert fields[j + 1].key == k;
        }
      } else { assert fields[0].key == k; }
    }
  }

  lemma {:induction false} SetWellFormed(fields: seq<Field<Json>>, key: string, value: Json)
    requires WellFormed(Obj(fields)) && WellFormed(value)
    ensures WellFormed(Obj(SetField(fields, key, value)))
  {
    if fields != [] && fields[0].key != key {
      assert forall i :: 0 <= i < |fields[1..]| ==> fields[1..][i] == fields[i + 1];
      SetWellFormed(fields[1..], key, value);
      var rest := SetField(fields[1..], key, value);
      forall j | 0 <= j < |rest| ensures rest[j].key != fields[0].key {
        assert HasKey(rest, rest[j].key);
        SetKeys(fields[1..], key, value, rest[j].key);
      }
    }
  }

  // ---------- row by row ----------

  lemma DropSame(a: Json, b: Json, key: string)
    requires a.Obj? && b.Obj?
    ensures Same(Drop(a, key), Drop(b, key)) <==> SameExcept(a, b, {key})
  {
    var x, y := Drop(a, key), Drop(b, key);
    forall k ensures SameAt(x, y, k) <==> (k == key || SameAt(a, b, k)) {
      DropLookup(a.fields, key, k);
      DropLookup(b.fields, key, k);
    }
    assert Same(x, y) <==> SameFields(x, y);
  }

  lemma DropEachSame(a: Json, b: Json, key: string)
    requires Rows(a) && Rows(b)
    ensures Same(DropEach(a, key), DropEach(b, key)) <==> SameRows(a, b, {key})
  {
    var x, y := DropEach(a, key), DropEach(b, key);
    if |a.items| == |b.items| {
      forall i | 0 <= i < |a.items| ensures Same(x.items[i], y.items[i]) <==> SameExcept(a.items[i], b.items[i], {key}) {
        DropSame(a.items[i], b.items[i], key);
      }
    }
  }

  lemma DropEachWellFormed(rows: Json, key: string)
    requires Rows(rows) && WellFormed(rows)
    ensures WellFormed(DropEach(rows, key))
  {
    var r := DropEach(rows, key);
    forall i | 0 <= i < |r.items| ensures WellFormed(r.items[i]) {
      assert WellFormed(rows.items[i]);
      DropWellFormed(rows.items[i].fields, key);
    }
  }

  lemma StripLookup(c: Json, k: string)
    requires CharacterShape(c)
    ensures Lookup(StripCharacter(c).fields, k)
         == if k == "assets" then DropEach(Lookup(c.fields, "assets"), "mediaId")
            else if k == "sourceId" then Undefined else Lookup(c.fields, k)
  {
    SetLookup(Drop(c, "sourceId").fields, "assets", DropEach(Lookup(c.fields, "assets"), "mediaId"), k);
    DropLookup(c.fields, "sourceId", k);
  }

  lemma StripSame(a: Json, b: Json)
    requires CharacterShape(a) && CharacterShape(b)
    ensures Same(StripCharacter(a), StripCharacter(b)) <==> SameCharacter(a, b)
  {
    var x, y := StripCharacter(a), StripCharacter(b);
    DropEachSame(Lookup(a.fields, "assets"), Lookup(b.fields, "assets"), "mediaId");
    forall k ensures SameAt(x, y, k) <==>
      if k == "assets" then SameRows(Lookup(a.fields, "assets"), Lookup(b.fields, "assets"), {"mediaId"})
      else k == "sourceId" || SameAt(a, b, k)
    {
      StripLookup(a, k);
      StripLookup(b, k);
    }
    assert Same(x, y) <==> SameFields(x, y);
    if SameFields(x, y) { assert SameAt(x, y, "assets"); }
  }

  lemma StripWellFormed(c: Json)
    requires CharacterShape(c) && WellFormed(c)
    ensures WellFormed(StripCharacter(c))
  {
    LookupWellFormed(c, "assets");
    DropEachWellFormed(Lookup(c.fields, "assets"), "mediaId");
    DropWellFormed(c.fields, "sourceId");
    SetWellFormed(Drop(c, "sourceId").fields, "assets", DropEach(Lookup(c.fields, "assets"), "mediaId"));
  }

  lemma DetachedWellFormed(p: Json)
    requires StudioShape(p)
    ensures WellFormed(Detached(p))
  {
    LookupWellFormed(p, "characters");
    LookupWellFormed(p, "lorebooks");
    var rows := Lookup(p.fields, "characters").items;
    var stripped := StripCharacters(p);
    forall i | 0 <= i < |rows| ensures WellFormed(stripped.items[i]) {
      assert WellFormed(rows[i]) && CharacterShape(rows[i]);
      StripWellFormed(rows[i]);
    }
    DropEachWellFormed(Lookup(p.fields, "lorebooks"), "sourceId");
    SetWellFormed(p.fields, "characters", stripped);
    SetWellFormed(Set(p, "characters", stripped).fields, "lorebooks", DropEach(Lookup(p.fields, "lorebooks"), "sourceId"));
  }

  lemma DetachedLookup(p: Json, k: string)
    requires StudioShape(p)
    ensures Lookup(Detached(p).fields, k)
         == if k == "lorebooks" then DropEach(Lookup(p.fields, "lorebooks"), "sourceId")
            else if k == "characters" then StripCharacters(p) else Lookup(p.fields, k)
  {
    SetLookup(Set(p, "characters", StripCharacters(p)).fields, "lorebooks", DropEach(Lookup(p.fields, "lorebooks"), "sourceId"), k);
    SetLookup(p.fields, "characters", StripCharacters(p), k);
  }

  lemma StripCharactersSame(a: Json, b: Json)
    requires StudioShape(a) && StudioShape(b)
    ensures Same(StripCharacters(a), StripCharacters(b)) <==> SameCharacters(a, b)
  {
    var x, y := Lookup(a.fields, "characters").items, Lookup(b.fields, "characters").items;
    var u, v := StripCharacters(a), StripCharacters(b);
    if |x| == |y| {
      forall i | 0 <= i < |x| ensures Same(u.items[i], v.items[i]) <==> SameCharacter(x[i], y[i]) {
        StripSame(x[i], y[i]);
      }
    }
  }

  lemma DetachedSame(a: Json, b: Json)
    requires StudioShape(a) && StudioShape(b)
    ensures Same(Detached(a), Detached(b)) <==> SameProject(a, b)
  {
    var x, y := Detached(a), Detached(b);
    StripCharactersSame(a, b);
    DropEachSame(Lookup(a.fields, "lorebooks"), Lookup(b.fields, "lorebooks"), "sourceId");
    forall k ensures SameAt(x, y, k) <==>
      if k == "lorebooks" then SameRows(Lookup(a.fields, "lorebooks"), Lookup(b.fields, "lorebooks"), {"sourceId"})
      else if k == "characters" then SameCharacters(a, b) else SameAt(a, b, k)
    {
      DetachedLookup(a, k);
      DetachedLookup(b, k);
    }
    assert Same(x, y) <==> SameFields(x, y);
    if SameFields(x, y) {
      assert SameAt(x, y, "lorebooks") && SameAt(x, y, "characters");
      forall k | k !in {"characters", "lorebooks"} ensures SameAt(a, b, k) { assert SameAt(x, y, k); }
    }
    if SameProject(a, b) {
      forall k ensures SameAt(x, y, k) { assert k !in {"characters", "lorebooks"} ==> SameAt(a, b, k); }
      assert SameFields(x, y);
    }
  }

  /**
    The client calls two projects the same exactly when they agree on everything but the source
    references of characters and lore and the media references of assets.
   */
  lemma SameStudioProjectIff(a: Json, b: Json, less: Order)
    requires StrictTotal(less) && StudioShape(a) && StudioShape(b)
    ensures Serialized(a, less) == Serialized(b, less) <==> SameProject(a, b)
  {
    DetachedWellFormed(a);
    DetachedWellFormed(b);
    CanonicalIffSame(Detached(a), Detached(b), less);
    DetachedSame(a, b);
  }
}
