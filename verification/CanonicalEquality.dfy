/**
  Two values have one canonical text exactly when they are the same value.

  The proof goes through a normal form: fields sorted by key, undefined fields dropped,
  undefined items null. The canonical text is the plain text of the normal form; plain text
  can be read back from the front, whatever follows it, so equal texts come from equal normal
  forms; and normal forms agree exactly on values that are the same up to the order of keys
  and undefined fields.
 */
module CanonicalEquality {
  import opened CanonicalJson

  // ---------- a value's normal form: sorted defined fields, no undefined ----------

  function Normal(v: Json, less: Order): (r: Json)
    ensures r != Undefined
    decreases v
  {
    match v
    case Undefined => Null
    case Arr(items) => Arr(NormalItems(items, less))
    case Obj(fields) => Obj(Sorted(NormalFields(fields, less), less))
    case _ => v
  }

  function NormalItems(items: seq<Json>, less: Order): (r: seq<Json>)
    ensures |r| == |items| && forall i :: 0 <= i < |items| ==> r[i] == Normal(items[i], less)
    decreases items
  {
    if items == [] then [] else [Normal(items[0], less)] + NormalItems(items[1..], less)
  }

  function NormalFields(fields: seq<Field<Json>>, less: Order): seq<Field<Json>>
    decreases fields
  {
    if fields == [] then []
    else
      (if fields[0].value.Undefined? then [] else [Field(fields[0].key, Normal(fields[0].value, less))])
      + NormalFields(fields[1..], less)
  }

  // ---------- the text of a normal form, followed by more text ----------

  function EmitEscaped(s: string, rest: string): string {
    if s == "" then rest else Escape(s[0]) + EmitEscaped(s[1..], rest)
  }

  function EmitQuoted(s: string, rest: string): string {
    ['"'] + EmitEscaped(s, ['"'] + rest)
  }

  function Emit(v: Json, rest: string): string
    decreases v
  {
    match v
    case Null => "null" + rest
    case Undefined => "null" + rest
    case Bool(b) => (if b then "true" else "false") + rest
    case Number(token) => token + rest
    case Str(text) => EmitQuoted(text, rest)
    case Arr(items) => ['['] + EmitItems(items, [']'] + rest)
    case Obj(fields) => ['{'] + EmitFields(fields, ['}'] + rest)
  }

  function EmitItems(items: seq<Json>, rest: string): string
    decreases items
  {
    if items == [] then rest
    else Emit(items[0], if |items| == 1 then rest else [','] + EmitItems(items[1..], rest))
  }

  function EmitFields(fields: seq<Field<Json>>, rest: string): string
    decreases fields
  {
    if fields == [] then rest
    else
      EmitQuoted(fields[0].key, [':'] + Emit(fields[0].value, if |fields| == 1 then rest else [','] + EmitFields(fields[1..], rest)))
  }

  // ---------- the canonical text is the text of the normal form ----------

  lemma {:induction false} EscapedAppends(s: string, u: string, w: string)
    ensures EmitEscaped(s, u) + w == EmitEscaped(s, u + w)
  {
    if s != "" { EscapedAppends(s[1..], u, w); }
  }

  lemma QuotedAppends(s: string, u: string, w: string)
    ensures EmitQuoted(s, u) + w == EmitQuoted(s, u + w)
  {
    EscapedAppends(s, ['"'] + u, w);
    assert ['"'] + u + w == ['"'] + (u + w);
  }

  lemma {:induction false} QuotedEmits(s: string, rest: string)
    ensures Quoted(s) + rest == EmitQuoted(s, rest)
  {
    EscapedEmits(s);
    EscapedAppends(s, "", ['"'] + rest);
    assert Escaped(s) + (['"'] + rest) == EmitEscaped(s, ['"'] + rest) by { assert "" + (['"'] + rest) == ['"'] + rest; }
    assert Quoted(s) + rest == ['"'] + (Escaped(s) + (['"'] + rest));
  }

  lemma {:induction false} EscapedEmits(s: string)
    ensures Escaped(s) == EmitEscaped(s, "")
  {
    if s != "" { EscapedEmits(s[1..]); }
  }

  lemma ThreeParts(a: string, b: string, c: string)
    ensures a + b + c == a + (b + c)
  {}

  lemma {:induction false} EmitAppends(v: Json, u: string, w: string)
    ensures Emit(v, u) + w == Emit(v, u + w)
    decreases v
  {
    match v
    case Str(text) => QuotedAppends(text, u, w);
    case Arr(items) =>
      ItemsAppend(items, [']'] + u, w);
      ThreeParts([']'], u, w);
      ThreeParts(['['], EmitItems(items, [']'] + u), w);
    case Obj(fields) =>
      FieldsAppend(fields, ['}'] + u, w);
      ThreeParts(['}'], u, w);
      ThreeParts(['{'], EmitFields(fields, ['}'] + u), w);
    case _ =>
  }

  lemma {:induction false} ItemsAppend(items: seq<Json>, u: string, w: string)
    ensures EmitItems(items, u) + w == EmitItems(items, u + w)
    decreases items
  {
    if items != [] {
      EmitAppends(items[0], if |items| == 1 then u else [','] + EmitItems(items[1..], u), w);
      ItemsAppend(items[1..], u, w);
      assert [','] + EmitItems(items[1..], u) + w == [','] + EmitItems(items[1..], u + w);
    }
  }

  lemma {:induction false} FieldsAppend(fields: seq<Field<Json>>, u: string, w: string)
    ensures EmitFields(fields, u) + w == EmitFields(fields, u + w)
    decreases fields
  {
    if fields != [] {
      var rest := if |fields| == 1 then u else [','] + EmitFields(fields[1..], u);
      EmitAppends(fields[0].value, rest, w);
      FieldsAppend(fields[1..], u, w);
      assert [','] + EmitFields(fields[1..], u) + w == [','] + EmitFields(fields[1..], u + w);
      QuotedAppends(fields[0].key, [':'] + Emit(fields[0].value, rest), w);
      assert [':'] + Emit(fields[0].value, rest) + w == [':'] + Emit(fields[0].value, rest + w);
    }
  }

  /** The printed form of each field. */
  function Texts(fields: seq<Field<Json>>): (r: seq<Field<string>>)
    ensures |r| == |fields|
  {
    if fields == [] then [] else [Field(fields[0].key, Emit(fields[0].value, ""))] + Texts(fields[1..])
  }

  lemma {:induction false} InsertTexts(f: Field<Json>, sorted: seq<Field<Json>>, less: Order)
    ensures Insert(Field(f.key, Emit(f.value, "")), Texts(sorted), less) == Texts(Insert(f, sorted, less))
  {
    if sorted == [] || less(f.key, sorted[0].key) {
      assert ([f] + sorted)[1..] == sorted;
    } else {
      InsertTexts(f, sorted[1..], less);
      assert ([sorted[0]] + Insert(f, sorted[1..], less))[1..] == Insert(f, sorted[1..], less);
      assert Texts(sorted)[1..] == Texts(sorted[1..]);
    }
  }

  /** Sorting by keys and printing the values commute. */
  lemma {:induction false} SortedTexts(fields: seq<Field<Json>>, less: Order)
    ensures Sorted(Texts(fields), less) == Texts(Sorted(fields, less))
  {
    if fields != [] {
      SortedTexts(fields[1..], less);
      InsertTexts(fields[0], Sorted(fields[1..], less), less);
      assert Texts(fields)[1..] == Texts(fields[1..]);
    }
  }

  lemma Regrouped(q: string, text: string, tail: string)
    ensures q + ":" + text + tail == q + ([':'] + (text + tail))
  {}

  lemma PairEmits(f: Field<Json>, tail: string)
    ensures Quoted(f.key) + ":" + Emit(f.value, "") + tail == EmitQuoted(f.key, [':'] + Emit(f.value, tail))
  {
    Regrouped(Quoted(f.key), Emit(f.value, ""), tail);
    EmitAppends(f.value, "", tail);
    assert "" + tail == tail;
    QuotedEmits(f.key, [':'] + Emit(f.value, tail));
  }

  lemma JoinedCons(parts: seq<string>, rest: string)
    requires parts != []
    ensures Joined(parts) + rest == parts[0] + if |parts| == 1 then rest else [','] + (Joined(parts[1..]) + rest)
  {
    if |parts| > 1 {
      var tail := Joined(parts[1..]);
      assert Joined(parts) == parts[0] + "," + tail;
      FourParts(parts[0], ",", tail, rest);
    }
  }

  lemma FourParts(a: string, b: string, c: string, d: string)
    ensures a + b + c + d == a + (b + (c + d))
  {}

  lemma {:induction false} PairsEmit(fields: seq<Field<Json>>, rest: string)
    ensures Joined(Pairs(Texts(fields))) + rest == EmitFields(fields, rest)
  {
    if fields == [] {
      assert Joined(Pairs(Texts(fields))) + rest == rest;
    } else {
      PairsEmit(fields[1..], rest);
      var parts := Pairs(Texts(fields));
      PairsLength(Texts(fields));
      JoinedCons(parts, rest);
      PairsTail(fields);
      PairEmits(fields[0], if |fields| == 1 then rest else [','] + EmitFields(fields[1..], rest));
    }
  }

  lemma PairsTail(fields: seq<Field<Json>>)
    requires fields != []
    ensures Pairs(Texts(fields)) == [Quoted(fields[0].key) + ":" + Emit(fields[0].value, "")] + Pairs(Texts(fields[1..]))
  {
    assert Texts(fields)[1..] == Texts(fields[1..]);
  }

  lemma {:induction false} PairsLength(fields: seq<Field<string>>)
    ensures |Pairs(fields)| == |fields|
  {
    if fields != [] { PairsLength(fields[1..]); }
  }

  lemma {:induction false} ItemsLength(items: seq<Json>, less: Order)
    ensures |CanonicalItems(items, less)| == |items|
    decreases items
  {
    if items != [] { ItemsLength(items[1..], less); }
  }

  lemma {:induction false} CanonicalEmits(v: Json, less: Order, rest: string)
    ensures Canonical(v, less) + rest == Emit(Normal(v, less), rest)
    decreases v, 1
  {
    match v
    case Str(text) => QuotedEmits(text, rest);
    case Arr(items) => CanonicalArrEmits(v, less, rest);
    case Obj(fields) => CanonicalObjEmits(v, less, rest);
    case _ =>
  }

  lemma {:induction false} CanonicalArrEmits(v: Json, less: Order, rest: string)
    requires v.Arr?
    ensures Canonical(v, less) + rest == Emit(Normal(v, less), rest)
    decreases v, 0
  {
    CanonicalItemsEmit(v.items, less, [']'] + rest);
    var inner := Joined(CanonicalItems(v.items, less));
    assert "[" + inner + "]" + rest == ['['] + (inner + ([']'] + rest));
  }

  lemma {:induction false} CanonicalObjEmits(v: Json, less: Order, rest: string)
    requires v.Obj?
    ensures Canonical(v, less) + rest == Emit(Normal(v, less), rest)
    decreases v, 0
  {
    CanonicalFieldsAre(v.fields, less);
    SortedTexts(NormalFields(v.fields, less), less);
    var sorted := Sorted(NormalFields(v.fields, less), less);
    PairsEmit(sorted, ['}'] + rest);
    var inner := Joined(Pairs(Texts(sorted)));
    assert "{" + inner + "}" + rest == ['{'] + (inner + (['}'] + rest));
  }

  lemma {:induction false} CanonicalItemsEmit(items: seq<Json>, less: Order, rest: string)
    ensures Joined(CanonicalItems(items, less)) + rest == EmitItems(NormalItems(items, less), rest)
    decreases items, 2
  {
    var parts, normal := CanonicalItems(items, less), NormalItems(items, less);
    if items == [] {
      assert Joined(parts) + rest == rest;
    } else {
      ItemsLength(items, less);
      assert normal[1..] == NormalItems(items[1..], less) && parts[1..] == CanonicalItems(items[1..], less);
      CanonicalItemsEmit(items[1..], less, rest);
      CanonicalEmits(items[0], less, if |items| == 1 then rest else [','] + EmitItems(normal[1..], rest));
      JoinedCons(parts, rest);
    }
  }

  lemma {:induction false} CanonicalFieldsAre(fields: seq<Field<Json>>, less: Order)
    ensures CanonicalFields(fields, less) == Texts(NormalFields(fields, less))
    decreases fields, 2
  {
    if fields != [] {
      CanonicalFieldsAre(fields[1..], less);
      if fields[0].value.Undefined? {
        assert CanonicalFields(fields, less) == CanonicalFields(fields[1..], less);
        assert NormalFields(fields, less) == NormalFields(fields[1..], less);
      } else {
        CanonicalEmits(fields[0].value, less, "");
        assert Canonical(fields[0].value, less) + "" == Canonical(fields[0].value, less);
        assert NormalFields(fields, less)[1..] == NormalFields(fields[1..], less);
      }
    }
  }

  // ---------- a text determines its normal form ----------

  /** What may follow a printed value. */
  ghost predicate Ended(rest: string) {
    rest == "" || Closing(rest[0])
  }

  predicate Closing(c: char) {
    c == ',' || c == ']' || c == '}'
  }

  ghost predicate Clean(v: Json) {
    match v
    case Undefined => false
    case Number(token) => NumberToken(token) && NumberStart(token[0])
    case Arr(items) => forall i :: 0 <= i < |items| ==> Clean(items[i])
    case Obj(fields) => forall i :: 0 <= i < |fields| ==> Clean(fields[i].value)
    case _ => true
  }

  ghost predicate CleanItems(items: seq<Json>) {
    forall i :: 0 <= i < |items| ==> Clean(items[i])
  }

  ghost predicate CleanFields(fields: seq<Field<Json>>) {
    forall i :: 0 <= i < |fields| ==> Clean(fields[i].value)
  }

  lemma HexDiffers(a: nat, b: nat)
    requires a < 16 && b < 16 && Hex(a) == Hex(b)
    ensures a == b
  {
    var digits := "0123456789abcdef";
    assert forall i, j :: 0 <= i < j < 16 ==> digits[i] != digits[j];
  }

  /** An escaped character is read back alone, and is never the closing quote. */
  lemma EscapePrefix(c: char, d: char, u: string, v: string)
    requires Escape(c) + u == Escape(d) + v
    ensures c == d && u == v
  {
    var e, f := Escape(c), Escape(d);
    assert (e + u)[0] == (f + v)[0] && e[0] == f[0];
    if |e| > 1 && |f| > 1 {
      assert (e + u)[1] == (f + v)[1] && e[1] == f[1];
      if |e| == 6 && |f| == 6 {
        assert (e + u)[4] == (f + v)[4] && (e + u)[5] == (f + v)[5];
        HexDiffers(c as int / 16, d as int / 16);
        HexDiffers(c as int % 16, d as int % 16);
      }
    }
    assert c == d;
    assert u == (e + u)[|e|..] && v == (f + v)[|f|..];
  }

  lemma EscapedOpens(s: string, rest: string)
    requires s != ""
    ensures EmitEscaped(s, rest) != "" && EmitEscaped(s, rest)[0] != '"'
  {
    assert Escape(s[0]) != "" && Escape(s[0])[0] != '"';
  }

  lemma {:induction false} EscapedPrefix(s: string, t: string, u: string, v: string)
    requires EmitEscaped(s, ['"'] + u) == EmitEscaped(t, ['"'] + v)
    ensures s == t && u == v
  {
    if s == "" && t == "" {
      assert u == (['"'] + u)[1..] && v == (['"'] + v)[1..];
    } else if s != "" && t != "" {
      EscapePrefix(s[0], t[0], EmitEscaped(s[1..], ['"'] + u), EmitEscaped(t[1..], ['"'] + v));
      EscapedPrefix(s[1..], t[1..], u, v);
      assert s == [s[0]] + s[1..] && t == [t[0]] + t[1..];
    } else {
      if s == "" { EscapedOpens(t, ['"'] + v); } else { EscapedOpens(s, ['"'] + u); }
      assert false;
    }
  }

  lemma QuotedPrefix(s: string, t: string, u: string, v: string)
    requires EmitQuoted(s, u) == EmitQuoted(t, v)
    ensures s == t && u == v
  {
    assert EmitEscaped(s, ['"'] + u) == EmitQuoted(s, u)[1..];
    assert EmitEscaped(t, ['"'] + v) == EmitQuoted(t, v)[1..];
    EscapedPrefix(s, t, u, v);
  }

  lemma TokenPrefix(s: string, t: string, u: string, v: string)
    requires NumberToken(s) && NumberToken(t) && Ended(u) && Ended(v) && s + u == t + v
    ensures s == t && u == v
  {
    Overlap(s, t, u, v);
    Overlap(t, s, v, u);
    assert |s| == |t|;
    assert s == (s + u)[..|s|] && t == (t + v)[..|s|];
    assert u == (s + u)[|s|..] && v == (t + v)[|s|..];
  }

  lemma Overlap(s: string, t: string, u: string, v: string)
    requires NumberToken(t) && s + u == t + v
    ensures |s| < |t| ==> u != "" && NumberChar(u[0])
  {
    if |s| < |t| {
      assert (s + u)[|s|] == (t + v)[|s|];
      assert NumberChar(t[|s|]);
    }
  }

  datatype Kind = KNull | KTrue | KFalse | KNumber | KText | KArr | KObj

  function KindOf(v: Json): Kind {
    match v
    case Null => KNull
    case Undefined => KNull
    case Bool(b) => if b then KTrue else KFalse
    case Number(_) => KNumber
    case Str(_) => KText
    case Arr(_) => KArr
    case Obj(_) => KObj
  }

  function KindByChar(c: char): Kind {
    if c == 'n' then KNull else if c == 't' then KTrue else if c == 'f' then KFalse
    else if c == '"' then KText else if c == '[' then KArr else if c == '{' then KObj else KNumber
  }

  /** The first character tells the kind, and it never closes a list. */
  lemma EmitOpens(v: Json, rest: string)
    requires Clean(v)
    ensures Emit(v, rest) != "" && KindByChar(Emit(v, rest)[0]) == KindOf(v) && !Closing(Emit(v, rest)[0])
  {
    match v
    case Number(token) => assert Emit(v, rest)[0] == token[0];
    case Bool(b) => assert Emit(v, rest)[0] == if b then 't' else 'f';
    case Null => assert Emit(v, rest)[0] == 'n';
    case Str(text) => assert Emit(v, rest)[0] == '"';
    case Arr(items) => assert Emit(v, rest)[0] == '[';
    case Obj(fields) => assert Emit(v, rest)[0] == '{';
  }

  lemma {:induction false} EmitPrefix(x: Json, y: Json, u: string, v: string)
    requires Clean(x) && Clean(y) && Ended(u) && Ended(v) && Emit(x, u) == Emit(y, v)
    ensures x == y && u == v
    decreases x, 1
  {
    EmitOpens(x, u);
    EmitOpens(y, v);
    assert KindOf(x) == KindOf(y);
    match x
    case Number(token) => TokenPrefix(token, y.token, u, v);
    case Str(text) => QuotedPrefix(text, y.text, u, v);
    case Arr(items) => ArrPrefix(x, y, u, v);
    case Obj(fields) => ObjPrefix(x, y, u, v);
    case _ => WordPrefix(x, y, u, v);
  }

  lemma WordPrefix(x: Json, y: Json, u: string, v: string)
    requires (x.Null? || x.Bool?) && KindOf(x) == KindOf(y) && Clean(y) && Emit(x, u) == Emit(y, v)
    ensures x == y && u == v
  {
    assert x == y;
    var n := if x.Bool? && !x.value then 5 else 4;
    assert u == Emit(x, u)[n..] && v == Emit(y, v)[n..];
  }

  lemma {:induction false} ArrPrefix(x: Json, y: Json, u: string, v: string)
    requires x.Arr? && y.Arr? && Clean(x) && Clean(y) && Ended(u) && Ended(v) && Emit(x, u) == Emit(y, v)
    ensures x == y && u == v
    decreases x, 0
  {
    assert EmitItems(x.items, [']'] + u) == Emit(x, u)[1..] && EmitItems(y.items, [']'] + v) == Emit(y, v)[1..];
    ItemsPrefix(x.items, y.items, u, v);
  }

  lemma {:induction false} ObjPrefix(x: Json, y: Json, u: string, v: string)
    requires x.Obj? && y.Obj? && Clean(x) && Clean(y) && Ended(u) && Ended(v) && Emit(x, u) == Emit(y, v)
    ensures x == y && u == v
    decreases x, 0
  {
    assert EmitFields(x.fields, ['}'] + u) == Emit(x, u)[1..] && EmitFields(y.fields, ['}'] + v) == Emit(y, v)[1..];
    FieldsPrefix(x.fields, y.fields, u, v);
  }

  function ItemsTail(items: seq<Json>, rest: string): string
    requires items != []
  {
    if |items| == 1 then [']'] + rest else [','] + EmitItems(items[1..], [']'] + rest)
  }

  lemma {:induction false} ItemsPrefix(xs: seq<Json>, ys: seq<Json>, u: string, v: string)
    requires CleanItems(xs) && CleanItems(ys) && Ended(u) && Ended(v)
    requires EmitItems(xs, [']'] + u) == EmitItems(ys, [']'] + v)
    ensures xs == ys && u == v
    decreases xs, 2
  {
    if xs == [] && ys == [] {
      assert u == ([']'] + u)[1..] && v == ([']'] + v)[1..];
    } else if xs != [] && ys != [] {
      EmitPrefix(xs[0], ys[0], ItemsTail(xs, u), ItemsTail(ys, v));
      assert ItemsTail(xs, u)[0] == ItemsTail(ys, v)[0];
      assert ItemsTail(xs, u)[1..] == ItemsTail(ys, v)[1..];
      if |xs| > 1 {
        assert |ys| > 1;
        assert EmitItems(xs[1..], [']'] + u) == ItemsTail(xs, u)[1..] && EmitItems(ys[1..], [']'] + v) == ItemsTail(ys, v)[1..];
        ItemsPrefix(xs[1..], ys[1..], u, v);
      } else {
        assert u == ItemsTail(xs, u)[1..] && v == ItemsTail(ys, v)[1..];
      }
      assert xs == [xs[0]] + xs[1..] && ys == [ys[0]] + ys[1..];
    } else if xs == [] {
      EmitOpens(ys[0], ItemsTail(ys, v));
      assert false;
    } else {
      EmitOpens(xs[0], ItemsTail(xs, u));
      assert false;
    }
  }

  function FieldsTail(fields: seq<Field<Json>>, rest: string): string
    requires fields != []
  {
    if |fields| == 1 then ['}'] + rest else [','] + EmitFields(fields[1..], ['}'] + rest)
  }

  lemma {:induction false} FieldsPrefix(xs: seq<Field<Json>>, ys: seq<Field<Json>>, u: string, v: string)
    requires CleanFields(xs) && CleanFields(ys) && Ended(u) && Ended(v)
    requires EmitFields(xs, ['}'] + u) == EmitFields(ys, ['}'] + v)
    ensures xs == ys && u == v
    decreases xs, 2
  {
    if xs == [] && ys == [] {
      assert u == (['}'] + u)[1..] && v == (['}'] + v)[1..];
    } else if xs != [] && ys != [] {
      FirstFieldPrefix(xs, ys, u, v);
      TailsAgree(xs, ys, u, v);
      if |xs| > 1 { FieldsPrefix(xs[1..], ys[1..], u, v); }
      assert xs == [xs[0]] + xs[1..] && ys == [ys[0]] + ys[1..];
    } else {
      if xs == [] { FieldsOpen(ys, ['}'] + v, u); } else { FieldsOpen(xs, ['}'] + u, v); }
      assert false;
    }
  }

  lemma FieldsOpen(fields: seq<Field<Json>>, rest: string, w: string)
    requires fields != []
    ensures EmitFields(fields, rest) != ['}'] + w
  {
    assert EmitFields(fields, rest)[0] == '"' && (['}'] + w)[0] == '}';
  }

  lemma TailsAgree(xs: seq<Field<Json>>, ys: seq<Field<Json>>, u: string, v: string)
    requires xs != [] && ys != [] && FieldsTail(xs, u) == FieldsTail(ys, v)
    ensures |xs| > 1 <==> |ys| > 1
    ensures if |xs| > 1 then EmitFields(xs[1..], ['}'] + u) == EmitFields(ys[1..], ['}'] + v) else u == v
  {
    assert FieldsTail(xs, u)[0] == FieldsTail(ys, v)[0] && FieldsTail(xs, u)[1..] == FieldsTail(ys, v)[1..];
    if |xs| > 1 {
      assert EmitFields(xs[1..], ['}'] + u) == FieldsTail(xs, u)[1..] && EmitFields(ys[1..], ['}'] + v) == FieldsTail(ys, v)[1..];
    } else {
      assert u == FieldsTail(xs, u)[1..] && v == FieldsTail(ys, v)[1..];
    }
  }

  lemma {:induction false} FirstFieldPrefix(xs: seq<Field<Json>>, ys: seq<Field<Json>>, u: string, v: string)
    requires xs != [] && ys != []
    requires CleanFields(xs) && CleanFields(ys) && Ended(u) && Ended(v)
    requires EmitFields(xs, ['}'] + u) == EmitFields(ys, ['}'] + v)
    ensures xs[0] == ys[0] && FieldsTail(xs, u) == FieldsTail(ys, v)
    decreases xs, 1
  {
    var a, b := [':'] + Emit(xs[0].value, FieldsTail(xs, u)), [':'] + Emit(ys[0].value, FieldsTail(ys, v));
    QuotedPrefix(xs[0].key, ys[0].key, a, b);
    assert Emit(xs[0].value, FieldsTail(xs, u)) == a[1..] && Emit(ys[0].value, FieldsTail(ys, v)) == b[1..];
    EmitPrefix(xs[0].value, ys[0].value, FieldsTail(xs, u), FieldsTail(ys, v));
  }

  // ---------- normal forms agree exactly on the same values ----------

  ghost predicate StrictlySorted<T>(fields: seq<Field<T>>, less: Order) {
    forall i, j :: 0 <= i < j < |fields| ==> less(fields[i].key, fields[j].key)
  }

  ghost predicate HasKey<T>(fields: seq<Field<T>>, key: string) {
    exists i :: 0 <= i < |fields| && fields[i].key == key
  }

  lemma {:induction false} InsertMember<T>(f: Field<T>, sorted: seq<Field<T>>, less: Order, x: Field<T>)
    ensures x in Insert(f, sorted, less) <==> x == f || x in sorted
  {
    if sorted == [] || less(f.key, sorted[0].key) {
    } else {
      InsertMember(f, sorted[1..], less, x);
      assert sorted == [sorted[0]] + sorted[1..];
    }
  }

  lemma {:induction false} InsertSorted<T>(f: Field<T>, sorted: seq<Field<T>>, less: Order)
    requires StrictTotal(less) && StrictlySorted(sorted, less) && !HasKey(sorted, f.key)
    ensures StrictlySorted(Insert(f, sorted, less), less)
  {
    var r := Insert(f, sorted, less);
    if sorted == [] {
    } else if less(f.key, sorted[0].key) {
      forall i, j | 0 <= i < j < |r| ensures less(r[i].key, r[j].key) {
        if i == 0 && j > 1 { assert less(sorted[0].key, sorted[j - 1].key); }
      }
    } else {
      assert sorted[0].key != f.key;
      forall i | 0 <= i < |sorted[1..]| ensures sorted[1..][i].key != f.key { assert sorted[1..][i] == sorted[i + 1]; }
      InsertSorted(f, sorted[1..], less);
      forall j | 0 < j < |r| ensures less(sorted[0].key, r[j].key) {
        var tail := Insert(f, sorted[1..], less);
        assert r[j] == tail[j - 1] && tail[j - 1] in tail;
        InsertMember(f, sorted[1..], less, tail[j - 1]);
        if tail[j - 1] != f {
          var k :| 0 <= k < |sorted[1..]| && sorted[1..][k] == tail[j - 1];
          assert less(sorted[0].key, sorted[k + 1].key);
        }
      }
    }
  }

  lemma {:induction false} SortedMember<T>(fields: seq<Field<T>>, less: Order, x: Field<T>)
    ensures x in Sorted(fields, less) <==> x in fields
  {
    if fields != [] {
      SortedMember(fields[1..], less, x);
      InsertMember(fields[0], Sorted(fields[1..], less), less, x);
      assert fields == [fields[0]] + fields[1..];
    }
  }

  lemma {:induction false} SortedIsSorted<T>(fields: seq<Field<T>>, less: Order)
    requires StrictTotal(less) && DistinctKeys(fields)
    ensures StrictlySorted(Sorted(fields, less), less)
  {
    if fields != [] {
      SortedIsSorted(fields[1..], less);
      var rest := Sorted(fields[1..], less);
      forall i | 0 <= i < |rest| ensures rest[i].key != fields[0].key {
        assert rest[i] in rest;
        SortedMember(fields[1..], less, rest[i]);
        var k :| 0 <= k < |fields[1..]| && fields[1..][k] == rest[i];
        assert fields[k + 1] == rest[i];
      }
      InsertSorted(fields[0], rest, less);
    }
  }

  lemma SortedDistinct<T>(fields: seq<Field<T>>, less: Order)
    requires StrictTotal(less) && StrictlySorted(fields, less)
    ensures DistinctKeys(fields)
  {}

  lemma {:induction false} LookupAt(fields: seq<Field<Json>>, i: nat)
    requires DistinctKeys(fields) && i < |fields|
    ensures Lookup(fields, fields[i].key) == fields[i].value
  {
    if i > 0 {
      assert fields[1..][i - 1] == fields[i];
      LookupAt(fields[1..], i - 1);
    }
  }

  /** With distinct keys and no undefined values, lookup only depends on which fields there are. */
  lemma LookupByMembers(xs: seq<Field<Json>>, ys: seq<Field<Json>>, key: string)
    requires DistinctKeys(xs) && DistinctKeys(ys) && forall f :: f in xs <==> f in ys
    ensures Lookup(xs, key) == Lookup(ys, key)
  {
    MemberLookup(xs, ys, key);
    MemberLookup(ys, xs, key);
  }

  lemma MemberLookup(xs: seq<Field<Json>>, ys: seq<Field<Json>>, key: string)
    requires DistinctKeys(ys) && forall f :: f in xs ==> f in ys
    ensures Lookup(xs, key) != Undefined ==> Lookup(xs, key) == Lookup(ys, key)
  {
    var r := Lookup(xs, key);
    if r != Undefined {
      var i :| 0 <= i < |xs| && xs[i] == Field(key, r);
      assert xs[i] in xs;
      var k :| 0 <= k < |ys| && ys[k] == xs[i];
      LookupAt(ys, k);
    }
  }

  ghost predicate Defined(fields: seq<Field<Json>>) {
    forall i :: 0 <= i < |fields| ==> fields[i].value != Undefined
  }

  ghost predicate SameLookups(xs: seq<Field<Json>>, ys: seq<Field<Json>>) {
    forall key :: Lookup(xs, key) == Lookup(ys, key)
  }

  lemma HeadIsLeast(xs: seq<Field<Json>>, ys: seq<Field<Json>>, less: Order)
    requires StrictTotal(less) && StrictlySorted(xs, less) && StrictlySorted(ys, less)
    requires Defined(ys) && SameLookups(xs, ys) && ys != []
    ensures xs != [] && !less(ys[0].key, xs[0].key)
  {
    LookupAt(ys, 0);
    assert Lookup(xs, ys[0].key) == Lookup(ys, ys[0].key);
    var i :| 0 <= i < |xs| && xs[i] == Field(ys[0].key, ys[0].value);
    assert i == 0 || less(xs[0].key, xs[i].key);
  }

  lemma LookupAbsent(xs: seq<Field<Json>>, key: string)
    requires !HasKey(xs, key)
    ensures Lookup(xs, key) == Undefined
  {}

  lemma LookupTail(xs: seq<Field<Json>>, less: Order, key: string)
    requires StrictTotal(less) && StrictlySorted(xs, less) && xs != []
    ensures Lookup(xs[1..], key) == if key == xs[0].key then Undefined else Lookup(xs, key)
  {
    if key == xs[0].key { LookupAbsent(xs[1..], key); }
  }

  /** Sorted field lists with the same lookups are the same list. */
  lemma {:induction false} SortedUnique(xs: seq<Field<Json>>, ys: seq<Field<Json>>, less: Order)
    requires StrictTotal(less) && StrictlySorted(xs, less) && StrictlySorted(ys, less)
    requires Defined(xs) && Defined(ys) && SameLookups(xs, ys)
    ensures xs == ys
  {
    if ys != [] { HeadIsLeast(xs, ys, less); }
    if xs != [] {
      HeadIsLeast(ys, xs, less);
      assert xs[0].key == ys[0].key;
      LookupAt(xs, 0);
      LookupAt(ys, 0);
      assert Lookup(xs, xs[0].key) == Lookup(ys, xs[0].key);
      forall key ensures Lookup(xs[1..], key) == Lookup(ys[1..], key) {
        LookupTail(xs, less, key);
        LookupTail(ys, less, key);
        assert Lookup(xs, key) == Lookup(ys, key);
      }
      SortedUnique(xs[1..], ys[1..], less);
      assert xs == [xs[0]] + xs[1..] && ys == [ys[0]] + ys[1..];
    }
  }

  lemma {:induction false} NormalFieldAt(fields: seq<Field<Json>>, less: Order, k: nat) returns (i: nat)
    requires k < |NormalFields(fields, less)|
    ensures i < |fields| && fields[i].value != Undefined
    ensures NormalFields(fields, less)[k] == Field(fields[i].key, Normal(fields[i].value, less))
  {
    var head: nat := if fields[0].value.Undefined? then 0 else 1;
    if k < head { i := 0; }
    else {
      var j := NormalFieldAt(fields[1..], less, k - head);
      i := j + 1;
    }
  }

  lemma {:induction false} NormalFieldsDistinct(fields: seq<Field<Json>>, less: Order)
    requires DistinctKeys(fields)
    ensures DistinctKeys(NormalFields(fields, less)) && Defined(NormalFields(fields, less))
  {
    if fields != [] {
      NormalFieldsDistinct(fields[1..], less);
      var rest := NormalFields(fields[1..], less);
      forall k | 0 <= k < |rest| ensures rest[k].key != fields[0].key {
        var i := NormalFieldAt(fields[1..], less, k);
        assert fields[1..][i] == fields[i + 1];
      }
      if fields[0].value.Undefined? { assert NormalFields(fields, less) == rest; }
    }
  }

  lemma {:induction false} NormalLookup(fields: seq<Field<Json>>, less: Order, key: string)
    requires DistinctKeys(fields)
    ensures Lookup(NormalFields(fields, less), key)
         == if Lookup(fields, key) == Undefined then Undefined else Normal(Lookup(fields, key), less)
  {
    if fields != [] {
      NormalLookup(fields[1..], less, key);
      var rest := NormalFields(fields[1..], less);
      if fields[0].value.Undefined? {
        assert NormalFields(fields, less) == rest;
        if fields[0].key == key { LookupAbsent(fields[1..], key); }
      } else {
        assert NormalFields(fields, less)[1..] == rest;
      }
    }
  }

  /** The sorted normal fields: sorted, defined, and looked up like the originals. */
  lemma SortedNormal(fields: seq<Field<Json>>, less: Order)
    requires StrictTotal(less) && DistinctKeys(fields)
    ensures var sorted := Sorted(NormalFields(fields, less), less);
            && StrictlySorted(sorted, less) && Defined(sorted)
            && forall key :: Lookup(sorted, key)
                          == if Lookup(fields, key) == Undefined then Undefined else Normal(Lookup(fields, key), less)
  {
    var normal := NormalFields(fields, less);
    var sorted := Sorted(normal, less);
    NormalFieldsDistinct(fields, less);
    SortedIsSorted(normal, less);
    forall f ensures f in sorted <==> f in normal { SortedMember(normal, less, f); }
    SortedDistinct(sorted, less);
    forall i | 0 <= i < |sorted| ensures sorted[i].value != Undefined { assert sorted[i] in sorted && sorted[i] in normal; }
    forall key ensures Lookup(sorted, key) == if Lookup(fields, key) == Undefined then Undefined else Normal(Lookup(fields, key), less) {
      LookupByMembers(sorted, normal, key);
      NormalLookup(fields, less, key);
    }
  }

  lemma LookupWellFormed(v: Json, key: string)
    requires v.Obj? && WellFormed(v)
    ensures WellFormed(Lookup(v.fields, key)) && (Lookup(v.fields, key) == Undefined || Lookup(v.fields, key) < v)
  {
    var r := Lookup(v.fields, key);
    if r != Undefined {
      var i :| 0 <= i < |v.fields| && v.fields[i] == Field(key, r);
      assert WellFormed(v.fields[i].value);
    }
  }

  lemma {:induction false} NormalIffSame(a: Json, b: Json, less: Order)
    requires StrictTotal(less) && WellFormed(a) && WellFormed(b)
    ensures Normal(a, less) == Normal(b, less) <==> Same(a, b)
    decreases a, 1
  {
    if a.Arr? && b.Arr? { ArrIffSame(a, b, less); }
    else if a.Obj? && b.Obj? { ObjIffSame(a, b, less); }
  }

  lemma {:induction false} ArrIffSame(a: Json, b: Json, less: Order)
    requires StrictTotal(less) && WellFormed(a) && WellFormed(b) && a.Arr? && b.Arr?
    ensures Normal(a, less) == Normal(b, less) <==> Same(a, b)
    decreases a, 0
  {
    var x, y := NormalItems(a.items, less), NormalItems(b.items, less);
    if |a.items| == |b.items| {
      forall i | 0 <= i < |a.items| ensures x[i] == y[i] <==> Same(a.items[i], b.items[i]) {
        assert WellFormed(a.items[i]) && WellFormed(b.items[i]);
        NormalIffSame(a.items[i], b.items[i], less);
      }
      if Same(a, b) { assert x == y; }
    }
  }

  lemma {:induction false} ObjIffSame(a: Json, b: Json, less: Order)
    requires StrictTotal(less) && WellFormed(a) && WellFormed(b) && a.Obj? && b.Obj?
    ensures Normal(a, less) == Normal(b, less) <==> Same(a, b)
    decreases a, 0
  {
    var x, y := Sorted(NormalFields(a.fields, less), less), Sorted(NormalFields(b.fields, less), less);
    SortedNormal(a.fields, less);
    SortedNormal(b.fields, less);
    forall key ensures Lookup(x, key) == Lookup(y, key) <==> SameAt(a, b, key) {
      LookupWellFormed(a, key);
      LookupWellFormed(b, key);
      if Lookup(a.fields, key) != Undefined { NormalIffSame(Lookup(a.fields, key), Lookup(b.fields, key), less); }
    }
    if Same(a, b) {
      assert SameFields(a, b);
      forall key ensures Lookup(x, key) == Lookup(y, key) { assert SameAt(a, b, key); }
      SortedUnique(x, y, less);
    }
    if x == y {
      forall key ensures SameAt(a, b, key) { assert Lookup(x, key) == Lookup(y, key); }
      assert SameFields(a, b);
    }
  }

  lemma {:induction false} NormalClean(v: Json, less: Order)
    requires WellFormed(v)
    ensures Clean(Normal(v, less))
    decreases v
  {
    match v
    case Arr(items) =>
      forall i | 0 <= i < |items| ensures Clean(Normal(items[i], less)) { NormalClean(items[i], less); }
    case Obj(fields) =>
      var normal := NormalFields(fields, less);
      var sorted := Sorted(normal, less);
      forall k | 0 <= k < |sorted| ensures Clean(sorted[k].value) {
        assert sorted[k] in sorted;
        SortedMember(normal, less, sorted[k]);
        var j :| 0 <= j < |normal| && normal[j] == sorted[k];
        var i := NormalFieldAt(fields, less, j);
        NormalClean(fields[i].value, less);
      }
    case _ =>
  }

  /**
    Two values have the same canonical text exactly when they are the same value up to key order
    and undefined fields.
   */
  lemma CanonicalIffSame(a: Json, b: Json, less: Order)
    requires StrictTotal(less) && WellFormed(a) && WellFormed(b)
    ensures Canonical(a, less) == Canonical(b, less) <==> Same(a, b)
  {
    CanonicalEmits(a, less, "");
    CanonicalEmits(b, less, "");
    assert Canonical(a, less) + "" == Canonical(a, less) && Canonical(b, less) + "" == Canonical(b, less);
    NormalClean(a, less);
    NormalClean(b, less);
    if Canonical(a, less) == Canonical(b, less) { EmitPrefix(Normal(a, less), Normal(b, less), "", ""); }
    NormalIffSame(a, b, less);
  }
}
