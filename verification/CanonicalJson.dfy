/**
  JSON values as the browser holds them, and the canonical text the studio client compares.
  Keys are sorted by `less`, any strict total order.
 */
module CanonicalJson {
  datatype Json =
    | Null
    | Undefined
    | Bool(value: bool)
    | Number(token: string)
    | Str(text: string)
    | Arr(items: seq<Json>)
    | Obj(fields: seq<Field<Json>>)

  /** A named property; also a named piece of text, while an object is being printed. */
  datatype Field<+T> = Field(key: string, value: T)

  type Order = (string, string) -> bool

  ghost predicate StrictTotal(less: Order) {
    && (forall a, b :: less(a, b) ==> !less(b, a))
    && (forall a, b, c :: less(a, b) && less(b, c) ==> less(a, c))
    && (forall a, b :: a != b ==> less(a, b) || less(b, a))
  }

  ghost predicate DistinctKeys<T>(fields: seq<Field<T>>) {
    forall i, j :: 0 <= i < j < |fields| ==> fields[i].key != fields[j].key
  }

  /** Number tokens are nonempty and spelled with digits, signs, dots and exponents. */
  predicate NumberToken(s: string) {
    s != "" && forall i :: 0 <= i < |s| ==> NumberChar(s[i])
  }

  predicate NumberChar(c: char) {
    NumberStart(c) || c == '+' || c == '.' || c == 'e' || c == 'E'
  }

  predicate NumberStart(c: char) {
    c == '-' || '0' <= c <= '9'
  }

  /** A value a program can hold: object keys are distinct, numbers are finite. */
  ghost predicate WellFormed(v: Json) {
    match v
    case Number(token) => NumberToken(token) && NumberStart(token[0])
    case Arr(items) => forall i :: 0 <= i < |items| ==> WellFormed(items[i])
    case Obj(fields) => DistinctKeys(fields) && forall i :: 0 <= i < |fields| ==> WellFormed(fields[i].value)
    case _ => true
  }

  // ---------- quoting ----------

  function Hex(n: nat): char
    requires n < 16
  {
    "0123456789abcdef"[n]
  }

  function Escape(c: char): string {
    if c == '"' then "\\\""
    else if c == '\\' then "\\\\"
    else if c == '\U{08}' then "\\b"
    else if c == '\U{0c}' then "\\f"
    else if c == '\n' then "\\n"
    else if c == '\r' then "\\r"
    else if c == '\t' then "\\t"
    else if c as int < 32 then "\\u00" + [Hex(c as int / 16), Hex(c as int % 16)]
    else [c]
  }

  function Escaped(s: string): string {
    if s == "" then "" else Escape(s[0]) + Escaped(s[1..])
  }

  function Quoted(s: string): string {
    "\"" + Escaped(s) + "\""
  }

  // ---------- the canonical text ----------

  function Insert<T>(f: Field<T>, sorted: seq<Field<T>>, less: Order): seq<Field<T>> {
    if sorted == [] || less(f.key, sorted[0].key) then [f] + sorted
    else [sorted[0]] + Insert(f, sorted[1..], less)
  }

  function Sorted<T>(fields: seq<Field<T>>, less: Order): seq<Field<T>> {
    if fields == [] then [] else Insert(fields[0], Sorted(fields[1..], less), less)
  }

  function Joined(parts: seq<string>): string {
    if parts == [] then ""
    else if |parts| == 1 then parts[0]
    else parts[0] + "," + Joined(parts[1..])
  }

  function Pairs(fields: seq<Field<string>>): seq<string> {
    if fields == [] then [] else [Quoted(fields[0].key) + ":" + fields[0].value] + Pairs(fields[1..])
  }

  /** Arrays in order, objects by sorted defined keys, everything else as the platform prints it. */
  function Canonical(v: Json, less: Order): string
    decreases v
  {
    match v
    case Null => "null"
    case Undefined => "null"
    case Bool(b) => if b then "true" else "false"
    case Number(token) => token
    case Str(text) => Quoted(text)
    case Arr(items) => "[" + Joined(CanonicalItems(items, less)) + "]"
    case Obj(fields) => "{" + Joined(Pairs(Sorted(CanonicalFields(fields, less), less))) + "}"
  }

  function CanonicalItems(items: seq<Json>, less: Order): seq<string>
    decreases items
  {
    if items == [] then [] else [Canonical(items[0], less)] + CanonicalItems(items[1..], less)
  }

  /** The defined fields, printed; sorting looks only at keys, so it may come after. */
  function CanonicalFields(fields: seq<Field<Json>>, less: Order): seq<Field<string>>
    decreases fields
  {
    if fields == [] then []
    else
      (if fields[0].value.Undefined? then [] else [Field(fields[0].key, Canonical(fields[0].value, less))])
      + CanonicalFields(fields[1..], less)
  }

  // ---------- the same value up to key order and undefined fields ----------

  function Lookup(fields: seq<Field<Json>>, key: string): (r: Json)
    ensures r == Undefined || exists i :: 0 <= i < |fields| && fields[i] == Field(key, r)
    decreases fields
  {
    if fields == [] then Undefined
    else if fields[0].key == key then
      assert fields[0] == Field(key, fields[0].value);
      fields[0].value
    else
      var r := Lookup(fields[1..], key);
      assert r != Undefined ==> exists i :: 0 <= i < |fields| && fields[i] == Field(key, r) by {
        if r != Undefined {
          var i :| 0 <= i < |fields[1..]| && fields[1..][i] == Field(key, r);
          assert fields[i + 1] == Field(key, r);
        }
      }
      r
  }

  /**
    Objects have the same value under every key, an absent key counting as undefined; arrays the
    same items in order. Outside objects undefined prints as null, so it counts as null there.
   */
  ghost predicate Same(a: Json, b: Json)
    decreases a, 2
  {
    match a
    case Null => b.Null? || b.Undefined?
    case Undefined => b.Null? || b.Undefined?
    case Arr(items) => b.Arr? && |items| == |b.items| && forall i :: 0 <= i < |items| ==> Same(items[i], b.items[i])
    case Obj(fields) => b.Obj? && SameFields(a, b)
    case _ => a == b
  }

  ghost predicate SameFields(a: Json, b: Json)
    requires a.Obj? && b.Obj?
    decreases a, 1
  {
    forall key: string :: SameAt(a, b, key)
  }

  ghost predicate SameAt(a: Json, b: Json, key: string)
    requires a.Obj? && b.Obj?
    decreases a, 0
  {
    var x, y := Lookup(a.fields, key), Lookup(b.fields, key);
    (x == Undefined <==> y == Undefined) && (x != Undefined ==> Same(x, y))
  }
}
