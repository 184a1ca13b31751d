/**
  The canonical text is JSON: quoted strings read back by the grammar of section 7 of RFC 8259, and
  one value's whole text.
 */
module CanonicalText {
  import opened CanonicalJson

  datatype Text = Reads(text: string) | Malformed

  function HexDigit(c: char): int {
    if '0' <= c <= '9' then c as int - '0' as int
    else if 'a' <= c <= 'f' then c as int - 'a' as int + 10
    else if 'A' <= c <= 'F' then c as int - 'A' as int + 10
    else -1
  }

  /** The character a short escape stands for; '\0' for none. */
  function ShortEscape(c: char): char {
    match c
    case '"' => '"'
    case '\\' => '\\'
    case '/' => '/'
    case 'b' => '\U{08}'
    case 'f' => '\U{0c}'
    case 'n' => '\n'
    case 'r' => '\r'
    case 't' => '\t'
    case _ => '\0'
  }

  function Then(c: char, rest: Text): Text {
    if rest.Reads? then Reads([c] + rest.text) else Malformed
  }

  /** What stands between the quotes: no raw quote or control character, only the escapes there are. */
  function Unescaped(s: string): Text {
    if s == "" then Reads("")
    else if s[0] == '"' || s[0] as int < 32 then Malformed
    else if s[0] != '\\' then Then(s[0], Unescaped(s[1..]))
    else if |s| >= 2 && ShortEscape(s[1]) != '\0' then Then(ShortEscape(s[1]), Unescaped(s[2..]))
    else if |s| >= 6 && s[1] == 'u' && s[2..4] == "00" && 0 <= HexDigit(s[4]) && 0 <= HexDigit(s[5])
    then Then((16 * HexDigit(s[4]) + HexDigit(s[5])) as char, Unescaped(s[6..]))
    else Malformed
  }

  lemma HexBack(n: nat)
    requires n < 16
    ensures HexDigit(Hex(n)) == n
  {}

  predicate HasShort(c: char) {
    c == '"' || c == '\\' || c == '\U{08}' || c == '\U{0c}' || c == '\n' || c == '\r' || c == '\t'
  }

  lemma ShortBack(c: char)
    requires HasShort(c)
    ensures |Escape(c)| == 2 && Escape(c)[0] == '\\' && ShortEscape(Escape(c)[1]) == c && c != '\0'
  {}

  lemma ShortReads(e: string, c: char, rest: string)
    requires |e| == 2 && e[0] == '\\' && ShortEscape(e[1]) == c && c != '\0'
    ensures Unescaped(e + rest) == Then(c, Unescaped(rest))
  {
    assert (e + rest)[2..] == rest;
  }

  lemma ControlReads(c: char, high: char, low: char, rest: string)
    requires c as int == 16 * HexDigit(high) + HexDigit(low) && 0 <= HexDigit(high) && 0 <= HexDigit(low)
    ensures Unescaped("\\u00" + [high, low] + rest) == Then(c, Unescaped(rest))
  {
    var s := "\\u00" + [high, low] + rest;
    assert s[1] == 'u' && s[2..4] == "00" && s[4] == high && s[5] == low && s[6..] == rest;
    assert ShortEscape('u') == '\0';
  }

  lemma PlainReads(c: char, rest: string)
    requires c as int >= 32 && c != '"' && c != '\\'
    ensures Unescaped([c] + rest) == Then(c, Unescaped(rest))
  {
    assert ([c] + rest)[1..] == rest;
  }

  lemma EscapeReads(c: char, rest: string)
    ensures Unescaped(Escape(c) + rest) == Then(c, Unescaped(rest))
  {
    if HasShort(c) {
      ShortBack(c);
      ShortReads(Escape(c), c, rest);
    } else if c as int < 32 {
      HexBack(c as int / 16);
      HexBack(c as int % 16);
      ControlReads(c, Hex(c as int / 16), Hex(c as int % 16), rest);
    } else {
      PlainReads(c, rest);
    }
  }

  /** Between its quotes every string reads back, and nothing in it ends it early. */
  lemma {:induction false} QuotedReadsBack(s: string)
    ensures Unescaped(Escaped(s)) == Reads(s)
    ensures Quoted(s) == "\"" + Escaped(s) + "\""
  {
    if s != "" {
      QuotedReadsBack(s[1..]);
      EscapeReads(s[0], Escaped(s[1..]));
      assert s == [s[0]] + s[1..];
    }
  }

  // ---------- one text ----------

  const ITEMS: seq<Json> := [Bool(true), Null, Undefined, Bool(false)]
  const FIELDS: seq<Field<Json>> := [Field("b", Number("-1.5")), Field("u", Undefined), Field("a", Arr(ITEMS))]

  lemma ItemsText(less: Order)
    ensures Canonical(Arr(ITEMS), less) == "[true,null,null,false]"
  {
    assert CanonicalItems(ITEMS[3..], less) == ["false"];
    assert CanonicalItems(ITEMS[2..], less) == ["null", "false"] by { assert ITEMS[2..][1..] == ITEMS[3..]; }
    assert CanonicalItems(ITEMS[1..], less) == ["null", "null", "false"] by { assert ITEMS[1..][1..] == ITEMS[2..]; }
    FourJoined("true", "null", "null", "false");
  }

  lemma FourJoined(a: string, b: string, c: string, d: string)
    ensures Joined([a, b, c, d]) == a + "," + (b + "," + (c + "," + d))
  {
    assert [a, b, c, d][1..] == [b, c, d] && [b, c, d][1..] == [c, d] && [c, d][1..] == [d];
    assert Joined([d]) == d;
    assert Joined([c, d]) == c + "," + d;
    assert Joined([b, c, d]) == b + "," + (c + "," + d);
  }

  lemma FieldsText(less: Order)
    ensures CanonicalFields(FIELDS, less) == [Field("b", "-1.5"), Field("a", "[true,null,null,false]")]
  {
    ItemsText(less);
    assert FIELDS[1..][1..] == FIELDS[2..] && FIELDS[2..][1..] == [];
    assert CanonicalFields(FIELDS[2..], less) == [Field("a", "[true,null,null,false]")];
    assert CanonicalFields(FIELDS[1..], less) == [Field("a", "[true,null,null,false]")];
  }

  lemma TwoSorted(x: Field<string>, y: Field<string>, less: Order)
    requires less(y.key, x.key) && !less(x.key, y.key)
    ensures Sorted([x, y], less) == [y, x]
  {
    assert [x, y][1..] == [y] && [y][1..] == [];
    assert Sorted([y], less) == [y];
    assert [y][1..] == [] && Insert(x, [], less) == [x];
  }

  /** Keys are sorted, undefined fields left out, and constants printed as JSON has them. */
  lemma OneText(less: Order)
    requires less("a", "b") && !less("b", "a")
    ensures Canonical(Obj(FIELDS), less) == "{\"a\":[true,null,null,false],\"b\":-1.5}"
  {
    FieldsText(less);
    var b, a := Field("b", "-1.5"), Field("a", "[true,null,null,false]");
    TwoSorted(b, a, less);
    PairsText(a, b);
    Plain("a");
    Plain("b");
    Assembled();
  }

  lemma Assembled()
    ensures "{" + ("\"" + "a" + "\"" + ":" + "[true,null,null,false]" + "," + ("\"" + "b" + "\"" + ":" + "-1.5")) + "}"
         == "{\"a\":[true,null,null,false],\"b\":-1.5}"
  {}

  lemma Plain(s: string)
    requires |s| == 1 && s[0] as int >= 32 && s[0] != '"' && s[0] != '\\'
    ensures Quoted(s) == "\"" + s + "\""
  {
    assert s[1..] == "" && Escaped(s) == [s[0]] + "";
  }

  lemma PairsText(x: Field<string>, y: Field<string>)
    ensures Joined(Pairs([x, y])) == Quoted(x.key) + ":" + x.value + "," + (Quoted(y.key) + ":" + y.value)
  {
    assert [x, y][1..] == [y] && [y][1..] == [];
    assert Pairs([]) == [] && Pairs([y]) == [Quoted(y.key) + ":" + y.value] + [];
    assert Pairs([x, y]) == [Quoted(x.key) + ":" + x.value] + Pairs([y]);
    assert Pairs([x, y]) == [Quoted(x.key) + ":" + x.value, Quoted(y.key) + ":" + y.value];
    assert [Quoted(x.key) + ":" + x.value, Quoted(y.key) + ":" + y.value][1..] == [Quoted(y.key) + ":" + y.value];
  }
}
