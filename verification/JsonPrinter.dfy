// JSONValue::toString and internalToString: the indenting printer.
module JsonPrinter {
  import opened Decimal
  import opened JsonValue

  // The eight bytes EscapeString rewrites.
  predicate IsSpecial(c: char) {
    c == '"' || c == '\\' || c == '/' || c == '\U{8}' || c == '\U{c}' || c == '\n' || c == '\r' || c == '\t'
  }

  predicate Plain(s: string) { forall c | c in s :: !IsSpecial(c) }

  function EscapeChar(c: char): (e: string)
    ensures |e| == if IsSpecial(c) then 2 else 1
  {
    match c
    case '"' => "\\\""
    case '\\' => "\\\\"
    case '/' => "\\/"
    case '\U{8}' => "\\b"
    case '\U{c}' => "\\f"
    case '\n' => "\\n"
    case '\r' => "\\r"
    case '\t' => "\\t"
    case _ => [c]
  }

  function Escape(s: string): string {
    if s == [] then [] else Escape(s[..|s| - 1]) + EscapeChar(s[|s| - 1])
  }

  // Plain strings are the ones printed unchanged; every other string grows.
  lemma {:induction false} EscapeLength(s: string)
    ensures |Escape(s)| >= |s|
    ensures |Escape(s)| == |s| <==> Plain(s)
    ensures Plain(s) ==> Escape(s) == s
  {
    if s != [] {
      var front := s[..|s| - 1];
      EscapeLength(front);
      assert s == front + [s[|s| - 1]];
      assert Plain(s) <==> Plain(front) && !IsSpecial(s[|s| - 1]);
    }
  }

  // 2 * depth blanks; the source's indent constant holds 40.
  const INDENT_BYTES: nat := 40

  function Indent(depth: nat): (s: string)
    ensures |s| == 2 * depth && forall i | 0 <= i < |s| :: s[i] == ' '
  {
    seq(2 * depth, _ => ' ')
  }

  // toString(depth, false) of a value, and the lines inside a compound at that depth.
  function Text(v: Json, depth: nat): string
    requires NoFloat(v)
    decreases v, 1
  {
    match v
    case Null => "null"
    case Bool(b) => if b then "true" else "false"
    case Int(n) => Print(n)
    case Float(_, _, _, _) => ""
    case Str(s) => "\"" + Escape(s) + "\""
    case Array(items) => "[\n" + ItemsText(items, depth + 1) + "\n" + Indent(depth) + "]"
    case Object(fields) => "{\n" + FieldsText(fields, depth + 1) + "\n" + Indent(depth) + "}"
  }

  function ItemsText(items: seq<Json>, depth: nat): string
    requires forall i | 0 <= i < |items| :: NoFloat(items[i])
    decreases items, 0
  {
    if items == [] then []
    else
      Indent(depth) + Text(items[0], depth)
      + (if |items| > 1 then ",\n" + ItemsText(items[1..], depth) else [])
  }

  function FieldText(f: Field, depth: nat): string
    requires NoFloat(f.value)
    decreases f, 0
  {
    Indent(depth) + "\"" + Escape(f.key) + "\": " + Text(f.value, depth + 1)
  }

  function FieldsText(fields: seq<Field>, depth: nat): string
    requires forall i | 0 <= i < |fields| :: NoFloat(fields[i].value)
    decreases fields, 0
  {
    if fields == [] then []
    else
      FieldText(fields[0], depth)
      + (if |fields| > 1 then ",\n" + FieldsText(fields[1..], depth) else [])
  }

  ghost predicate NoFloat(v: Json) {
    match v
    case Float(_, _, _, _) => false
    case Array(items) => forall i | 0 <= i < |items| :: NoFloat(items[i])
    case Object(fields) => forall i | 0 <= i < |fields| :: NoFloat(fields[i].value)
    case _ => true
  }

  // Every indentation the printer asks for at this depth stays inside the indent constant.
  // An object indents its values two levels deeper, an array one.
  ghost predicate Fits(v: Json, depth: nat) {
    match v
    case Array(items) =>
      && 2 * depth <= INDENT_BYTES
      && (items != [] ==> 2 * (depth + 1) <= INDENT_BYTES)
      && forall i | 0 <= i < |items| :: Fits(items[i], depth + 1)
    case Object(fields) =>
      && 2 * depth <= INDENT_BYTES
      && (fields != [] ==> 2 * (depth + 1) <= INDENT_BYTES)
      && forall i | 0 <= i < |fields| :: Fits(fields[i].value, depth + 2)
    case _ => true
  }

  method EscapeString(s: string) returns (out: string)
    ensures out == Escape(s)
  {
    out := [];
    for i := 0 to |s|
      invariant out == Escape(s[..i])
    {
      assert s[..i + 1][..i] == s[..i];
      out := out + EscapeChar(s[i]);
    }
    assert s[..|s|] == s;
  }

  // toString(depth, indentFirstLine).
  method ToString(v: Json, depth: nat, indentFirstLine: bool) returns (out: string)
    requires NoFloat(v) && Fits(v, depth)
    requires indentFirstLine ==> 2 * depth <= INDENT_BYTES
    ensures out == (if indentFirstLine then Indent(depth) else []) + Text(v, depth)
    decreases v, 1
  {
    hide Escape, ItemsText, FieldsText, Indent;
    match v {
      case Str(s) =>
        var escaped := EscapeString(s);
        out := "\"" + escaped + "\"";
      case Int(n) => out := Print(n);
      case Bool(b) => out := if b then "true" else "false";
      case Null => out := "null";
      case Array(items) =>
        var inner := ItemsToString(items, depth + 1);
        out := "[\n" + inner + "\n" + Indent(depth) + "]";
      case Object(fields) =>
        var inner := FieldsToString(fields, depth + 1);
        out := "{\n" + inner + "\n" + Indent(depth) + "}";
    }
    assert out == Text(v, depth);
    if indentFirstLine {
      out := Indent(depth) + out;
    }
  }

  // JSONArray::internalToString.
  method ItemsToString(items: seq<Json>, depth: nat) returns (out: string)
    requires forall i | 0 <= i < |items| :: NoFloat(items[i]) && Fits(items[i], depth)
    requires items != [] ==> 2 * depth <= INDENT_BYTES
    ensures out == ItemsText(items, depth)
    decreases items, 0
  {
    hide Text, ItemsText, NoFloat, Fits;
    out := [];
    NoItemsText(depth);
    assert items[0..] == items;
    for i := 0 to |items|
      invariant out + ItemsText(items[i..], depth) == ItemsText(items, depth)
    {
      var line := ToString(items[i], depth, true);
      ItemsTextAt(items, i, depth);
      out := out + line;
      if i + 1 < |items| {
        out := out + ",\n";
      }
    }
    assert items[|items|..] == [];
  }

  lemma NoItemsText(depth: nat)
    ensures ItemsText([], depth) == []
  {
  }

  // The first line, its separator and the other lines.
  lemma ItemsTextAt(items: seq<Json>, i: nat, depth: nat)
    requires i < |items| && forall k | 0 <= k < |items| :: NoFloat(items[k])
    ensures ItemsText(items[i..], depth) == Indent(depth) + Text(items[i], depth)
      + (if i + 1 < |items| then ",\n" + ItemsText(items[i + 1..], depth) else [])
    ensures i + 1 == |items| ==> ItemsText(items[i + 1..], depth) == []
  {
    hide Text, NoFloat;
    assert items[i..][0] == items[i] && items[i..][1..] == items[i + 1..];
  }

  // JSONObject::internalToString.
  method FieldsToString(fields: seq<Field>, depth: nat) returns (out: string)
    requires forall i | 0 <= i < |fields| :: NoFloat(fields[i].value) && Fits(fields[i].value, depth + 1)
    requires fields != [] ==> 2 * depth <= INDENT_BYTES
    ensures out == FieldsText(fields, depth)
    decreases fields, 0
  {
    hide FieldText, FieldsText, NoFloat, Fits;
    out := [];
    NoFieldsText(depth);
    assert fields[0..] == fields;
    for i := 0 to |fields|
      invariant out + FieldsText(fields[i..], depth) == FieldsText(fields, depth)
    {
      var line := FieldToString(fields[i], depth);
      FieldsTextAt(fields, i, depth);
      out := out + line;
      if i + 1 < |fields| {
        out := out + ",\n";
      }
    }
    assert fields[|fields|..] == [];
  }

  lemma NoFieldsText(depth: nat)
    ensures FieldsText([], depth) == []
  {
  }

  lemma FieldsTextAt(fields: seq<Field>, i: nat, depth: nat)
    requires i < |fields| && forall k | 0 <= k < |fields| :: NoFloat(fields[k].value)
    ensures FieldsText(fields[i..], depth) == FieldText(fields[i], depth)
      + (if i + 1 < |fields| then ",\n" + FieldsText(fields[i + 1..], depth) else [])
    ensures i + 1 == |fields| ==> FieldsText(fields[i + 1..], depth) == []
  {
    hide FieldText, NoFloat;
    assert fields[i..][0] == fields[i] && fields[i..][1..] == fields[i + 1..];
  }

  method FieldToString(f: Field, depth: nat) returns (out: string)
    requires NoFloat(f.value) && Fits(f.value, depth + 1) && 2 * depth <= INDENT_BYTES
    ensures out == FieldText(f, depth)
    decreases f, 0
  {
    var escapedKey := EscapeString(f.key);
    out := Indent(depth) + "\"" + escapedKey + "\": ";
    var value := ToString(f.value, depth + 1, false);
    out := out + value;
  }
}
