// What the printer and the parser promise together: printing a value and parsing the text,
// in any surrounding text, consumes exactly the printed bytes and gives the value back.
module JsonRoundTrip {
  import opened Basics
  import opened KeyedVector
  import opened Decimal
  import opened JsonValue
  import opened JsonParser
  import opened JsonPrinter
  import opened CText

  // The values whose text means them: 32-bit integers, no float, no string that EscapeString
  // rewrites, and objects in the key order a KeyedVector keeps.
  ghost predicate Clean(v: Json) {
    match v
    case Int(n) => IsInt32(n)
    case Float(_, _, _, _) => false
    case Str(s) => Plain(s)
    case Array(items) => forall i | 0 <= i < |items| :: Clean(items[i])
    case Object(fields) =>
      && SortedKeys(fields)
      && (forall i | 0 <= i < |fields| :: Plain(fields[i].key))
      && forall i | 0 <= i < |fields| :: Clean(fields[i].value)
    case _ => true
  }

  // No INT32_MIN anywhere: its magnitude does not fit the parser's register.
  ghost predicate Survives(v: Json) {
    match v
    case Int(n) => n != INT32_MIN
    case Array(items) => AllSurvive(items)
    case Object(fields) => forall i | 0 <= i < |fields| :: Survives(fields[i].value)
    case _ => true
  }

  ghost predicate AllSurvive(items: seq<Json>) {
    forall i | 0 <= i < |items| :: Survives(items[i])
  }

  ghost predicate FieldsSurvive(fields: seq<Field>) {
    forall i | 0 <= i < |fields| :: Survives(fields[i].value)
  }

  // What the parser makes of the text of a clean value that ends at the given place.
  ghost function Read(v: Json, end: nat): Outcome<Json> {
    if Survives(v) then Parsed(v, end) else Malformed
  }

  lemma CleanHasNoFloat(v: Json)
    requires Clean(v)
    ensures NoFloat(v)
  {
    match v
    case Array(items) => forall i | 0 <= i < |items| ensures NoFloat(items[i]) { CleanHasNoFloat(items[i]); }
    case Object(fields) =>
      forall i | 0 <= i < |fields| ensures NoFloat(fields[i].value) { CleanHasNoFloat(fields[i].value); }
    case _ =>
  }

  // The position after a number holds nothing that would extend it.
  predicate EndsNumber(s: string, i: nat) {
    i < |s| ==> !(IsDigit(s[i]) || s[i] == '.' || s[i] == 'e' || s[i] == 'E')
  }

  // A plain string is scanned byte for byte up to its closing quote.
  lemma {:induction false} ScanPlain(s: string, i: nat, t: string, acc: string)
    requires Plain(t) && At(s, i, t) && i + |t| < |s| && s[i + |t|] == '"'
    ensures ScanString(s, i, false, acc) == Parsed(acc + t, i + |t| + 1)
    decreases |t|
  {
    if t == [] {
      assert acc + t == acc;
    } else {
      assert s[i] == t[0] && t[0] in t;
      AtSplit(s, i, [t[0]], t[1..]);
      assert [t[0]] + t[1..] == t;
      ScanPlain(s, i + 1, t[1..], acc + [t[0]]);
      assert acc + [t[0]] + t[1..] == acc + t;
    }
  }

  // The register holds the number exactly when the number fits in 31 bits.
  lemma {:induction false} ParseInt32Exact(ds: string)
    requires AllDigits(ds)
    ensures ParseInt32(ds) == Some(Value(ds)) <==> Value(ds) <= INT32_MAX
  {
    if ds != [] {
      var front := ds[..|ds| - 1];
      ParseInt32Exact(front);
      assert Value(ds) == 10 * Value(front) + DigitValue(ds[|ds| - 1]);
    }
  }

  // A run of digits that the parser takes for one integer.
  lemma DigitsAreNumber(s: string, i: nat, first: nat, e: nat)
    requires i < |s| && (IsDigit(s[i]) || s[i] == '-')
    requires first == (if s[i] == '-' then i + 1 else i) && first < e <= |s| && EndsNumber(s, e)
    requires AllDigits(s[first..e]) && (e - first > 1 ==> s[first] != '0')
    ensures var n: int := Value(s[first..e]);
      && (n <= INT32_MAX ==> ParseNumber(s, i) == Parsed(Int(if first > i then -n else n), e))
      && (n == INT32_MAX + 1 ==> ParseNumber(s, i) == Malformed)
  {
    hide DigitsEnd, ParseInt32, Value;
    DigitsEndAt(s, first, e);
    ParseInt32Exact(s[first..e]);
    if Value(s[first..e]) == INT32_MAX + 1 {
      OneTooMany(s[first..e]);
    }
  }

  // The magnitude of INT32_MIN wraps to a negative register, which is seen as overflow.
  lemma OneTooMany(ds: string)
    requires AllDigits(ds) && Value(ds) == INT32_MAX + 1
    ensures ParseInt32(ds).None?
  {
    var front := ds[..|ds| - 1];
    assert Value(ds) == 10 * Value(front) + DigitValue(ds[|ds| - 1]);
    ParseInt32Exact(front);
  }

  lemma NumberText(s: string, i: nat, n: int)
    requires IsInt32(n)
    requires At(s, i, Print(n)) && EndsNumber(s, i + |Print(n)|)
    ensures i < |s| && ParseToken(s, i) == Read(Int(n), i + |Print(n)|)
  {
    hide Digits, DigitsEnd, ParseInt32, ParseNumber, Value, ParseItems, ParseFields, ScanString;
    var ds := Digits(if n < 0 then -n else n);
    var first := if n < 0 then i + 1 else i;
    if n < 0 {
      AtSplit(s, i, ['-'], ds);
      AtChar(s, i, '-');
    }
    assert s[first..first + |ds|] == ds;
    assert s[first] == ds[0];
    DigitsAreNumber(s, i, first, first + |ds|);
  }

  lemma StringText(s: string, i: nat, t: string)
    requires Plain(t) && At(s, i, "\"" + t + "\"")
    ensures i < |s| && ParseToken(s, i) == Parsed(Str(t), i + |t| + 2)
  {
    hide ParseItems, ParseFields, ParseNumber, ScanString, Plain;
    AtSplit(s, i, "\"" + t, "\"");
    AtSplit(s, i, "\"", t);
    AtChar(s, i, '"');
    AtChar(s, i + |t| + 1, '"');
    ScanPlain(s, i + 1, t, []);
    assert [] + t == t;
  }

  lemma WordText(s: string, i: nat, word: string, v: Json)
    requires (word, v) in {("null", Null), ("true", Bool(true)), ("false", Bool(false))}
    requires At(s, i, word)
    ensures i < |s| && ParseToken(s, i) == Parsed(v, i + |word|)
  {
    assert s[i] == word[0];
    assert StartsWith(s, i, word);
    StartsWithChar(s, i, "null");
    StartsWithChar(s, i, "true");
  }

  lemma StartsWithChar(s: string, i: nat, word: string)
    requires word != []
    ensures StartsWith(s, i, word) ==> s[i] == word[0]
  {
    if StartsWith(s, i, word) { assert s[i..i + |word|][0] == word[0]; }
  }

  // What surrounds the lines of a printed compound: brackets, a newline, an indentation.
  lemma CompoundShape(s: string, i: nat, open: char, lines: string, indent: string, close: char)
    requires At(s, i, [open, '\n'] + lines + "\n" + indent + [close])
    requires forall x | 0 <= x < |indent| :: indent[x] == ' '
    ensures var e := i + 3 + |lines| + |indent|;
      && e + 1 <= |s| && s[i] == open && BlankRun(s, i + 1, i + 2) && At(s, i + 2, lines)
      && BlankRun(s, i + 2 + |lines|, e) && s[e] == close
  {
    AtSplit(s, i, [open, '\n'] + lines + "\n" + indent, [close]);
    AtSplit(s, i, [open, '\n'] + lines + "\n", indent);
    AtSplit(s, i, [open, '\n'] + lines, "\n");
    AtSplit(s, i, [open, '\n'], lines);
    assert [open] + ['\n'] == [open, '\n'];
    AtSplit(s, i, [open], ['\n']);
    AtChar(s, i, open);
    AtChar(s, i + 1, '\n');
    AtChar(s, i + 2 + |lines|, '\n');
    AtChar(s, i + 3 + |lines| + |indent|, close);
    forall x | i + 3 + |lines| <= x < i + 3 + |lines| + |indent| ensures s[x] == ' ' {
      assert s[x] == indent[x - (i + 3 + |lines|)];
    }
  }

  // How a printed value starts: never with a blank or a closing bracket.
  lemma TextStart(v: Json, depth: nat)
    requires NoFloat(v)
    ensures var t := Text(v, depth); t != [] && !IsSpace(t[0]) && t[0] != ']' && t[0] != '}'
  {
    hide Digits, Escape, ItemsText, FieldsText;
    if v.Int? {
      assert Print(v.n)[0] in Print(v.n);
    }
  }

  // Print and reparse inside any text: exactly the printed bytes are consumed.
  lemma {:induction false} TokenText(s: string, i: nat, v: Json, depth: nat)
    requires Clean(v) && NoFloat(v)
    requires At(s, i, Text(v, depth)) && EndsNumber(s, i + |Text(v, depth)|)
    ensures i < |s| && ParseToken(s, i) == Read(v, i + |Text(v, depth)|)
    decreases v, 2
  {
    hide Escape, Plain, ItemsText, FieldsText, ParseItems, ParseFields, ScanString, ParseNumber, Digits, Print;
    match v {
      case Null => WordText(s, i, "null", v);
      case Bool(b) => WordText(s, i, if b then "true" else "false", v);
      case Int(n) => NumberText(s, i, n);
      case Str(t) => EscapeLength(t); StringText(s, i, t);
      case Array(items) => ArrayText(s, i, items, depth);
      case Object(fields) => ObjectText(s, i, fields, depth);
    }
  }

  lemma {:induction false} ArrayText(s: string, i: nat, items: seq<Json>, depth: nat)
    requires Clean(Array(items)) && NoFloat(Array(items))
    requires At(s, i, Text(Array(items), depth))
    ensures i < |s| && ParseToken(s, i) == Read(Array(items), i + |Text(Array(items), depth)|)
    decreases items, 1
  {
    hide ItemsText, ParseItems;
    var lines := ItemsText(items, depth + 1);
    CompoundShape(s, i, '[', lines, Indent(depth), ']');
    ItemsParse(s, i + 1, i + 2, items, depth + 1, [], i + 3 + |lines| + 2 * depth);
    assert [] + items == items;
  }

  lemma ItemsUnfold(s: string, i: nat, acc: seq<Json>, k: nat, v: Json, e: nat, sep: nat)
    requires i <= k < |s| && Spaces(s, i) == k && s[k] != ']' && Spaces(s, k) == k
    requires ParseToken(s, k) == Parsed(v, e)
    requires e <= sep < |s| && Spaces(s, e) == sep && (s[sep] == ',' || s[sep] == ']')
    ensures ParseItems(s, i, acc) == ParseItems(s, if s[sep] == ',' then sep + 1 else sep, acc + [v])
  {
    hide ParseToken, Spaces;
    assert ParseValue(s, k) == Parsed(v, e);
    assert NextItem(s, i) == Next(v, if s[sep] == ',' then sep + 1 else sep);
  }

  lemma ItemsFail(s: string, i: nat, acc: seq<Json>, k: nat)
    requires i <= k < |s| && Spaces(s, i) == k && s[k] != ']' && Spaces(s, k) == k
    requires ParseToken(s, k) == Malformed
    ensures ParseItems(s, i, acc) == Malformed
  {
    hide ParseToken, Spaces;
    assert ParseValue(s, k) == Malformed;
  }

  lemma ItemsClose(s: string, i: nat, acc: seq<Json>, k: nat)
    requires i <= k < |s| && Spaces(s, i) == k && s[k] == ']'
    ensures ParseItems(s, i, acc) == Parsed(acc, k + 1)
  {
    hide ParseValue, Spaces;
  }

  // Where the first printed item lies, and that its text is read back from there.
  lemma {:induction false} FirstItem(s: string, i: nat, k: nat, v: Json, depth: nat, more: string)
    requires Clean(v) && NoFloat(v)
    requires BlankRun(s, i, k) && At(s, k, Indent(depth) + Text(v, depth) + more)
    requires EndsNumber(s, k + 2 * depth + |Text(v, depth)|)
    ensures var start := k + 2 * depth; var end := start + |Text(v, depth)|;
      && start < end <= |s| && At(s, end, more) && s[start] != ']'
      && Spaces(s, i) == start && Spaces(s, start) == start && ParseToken(s, start) == Read(v, end)
    decreases v, 3
  {
    hide Text, ParseToken, Spaces, Clean, NoFloat;
    var t := Text(v, depth);
    AtSplit(s, k, Indent(depth) + t, more);
    AtSplit(s, k, Indent(depth), t);
    IndentAt(s, k, depth);
    TextStart(v, depth);
    assert s[k + 2 * depth] == t[0];
    SpacesAt(s, i, k + 2 * depth);
    SpacesAt(s, k + 2 * depth, k + 2 * depth);
    TokenText(s, k + 2 * depth, v, depth);
  }

  // One round of the array loop over a printed item and the separator behind it.
  lemma {:induction false} ItemStep(s: string, i: nat, k: nat, v: Json, depth: nat, acc: seq<Json>,
      more: string, sep: nat)
    requires Clean(v) && NoFloat(v)
    requires BlankRun(s, i, k) && At(s, k, Indent(depth) + Text(v, depth) + more)
    requires BlankRun(s, k + 2 * depth + |Text(v, depth)|, sep) && sep < |s| && (s[sep] == ',' || s[sep] == ']')
    ensures ParseItems(s, i, acc)
         == if !Survives(v) then Malformed
            else ParseItems(s, if s[sep] == ',' then sep + 1 else sep, acc + [v])
    decreases v, 4
  {
    hide Text, ParseToken, ParseItems, Spaces, Clean, NoFloat, Survives;
    var start := k + 2 * depth;
    var end := start + |Text(v, depth)|;
    FirstItem(s, i, k, v, depth, more);
    if Survives(v) {
      SpacesAt(s, end, sep);
      ItemsUnfold(s, i, acc, start, v, end, sep);
    } else {
      ItemsFail(s, i, acc, start);
    }
  }

  // The lines of an array: blanks up to k, the printed items, blanks up to the bracket at e.
  lemma {:induction false} ItemsParse(s: string, i: nat, k: nat, items: seq<Json>, depth: nat, acc: seq<Json>, e: nat)
    requires forall x | 0 <= x < |items| :: Clean(items[x]) && NoFloat(items[x])
    requires BlankRun(s, i, k) && At(s, k, ItemsText(items, depth))
    requires BlankRun(s, k + |ItemsText(items, depth)|, e) && e < |s| && s[e] == ']'
    ensures ParseItems(s, i, acc) == if AllSurvive(items) then Parsed(acc + items, e + 1) else Malformed
    decreases items, 0
  {
    hide Text, ParseItems, Spaces, Clean, NoFloat, Survives, AllSurvive, At;
    if items == [] {
      SpacesAt(s, i, e);
      ItemsClose(s, i, acc, e);
      assert acc + items == acc;
      assert AllSurvive(items) by { NoItemsToSurvive(); }
    } else {
      var v, line := items[0], Indent(depth) + Text(items[0], depth);
      SurviveSplit(items);
      if |items| == 1 {
        assert line + [] == line;
        ItemStep(s, i, k, v, depth, acc, [], e);
        SpacesAt(s, e, e);
        ItemsClose(s, e, acc + [v], e);
        assert acc + items == acc + [v] && items[1..] == [];
        NoItemsToSurvive();
      } else {
        var rest := ItemsText(items[1..], depth);
        SeparatorAt(s, k, line, rest);
        ItemStep(s, i, k, v, depth, acc, ",\n" + rest, k + |line|);
        ItemsParse(s, k + |line| + 1, k + |line| + 2, items[1..], depth, acc + [v], e);
        assert acc + items == acc + [v] + items[1..];
      }
    }
  }

  lemma NoItemsToSurvive()
    ensures AllSurvive([])
  {
  }

  lemma SurviveSplit(items: seq<Json>)
    requires items != []
    ensures AllSurvive(items) <==> Survives(items[0]) && AllSurvive(items[1..])
  {
    if Survives(items[0]) && AllSurvive(items[1..]) {
      forall i | 0 <= i < |items| ensures Survives(items[i]) {
        if i > 0 { assert items[1..][i - 1] == items[i]; }
      }
    }
  }

  // A comma and a newline between two printed lines.
  lemma SeparatorAt(s: string, k: nat, line: string, rest: string)
    requires At(s, k, line + (",\n" + rest))
    ensures var end := k + |line|;
      && end + 2 <= |s| && s[end] == ',' && BlankRun(s, end + 1, end + 2) && At(s, end + 2, rest)
      && EndsNumber(s, end) && !IsSpace(s[end])
  {
    AtSplit(s, k, line, ",\n" + rest);
    AtSplit(s, k + |line|, ",\n", rest);
    assert s[k + |line|] == ",\n"[0] && s[k + |line| + 1] == ",\n"[1];
  }

  lemma {:induction false} ObjectText(s: string, i: nat, fields: seq<Field>, depth: nat)
    requires Clean(Object(fields)) && NoFloat(Object(fields))
    requires At(s, i, Text(Object(fields), depth))
    ensures i < |s| && ParseToken(s, i) == Read(Object(fields), i + |Text(Object(fields), depth)|)
    decreases fields, 1
  {
    hide FieldsText, ParseFields, At, Indent, StringLess, Plain, CStr;
    var lines := FieldsText(fields, depth + 1);
    CompoundShape(s, i, '{', lines, Indent(depth), '}');
    assert [] + fields == fields;
    FieldsParse(s, i + 1, i + 2, fields, depth + 1, [], i + 3 + |lines| + 2 * depth);
  }

  lemma KeyUnfold(s: string, i: nat, k: nat, key: string, e: nat)
    requires i <= k < |s| && Spaces(s, i) == k && s[k] != '}' && Spaces(s, k) == k
    requires ParseToken(s, k) == Parsed(Str(key), e)
    requires e < |s| && Spaces(s, e) == e && s[e] == ':'
    ensures NextKey(s, i) == Next(key, e + 1)
  {
    hide ParseToken, Spaces;
    assert ParseValue(s, k) == Parsed(Str(key), e);
  }

  lemma FieldsUnfold(s: string, i: nat, acc: seq<Field>, key: string, c: nat, k: nat, v: Json, e: nat, sep: nat)
    requires i < c <= k < |s| && NextKey(s, i) == Next(key, c) && Spaces(s, c) == k
    requires ParseToken(s, k) == Parsed(v, e)
    requires e <= sep < |s| && Spaces(s, e) == sep && (s[sep] == ',' || s[sep] == '}')
    ensures ParseFields(s, i, acc)
         == ParseFields(s, if s[sep] == ',' then sep + 1 else sep, Add(StringLess, acc, CStr(key), v))
  {
    hide ParseToken, Spaces, NextKey, Add, CStr;
    assert ParseValue(s, c) == Parsed(v, e);
    assert NextField(s, i) == Next((key, v), if s[sep] == ',' then sep + 1 else sep);
  }

  lemma FieldsFail(s: string, i: nat, acc: seq<Field>, key: string, c: nat, k: nat)
    requires i < c <= k < |s| && NextKey(s, i) == Next(key, c) && Spaces(s, c) == k
    requires ParseToken(s, k) == Malformed
    ensures ParseFields(s, i, acc) == Malformed
  {
    hide ParseToken, Spaces, NextKey, Add, CStr;
    assert ParseValue(s, c) == Malformed;
  }

  lemma FieldsClose(s: string, i: nat, acc: seq<Field>, k: nat)
    requires i <= k < |s| && Spaces(s, i) == k && s[k] == '}'
    ensures ParseFields(s, i, acc) == Parsed(acc, k + 1)
  {
    hide ParseValue, Spaces;
    assert NextKey(s, i) == Close(k + 1);
    assert NextField(s, i) == Close(k + 1);
  }

  // The printed key of a field is read back together with its colon.
  lemma KeyText(s: string, i: nat, k: nat, key: string)
    requires BlankRun(s, i, k) && Plain(key) && At(s, k, "\"" + key + "\":")
    ensures NextKey(s, i) == Next(key, k + |key| + 3)
  {
    hide ParseToken, NextKey, Spaces, Plain;
    var quoted := "\"" + key + "\"";
    assert "\"" + key + "\":" == quoted + ":";
    AtSplit(s, k, quoted, ":");
    AtChar(s, k + |key| + 2, ':');
    assert s[k] == quoted[0];
    StringText(s, k, key);
    SpacesAt(s, i, k);
    SpacesAt(s, k, k);
    SpacesAt(s, k + |key| + 2, k + |key| + 2);
    KeyUnfold(s, i, k, key, k + |key| + 2);
  }

  lemma IndentAt(s: string, i: nat, depth: nat)
    requires At(s, i, Indent(depth))
    ensures BlankRun(s, i, i + 2 * depth)
  {
    forall x | i <= x < i + 2 * depth ensures s[x] == ' ' { assert s[x] == Indent(depth)[x - i]; }
  }

  // Where the parts of a printed field lie.
  lemma FieldShape(s: string, k: nat, f: Field, depth: nat, more: string)
    requires NoFloat(f.value) && Plain(f.key) && At(s, k, FieldText(f, depth) + more)
    ensures var colon := k + 2 * depth + |f.key| + 3; var t := Text(f.value, depth + 1);
      && BlankRun(s, k, k + 2 * depth) && At(s, k + 2 * depth, "\"" + f.key + "\":")
      && BlankRun(s, colon, colon + 1) && At(s, colon + 1, t) && At(s, colon + 1 + |t|, more)
      && |FieldText(f, depth)| == 2 * depth + |f.key| + 4 + |t|
  {
    hide Text, Plain, Escape;
    EscapeLength(f.key);
    var indent, key, t := Indent(depth), "\"" + f.key + "\":", Text(f.value, depth + 1);
    assert FieldText(f, depth) == indent + key + " " + t;
    hide *;
    AtSplit(s, k, indent + key + " " + t, more);
    AtSplit(s, k, indent + key + " ", t);
    AtSplit(s, k, indent + key, " ");
    AtSplit(s, k, indent, key);
    IndentAt(s, k, depth);
    BlankAt(s, k + |indent + key|);
  }

  lemma BlankAt(s: string, i: nat)
    requires At(s, i, " ")
    ensures BlankRun(s, i, i + 1)
  {
    AtChar(s, i, ' ');
  }

  // A printed object keeps its key order, so each field is added at the end.
  lemma FieldAppends(acc: seq<Field>, fields: seq<Field>)
    requires fields != [] && Sorted(StringLess, acc + fields) && '\0' !in fields[0].key
    ensures Add(StringLess, acc, CStr(fields[0].key), fields[0].value) == acc + [fields[0]]
    ensures acc + fields == acc + [fields[0]] + fields[1..]
  {
    hide StringLess, Add, CStr;
    StringLessIsOrder();
    LastIsLargest(acc, fields);
    AddAppends(StringLess, acc, fields[0].key, fields[0].value);
  }

  lemma LastIsLargest(acc: seq<Field>, fields: seq<Field>)
    requires fields != [] && Sorted(StringLess, acc + fields)
    ensures forall e | e in acc :: StringLess(e.key, fields[0].key)
  {
    hide StringLess;
    forall e | e in acc ensures StringLess(e.key, fields[0].key) {
      var i :| 0 <= i < |acc| && acc[i] == e;
      assert (acc + fields)[i] == e && (acc + fields)[|acc|] == fields[0];
    }
  }

  ghost predicate CleanField(f: Field) {
    Plain(f.key) && '\0' !in f.key && Clean(f.value) && NoFloat(f.value)
  }

  // Where the first printed field lies, and that its key and value are read back.
  lemma {:induction false} FirstField(s: string, i: nat, k: nat, f: Field, depth: nat, more: string)
    requires CleanField(f) && NoFloat(f.value)
    requires BlankRun(s, i, k) && At(s, k, FieldText(f, depth) + more)
    requires EndsNumber(s, k + |FieldText(f, depth)|)
    ensures var c := k + 2 * depth + |f.key| + 3; var end := k + |FieldText(f, depth)|;
      && i < c < c + 1 < end <= |s| && At(s, end, more)
      && NextKey(s, i) == Next(f.key, c) && Spaces(s, c) == c + 1 && ParseToken(s, c + 1) == Read(f.value, end)
    decreases f, 1
  {
    hide Text, FieldText, ParseToken, Spaces, Clean, NoFloat, NextKey, Plain;
    FieldShape(s, k, f, depth, more);
    var c := k + 2 * depth + |f.key| + 3;
    KeyText(s, i, k + 2 * depth, f.key);
    TextStart(f.value, depth + 1);
    assert s[c + 1] == Text(f.value, depth + 1)[0];
    SpacesAt(s, c, c + 1);
    FieldValueText(s, c + 1, f, depth);
  }

  // One round of the object loop over a printed field and the separator behind it.
  lemma {:induction false} FieldStep(s: string, i: nat, k: nat, f: Field, depth: nat, acc: seq<Field>,
      more: string, sep: nat)
    requires CleanField(f) && NoFloat(f.value)
    requires BlankRun(s, i, k) && At(s, k, FieldText(f, depth) + more)
    requires BlankRun(s, k + |FieldText(f, depth)|, sep) && sep < |s| && (s[sep] == ',' || s[sep] == '}')
    ensures ParseFields(s, i, acc)
         == if !Survives(f.value) then Malformed
            else ParseFields(s, if s[sep] == ',' then sep + 1 else sep, Add(StringLess, acc, CStr(f.key), f.value))
    decreases f, 2
  {
    hide FieldText, ParseToken, ParseFields, Spaces, Add, CStr, Plain, NextKey, Clean, NoFloat;
    var c, end := k + 2 * depth + |f.key| + 3, k + |FieldText(f, depth)|;
    FirstField(s, i, k, f, depth, more);
    if Survives(f.value) {
      SpacesAt(s, end, sep);
      FieldsUnfold(s, i, acc, f.key, c, c + 1, f.value, end, sep);
    } else {
      FieldsFail(s, i, acc, f.key, c, c + 1);
    }
  }

  lemma {:induction false} FieldsParse(s: string, i: nat, k: nat, fields: seq<Field>, depth: nat,
      acc: seq<Field>, e: nat)
    requires forall x | 0 <= x < |fields| :: CleanField(fields[x]) && NoFloat(fields[x].value)
    requires Sorted(StringLess, acc + fields)
    requires BlankRun(s, i, k) && At(s, k, FieldsText(fields, depth))
    requires BlankRun(s, k + |FieldsText(fields, depth)|, e) && e < |s| && s[e] == '}'
    ensures ParseFields(s, i, acc) == if FieldsSurvive(fields) then Parsed(acc + fields, e + 1) else Malformed
    decreases fields, 0
  {
    hide FieldText, ParseFields, Spaces, Add, CStr, Sorted, Clean, NoFloat, Survives, FieldsSurvive, At;
    if fields == [] {
      SpacesAt(s, i, e);
      FieldsClose(s, i, acc, e);
      assert acc + fields == acc;
      assert FieldsSurvive(fields) by { NothingToSurvive(); }
    } else {
      var f, line := fields[0], FieldText(fields[0], depth);
      FieldAppends(acc, fields);
      FieldsSurviveSplit(fields);
      if |fields| == 1 {
        assert line + [] == line;
        FieldStep(s, i, k, f, depth, acc, [], e);
        SpacesAt(s, e, e);
        FieldsClose(s, e, acc + [f], e);
        assert acc + fields == acc + [f] && fields[1..] == [];
        NothingToSurvive();
      } else {
        var rest := FieldsText(fields[1..], depth);
        SeparatorAt(s, k, line, rest);
        FieldStep(s, i, k, f, depth, acc, ",\n" + rest, k + |line|);
        FieldsParse(s, k + |line| + 1, k + |line| + 2, fields[1..], depth, acc + [f], e);
      }
    }
  }

  lemma NothingToSurvive()
    ensures FieldsSurvive([])
  {
  }

  lemma FieldsSurviveSplit(fields: seq<Field>)
    requires fields != []
    ensures FieldsSurvive(fields) <==> Survives(fields[0].value) && FieldsSurvive(fields[1..])
  {
    if Survives(fields[0].value) && FieldsSurvive(fields[1..]) {
      forall i | 0 <= i < |fields| ensures Survives(fields[i].value) {
        if i > 0 { assert fields[1..][i - 1] == fields[i]; }
      }
    }
  }

  lemma {:induction false} FieldValueText(s: string, i: nat, f: Field, depth: nat)
    requires CleanField(f)
    requires At(s, i, Text(f.value, depth + 1)) && EndsNumber(s, i + |Text(f.value, depth + 1)|)
    ensures i < |s| && ParseToken(s, i) == Read(f.value, i + |Text(f.value, depth + 1)|)
    decreases f, 0
  {
    hide *;
    assert Clean(f.value) && NoFloat(f.value) by { CleanParts(f); }
    TokenText(s, i, f.value, depth + 1);
  }

  lemma CleanParts(f: Field)
    requires CleanField(f)
    ensures Clean(f.value) && NoFloat(f.value)
  {
  }

  // ---------------------------------------------------------------- main results

  lemma AtStart(t: string, rest: string)
    ensures At(t + rest, 0, t)
    ensures EndsNumber(rest, 0) ==> EndsNumber(t + rest, |t|)
  {
    assert |t| < |t + rest| ==> (t + rest)[|t|] == rest[0];
  }

  ghost function CleanText(v: Json, depth: nat): string
    requires Clean(v)
  {
    CleanHasNoFloat(v);
    Text(v, depth)
  }

  // toString then Parse is the identity on clean values without INT32_MIN, at every depth,
  // with or without the first indentation, whatever follows (as long as it does not extend a
  // number); a clean value with INT32_MIN anywhere in it prints to a text Parse rejects.
  lemma PrintParseRoundTrip(v: Json, depth: nat, indentFirstLine: bool, rest: string)
    requires Clean(v) && EndsNumber(rest, 0)
    ensures var t := (if indentFirstLine then Indent(depth) else []) + CleanText(v, depth);
      && (Survives(v) ==> ParseValue(t + rest, 0) == Parsed(v, |t|))
      && (!Survives(v) ==> ParseValue(t + rest, 0) == Malformed)
  {
    hide Text, ParseToken, Spaces, Clean, NoFloat, EndsNumber, At;
    CleanHasNoFloat(v);
    var blanks := if indentFirstLine then Indent(depth) else [];
    var t := blanks + Text(v, depth);
    var s := t + rest;
    AtStart(t, rest);
    AtSplit(s, 0, blanks, Text(v, depth));
    TextStart(v, depth);
    TokenText(s, |blanks|, v, depth);
    assert s[|blanks|] == Text(v, depth)[0];
    SpacesAt(s, 0, |blanks|) by {
      assert forall x | 0 <= x < |blanks| :: s[x] == blanks[x];
    }
  }

  // INT32_MIN is a value whose text is rejected.
  lemma PrintedInt32MinIsRejected()
    ensures ParseValue(Text(Int(INT32_MIN), 0), 0) == Malformed
  {
    hide ParseValue, Digits, Print;
    var v := Int(INT32_MIN);
    PrintParseRoundTrip(v, 0, false, []);
    assert [] + Text(v, 0) + [] == Text(v, 0);
  }
}
