// The layout of a printed text and the letters of the escapes, and what the parser tolerates
// beyond what is printed.
module JsonFormat {
  import opened KeyedVector
  import opened Decimal
  import opened JsonValue
  import opened JsonParser
  import opened JsonPrinter
  import opened JsonRoundTrip
  import opened CText

  // Section 7 of RFC 8259: the letter of each escape, and the code of the byte it stands for.
  const LETTERS: seq<(char, int)> :=
    [('"', 0x22), ('\\', 0x5c), ('/', 0x2f), ('b', 0x08), ('f', 0x0c), ('n', 0x0a), ('r', 0x0d), ('t', 0x09)]

  // The bytes that are escaped are those of the table, each by its letter; every other byte stands
  // for itself.
  lemma EscapesAreLetters(c: char)
    ensures IsSpecial(c) <==> exists x :: 0 <= x < |LETTERS| && LETTERS[x].1 == c as int
    ensures forall x | 0 <= x < |LETTERS| && LETTERS[x].1 == c as int :: EscapeChar(c) == ['\\', LETTERS[x].0]
    ensures !IsSpecial(c) ==> EscapeChar(c) == [c]
  {
    if IsSpecial(c) {
      assert LETTERS[0].1 == c as int || LETTERS[1].1 == c as int || LETTERS[2].1 == c as int
          || LETTERS[3].1 == c as int || LETTERS[4].1 == c as int || LETTERS[5].1 == c as int
          || LETTERS[6].1 == c as int || LETTERS[7].1 == c as int;
    }
  }

  // The parser knows the same letters and no other.
  lemma LettersAreUnescaped(letter: char)
    ensures IsEscape(letter) <==> exists x :: 0 <= x < |LETTERS| && LETTERS[x].0 == letter
    ensures forall x | 0 <= x < |LETTERS| && LETTERS[x].0 == letter :: Unescape(letter) as int == LETTERS[x].1
  {
    if IsEscape(letter) {
      assert LETTERS[0].0 == letter || LETTERS[1].0 == letter || LETTERS[2].0 == letter || LETTERS[3].0 == letter
          || LETTERS[4].0 == letter || LETTERS[5].0 == letter || LETTERS[6].0 == letter || LETTERS[7].0 == letter;
    }
  }

  // Blanks are tab, newline, vertical tab, form feed, carriage return and space.
  lemma Blanks(c: char)
    ensures IsSpace(c) <==> c as int in {9, 10, 11, 12, 13, 32}
  {
  }

  // Lines with a comma and a newline between them.
  function Lines(ls: seq<string>): string {
    if ls == [] then "" else if |ls| == 1 then ls[0] else ls[0] + ",\n" + Lines(ls[1..])
  }

  predicate IsBlank(b: string, n: nat) { |b| == n && forall x | 0 <= x < n :: b[x] == ' ' }

  lemma {:induction false} ItemsAreLines(items: seq<Json>, depth: nat, b: string, ls: seq<string>)
    requires (forall x | 0 <= x < |items| :: NoFloat(items[x])) && IsBlank(b, 2 * depth)
    requires |ls| == |items| && forall x | 0 <= x < |items| :: ls[x] == b + Text(items[x], depth)
    ensures ItemsText(items, depth) == Lines(ls)
  {
    hide Text, NoFloat;
    assert Indent(depth) == b;
    if items != [] {
      ItemsAreLines(items[1..], depth, b, ls[1..]);
    }
  }

  // An array is printed one element a line, each two blanks deeper than the array's own depth,
  // with the closing bracket on a line of its own.
  lemma ArrayLayout(items: seq<Json>, depth: nat, b: string, c: string, ls: seq<string>)
    requires NoFloat(Array(items)) && IsBlank(b, 2 * depth + 2) && IsBlank(c, 2 * depth)
    requires |ls| == |items| && forall x | 0 <= x < |items| :: ls[x] == b + Text(items[x], depth + 1)
    ensures Text(Array(items), depth) == "[\n" + Lines(ls) + "\n" + c + "]"
  {
    hide ItemsText;
    ItemsAreLines(items, depth + 1, b, ls);
    assert Indent(depth) == c;
  }

  lemma {:induction false} FieldsAreLines(fields: seq<Field>, depth: nat, b: string, ls: seq<string>)
    requires (forall x | 0 <= x < |fields| :: NoFloat(fields[x].value)) && IsBlank(b, 2 * depth) && |ls| == |fields|
    requires forall x | 0 <= x < |fields| ::
      ls[x] == b + "\"" + Escape(fields[x].key) + "\": " + Text(fields[x].value, depth + 1)
    ensures FieldsText(fields, depth) == Lines(ls)
  {
    hide Text, NoFloat, Escape;
    assert Indent(depth) == b;
    if fields != [] {
      FieldsAreLines(fields[1..], depth, b, ls[1..]);
    }
  }

  // So is an object, field by field, a value of its own being printed two levels deeper.
  lemma ObjectLayout(fields: seq<Field>, depth: nat, b: string, c: string, ls: seq<string>)
    requires NoFloat(Object(fields)) && IsBlank(b, 2 * depth + 2) && IsBlank(c, 2 * depth) && |ls| == |fields|
    requires forall x | 0 <= x < |fields| ::
      ls[x] == b + "\"" + Escape(fields[x].key) + "\": " + Text(fields[x].value, depth + 2)
    ensures Text(Object(fields), depth) == "{\n" + Lines(ls) + "\n" + c + "}"
  {
    hide FieldsText, FieldText, Escape, Lines, IsBlank;
    FieldsAreLines(fields, depth + 1, b, ls);
    BlankIsIndent(c, depth);
  }

  lemma BlankIsIndent(b: string, depth: nat)
    requires IsBlank(b, 2 * depth)
    ensures b == Indent(depth)
  {
  }

  // Behind an element only a comma or the closing bracket will do.
  lemma ElementNeedsSeparator(s: string, i: nat, acc: seq<Json>)
    requires i <= |s|
    requires var j := Spaces(s, i); j < |s| && s[j] != ']' && ParseValue(s, j).Parsed?
    ensures var k := Spaces(s, ParseValue(s, Spaces(s, i)).end);
      k == |s| || s[k] !in {',', ']'} ==> ParseItems(s, i, acc) == Malformed
  {
    hide ParseValue, Spaces;
  }

  // A key is a string with a colon behind it, and behind its value only a comma or the closing brace
  // will do.
  lemma KeyNeedsColon(s: string, i: nat, acc: seq<Field>)
    requires i <= |s|
    requires var j := Spaces(s, i); j < |s| && s[j] != '}' && ParseValue(s, j).Parsed?
    ensures var key := ParseValue(s, Spaces(s, i));
      var colon := Spaces(s, key.end);
      !key.value.Str? || colon == |s| || s[colon] != ':' ==> ParseFields(s, i, acc) == Malformed
  {
    hide ParseValue, Spaces;
    if NextKey(s, i) == Bad {
      assert NextField(s, i) == Bad;
    }
  }

  lemma FieldNeedsSeparator(s: string, i: nat, acc: seq<Field>, key: string, n: nat)
    requires i <= |s| && NextKey(s, i) == Next(key, n) && n <= |s| && ParseValue(s, n).Parsed?
    ensures var k := Spaces(s, ParseValue(s, n).end);
      k == |s| || s[k] !in {',', '}'} ==> ParseFields(s, i, acc) == Malformed
  {
    hide ParseValue, Spaces, NextKey;
  }

  lemma WordStarts(s: string, i: nat, word: string)
    requires word != ""
    ensures StartsWith(s, i, word) ==> i < |s| && s[i] == word[0]
  {
  }

  // A value begins with a bracket, a brace, a quote, a digit, a minus or the letter of a word.
  lemma ValueNeedsStart(s: string, i: nat)
    requires i <= |s|
    requires var j := Spaces(s, i); j == |s| || (!IsDigit(s[j]) && s[j] !in {'[', '{', '"', '-', 'n', 't', 'f'})
    ensures ParseValue(s, i) == Malformed
  {
    hide Spaces, StartsWith;
    var j := Spaces(s, i);
    WordStarts(s, j, "null");
    WordStarts(s, j, "true");
    WordStarts(s, j, "false");
  }

  // A comma in front of the closing bracket is tolerated: "[1,]" is read as [1].
  lemma TrailingCommaIsTolerated()
    ensures ParseValue("[1,]", 0) == Parsed(Array([Int(1)]), 4)
  {
    var s := "[1,]";
    SpacesAt(s, 0, 0);
    SpacesAt(s, 1, 1);
    SpacesAt(s, 2, 2);
    SpacesAt(s, 3, 3);
    assert Print(1) == "1" && At(s, 1, Print(1));
    NumberText(s, 1, 1);
    ItemsUnfold(s, 1, [], 1, Int(1), 2, 2);
    ItemsClose(s, 3, [Int(1)], 3);
    assert [] + [Int(1)] == [Int(1)];
  }

  // A key that is there already has its value replaced, and its place stays.
  lemma LaterValueWins(fields: seq<Field>, key: string, v: Json, w: Json)
    requires SortedKeys(fields) && '\0' !in key
    ensures Add(StringLess, Add(StringLess, fields, key, v), key, w) == Add(StringLess, fields, key, w)
  {
    StringLessIsOrder();
    AddTwice(fields, key, v, w);
  }

  lemma {:induction false} AddTwice(fields: seq<Field>, key: string, v: Json, w: Json)
    requires StrictOrder(StringLess)
    ensures Add(StringLess, Add(StringLess, fields, key, v), key, w) == Add(StringLess, fields, key, w)
  {
    hide StringLess;
    if fields != [] && !StringLess(key, fields[0].key) && fields[0].key != key {
      AddTwice(fields[1..], key, v, w);
      assert Add(StringLess, fields, key, v)[1..] == Add(StringLess, fields[1..], key, v);
    }
  }
}
