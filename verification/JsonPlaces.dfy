// Where a printed text is inside of a string and where it is not, and what becomes of a parser
// that takes the one for the other: it never gets back in step.
module JsonPlaces {
  import opened KeyedVector
  import opened Decimal
  import opened JsonValue
  import opened JsonParser
  import opened JsonPrinter
  import opened JsonRoundTrip
  import opened CText

  // ---------------------------------------------------------------- strings as the printer means them

  // Outside of a string, just behind one, in one, behind its backslash. A printed text is never
  // broken: no backslash outside of a string, and no two strings next to each other.
  datatype Place = Out | Closed | In | Esc | Broken

  function After(p: Place, c: char): Place {
    match p
    case Out => if c == '"' then In else if c == '\\' then Broken else Out
    case Closed => if c == '"' || c == '\\' then Broken else Out
    case In => if c == '"' then Closed else if c == '\\' then Esc else In
    case Esc => In
    case Broken => Broken
  }

  function PlaceAt(s: string, i: nat): Place
    requires i <= |s|
  {
    if i == 0 then Out else After(PlaceAt(s, i - 1), s[i - 1])
  }

  predicate Outside(p: Place) { p == Out || p == Closed }

  predicate Within(p: Place) { p == In || p == Esc }

  predicate Tidy(s: string) { Outside(PlaceAt(s, |s|)) }

  lemma {:induction false} NeverBroken(s: string, i: nat)
    requires Tidy(s) && i <= |s|
    ensures PlaceAt(s, i) != Broken
    decreases |s| - i
  {
    if i < |s| {
      NeverBroken(s, i + 1);
    }
  }

  predicate Ordinary(c: char) { c != '"' && c != '\\' }

  lemma {:induction false} StaysIn(s: string, i: nat, j: nat)
    requires i <= j <= |s| && PlaceAt(s, i) == In && forall x | i <= x < j :: Ordinary(s[x])
    ensures PlaceAt(s, j) == In
    decreases j - i
  {
    if i < j {
      StaysIn(s, i + 1, j);
    }
  }

  lemma {:induction false} StaysOut(s: string, i: nat, j: nat)
    requires i < j <= |s| && Outside(PlaceAt(s, i)) && forall x | i <= x < j :: Ordinary(s[x])
    ensures PlaceAt(s, j) == Out
    decreases j - i
  {
    assert PlaceAt(s, i + 1) == Out;
    if i + 1 < j {
      StaysOut(s, i + 1, j);
    }
  }

  // ---------------------------------------------------------------- a parser gone astray

  // What is read ends where the printer was inside of a string.
  predicate Strays<T>(s: string, r: Outcome<T>) {
    r.Parsed? ==> r.end <= |s| && PlaceAt(s, r.end) == In
  }

  // A string that is opened outside ends inside.
  lemma {:induction false} ScanFromOutside(s: string, i: nat, acc: string)
    requires Tidy(s) && i <= |s| && Outside(PlaceAt(s, i))
    ensures Strays(s, ScanString(s, i, false, acc))
    decreases |s| - i
  {
    if i < |s| {
      NeverBroken(s, i + 1);
      if s[i] != '"' {
        ScanFromOutside(s, i + 1, acc + [s[i]]);
      }
    }
  }

  lemma {:induction false} SpacesStray(s: string, i: nat)
    requires i <= |s| && PlaceAt(s, i) == In
    ensures PlaceAt(s, Spaces(s, i)) == In
    decreases |s| - i
  {
    if i < |s| && IsSpace(s[i]) {
      SpacesStray(s, i + 1);
    }
  }

  lemma {:induction false} DigitsStray(s: string, i: nat)
    requires i <= |s| && PlaceAt(s, i) == In
    ensures PlaceAt(s, DigitsEnd(s, i)) == In
    decreases |s| - i
  {
    if i < |s| && IsDigit(s[i]) {
      DigitsStray(s, i + 1);
    }
  }

  lemma NumberStrays(s: string, i: nat)
    requires i < |s| && PlaceAt(s, i) == In && (IsDigit(s[i]) || s[i] == '-')
    ensures Strays(s, ParseNumber(s, i))
  {
    hide NumberOf, DigitsEnd, PlaceAt;
    var first := if s[i] == '-' then i + 1 else i;
    NextStays(s, i);
    DigitsStray(s, first);
    var e := DigitsEnd(s, first);
    FractionStrays(s, e);
    if ScanFraction(s, e).Some? {
      ExponentStrays(s, ScanFraction(s, e).value.1);
    }
  }

  lemma NextStays(s: string, i: nat)
    requires i < |s| && PlaceAt(s, i) == In && Ordinary(s[i])
    ensures PlaceAt(s, i + 1) == In
  {
  }

  lemma FractionStrays(s: string, k: nat)
    requires k <= |s| && PlaceAt(s, k) == In
    ensures var r := ScanFraction(s, k); r.Some? ==> PlaceAt(s, r.value.1) == In
  {
    hide DigitsEnd, PlaceAt;
    if k < |s| && s[k] == '.' {
      NextStays(s, k);
      DigitsStray(s, k + 1);
    }
  }

  lemma ExponentStrays(s: string, k: nat)
    requires k <= |s| && PlaceAt(s, k) == In
    ensures var r := ScanExponent(s, k); r.Some? ==> PlaceAt(s, r.value.2) == In
  {
    hide DigitsEnd, PlaceAt;
    if k + 1 < |s| && (s[k] == 'e' || s[k] == 'E') {
      NextStays(s, k);
      if s[k + 1] == '+' || s[k + 1] == '-' {
        NextStays(s, k + 1);
        DigitsStray(s, k + 2);
      } else {
        DigitsStray(s, k + 1);
      }
    }
  }

  lemma WordStrays(s: string, i: nat, word: string)
    requires i <= |s| && PlaceAt(s, i) == In && StartsWith(s, i, word) && forall c | c in word :: Ordinary(c)
    ensures PlaceAt(s, i + |word|) == In
  {
    forall x | i <= x < i + |word| ensures Ordinary(s[x]) {
      assert s[x] == s[i..i + |word|][x - i] == word[x - i];
    }
    StaysIn(s, i, i + |word|);
  }

  lemma {:induction false} ValueStrays(s: string, i: nat)
    requires Tidy(s) && i <= |s| && PlaceAt(s, i) == In
    ensures Strays(s, ParseValue(s, i))
    decreases |s| - i, 1
  {
    hide ParseToken, PlaceAt, Spaces;
    SpacesStray(s, i);
    if Spaces(s, i) < |s| {
      TokenStrays(s, Spaces(s, i));
    }
  }

  lemma {:induction false} TokenStrays(s: string, i: nat)
    requires Tidy(s) && i < |s| && PlaceAt(s, i) == In
    ensures Strays(s, ParseToken(s, i))
    decreases |s| - i, 0
  {
    hide ScanString, ParseNumber, ParseItems, ParseFields, StartsWith;
    if s[i] == '[' {
      ItemsStray(s, i + 1, []);
    } else if s[i] == '{' {
      FieldsStray(s, i + 1, []);
    } else if s[i] == '"' {
      ScanFromOutside(s, i + 1, []);
    } else if IsDigit(s[i]) || s[i] == '-' {
      NumberStrays(s, i);
    } else if StartsWith(s, i, "null") {
      WordStrays(s, i, "null");
    } else if StartsWith(s, i, "true") {
      WordStrays(s, i, "true");
    } else if StartsWith(s, i, "false") {
      WordStrays(s, i, "false");
    }
  }

  predicate RoundStrays<T>(s: string, r: Round<T>) {
    && (r.Close? ==> r.end <= |s| && PlaceAt(s, r.end) == In)
    && (r.Next? ==> r.next <= |s| && PlaceAt(s, r.next) == In)
  }

  lemma {:induction false} ItemStrays(s: string, i: nat)
    requires Tidy(s) && i <= |s| && PlaceAt(s, i) == In
    ensures RoundStrays(s, NextItem(s, i))
    decreases |s| - i, 2
  {
    hide ParseValue, PlaceAt, Spaces;
    SpacesStray(s, i);
    var j := Spaces(s, i);
    if j < |s| && s[j] == ']' {
      NextStays(s, j);
    } else if j < |s| {
      ValueStrays(s, j);
      AfterItemStrays(s, i);
    }
  }

  // Once a value ended inside of a string, its round does.
  lemma AfterItemStrays(s: string, i: nat)
    requires i <= |s| && Spaces(s, i) < |s| && s[Spaces(s, i)] != ']'
    requires Strays(s, ParseValue(s, Spaces(s, i)))
    ensures RoundStrays(s, NextItem(s, i))
  {
    hide ParseValue, PlaceAt, Spaces;
    var r := ParseValue(s, Spaces(s, i));
    if r.Parsed? {
      SpacesStray(s, r.end);
      var k := Spaces(s, r.end);
      if k < |s| && s[k] == ',' {
        NextStays(s, k);
      }
    }
  }

  lemma {:induction false} ItemsStray(s: string, i: nat, acc: seq<Json>)
    requires Tidy(s) && i <= |s| && PlaceAt(s, i) == In
    ensures Strays(s, ParseItems(s, i, acc))
    decreases |s| - i, 3
  {
    hide NextItem, PlaceAt;
    ItemStrays(s, i);
    var r := NextItem(s, i);
    if r.Next? {
      ItemsStray(s, r.next, acc + [r.item]);
    }
  }

  lemma {:induction false} KeyStrays(s: string, i: nat)
    requires Tidy(s) && i <= |s| && PlaceAt(s, i) == In
    ensures RoundStrays(s, NextKey(s, i))
    decreases |s| - i, 2
  {
    hide ParseValue, PlaceAt, Spaces;
    SpacesStray(s, i);
    var j := Spaces(s, i);
    if j < |s| && s[j] == '}' {
      NextStays(s, j);
    } else if j < |s| {
      ValueStrays(s, j);
      AfterStringStrays(s, i);
    }
  }

  lemma AfterStringStrays(s: string, i: nat)
    requires i <= |s| && Spaces(s, i) < |s| && s[Spaces(s, i)] != '}'
    requires Strays(s, ParseValue(s, Spaces(s, i)))
    ensures RoundStrays(s, NextKey(s, i))
  {
    hide ParseValue, PlaceAt, Spaces;
    var r := ParseValue(s, Spaces(s, i));
    if r.Parsed? {
      SpacesStray(s, r.end);
      var k := Spaces(s, r.end);
      if k < |s| && s[k] == ':' {
        NextStays(s, k);
      }
    }
  }

  lemma {:induction false} FieldStrays(s: string, i: nat)
    requires Tidy(s) && i <= |s| && PlaceAt(s, i) == In
    ensures RoundStrays(s, NextField(s, i))
    decreases |s| - i, 3
  {
    hide NextKey, PlaceAt, ParseValue, Spaces;
    KeyStrays(s, i);
    var key := NextKey(s, i);
    if key.Next? {
      ValueStrays(s, key.next);
      AfterValueStrays(s, i);
    }
  }

  lemma AfterValueStrays(s: string, i: nat)
    requires i <= |s| && NextKey(s, i).Next? && Strays(s, ParseValue(s, NextKey(s, i).next))
    ensures RoundStrays(s, NextField(s, i))
  {
    hide ParseValue, PlaceAt, Spaces, NextKey;
    var r := ParseValue(s, NextKey(s, i).next);
    if r.Parsed? {
      SpacesStray(s, r.end);
      var k := Spaces(s, r.end);
      if k < |s| && s[k] == ',' {
        NextStays(s, k);
      }
    }
  }

  lemma {:induction false} FieldsStray(s: string, i: nat, acc: seq<Field>)
    requires Tidy(s) && i <= |s| && PlaceAt(s, i) == In
    ensures Strays(s, ParseFields(s, i, acc))
    decreases |s| - i, 4
  {
    hide NextField, PlaceAt, Add, CStr;
    FieldStrays(s, i);
    var r := NextField(s, i);
    if r.Next? {
      FieldsStray(s, r.next, Add(StringLess, acc, CStr(r.item.0), r.item.1));
    }
  }

  // ---------------------------------------------------------------- one string

  // The bytes between two quotes as they are printed: content up to the closing quote at c.
  ghost predicate Content(s: string, i: nat, c: nat) {
    && i <= c < |s| && s[c] == '"' && PlaceAt(s, c) == In
    && forall x | i <= x <= c :: Within(PlaceAt(s, x))
  }

  // A string literal is read up to its own closing quote, or it ends where the printer was
  // inside of a string.
  lemma {:induction false} ScanContent(s: string, i: nat, escaped: bool, acc: string, c: nat)
    requires Tidy(s) && i <= |s| && Content(s, i, c)
    ensures var r := ScanString(s, i, escaped, acc);
      r.Parsed? ==> r.end <= |s| && (r.end == c + 1 || PlaceAt(s, r.end) == In)
    decreases |s| - i
  {
    if escaped {
      if IsEscape(s[i]) && i + 1 < |s| {
        var acc' := acc + [Unescape(s[i]), s[i + 1]];
        if i + 2 <= c {
          ScanContent(s, i + 2, false, acc', c);
        } else {
          assert PlaceAt(s, c + 1) == Closed;
          NeverBroken(s, i + 2);
          ScanFromOutside(s, i + 2, acc');
        }
      }
    } else if s[i] == '"' {
      if i < c {
        assert Within(PlaceAt(s, i + 1));
      }
    } else {
      ScanContent(s, i + 1, s[i] == '\\', acc + [s[i]], c);
    }
  }

  // Every byte read gives one byte of the string; a backslash gives a backslash, and only a
  // NUL gives a NUL.
  lemma {:induction false} ScanBytes(s: string, i: nat, escaped: bool, acc: string)
    requires i <= |s|
    ensures var r := ScanString(s, i, escaped, acc);
      r.Parsed? ==>
        && acc <= r.value && |r.value| == |acc| + (r.end - 1 - i)
        && forall x | i <= x < r.end - 1 ::
             && (s[x] == '\\' ==> r.value[|acc| + (x - i)] == '\\')
             && (s[x] != '\0' ==> r.value[|acc| + (x - i)] != '\0')
    decreases |s| - i
  {
    if i < |s| {
      if escaped {
        if IsEscape(s[i]) && i + 1 < |s| {
          ScanBytes(s, i + 2, false, acc + [Unescape(s[i]), s[i + 1]]);
        }
      } else if s[i] != '"' {
        ScanBytes(s, i + 1, s[i] == '\\', acc + [s[i]]);
      }
    }
  }

  lemma {:induction false} EscapeBytes(t: string)
    ensures !Plain(t) ==> '\\' in Escape(t)
    ensures '\0' !in t ==> '\0' !in Escape(t)
  {
    if t != [] {
      var front := t[..|t| - 1];
      EscapeBytes(front);
      assert t == front + [t[|t| - 1]];
    }
  }

  // Escaped bytes never leave the string they stand in.
  lemma {:induction false} EscapeStaysWithin(s: string, i: nat, t: string)
    requires At(s, i, Escape(t)) && i <= |s| && PlaceAt(s, i) == In
    ensures var c := i + |Escape(t)|; PlaceAt(s, c) == In && forall x | i <= x <= c :: Within(PlaceAt(s, x))
  {
    if t != [] {
      var front, last := t[..|t| - 1], t[|t| - 1];
      AtSplit(s, i, Escape(front), EscapeChar(last));
      EscapeStaysWithin(s, i, front);
      CharStaysWithin(s, i + |Escape(front)|, last);
    }
  }

  lemma CharStaysWithin(s: string, i: nat, c: char)
    requires At(s, i, EscapeChar(c)) && i <= |s| && PlaceAt(s, i) == In
    ensures var e := i + |EscapeChar(c)|; PlaceAt(s, e) == In && forall x | i <= x <= e :: Within(PlaceAt(s, x))
  {
    assert s[i] == EscapeChar(c)[0];
    if IsSpecial(c) {
      assert s[i] == '\\' && PlaceAt(s, i + 1) == Esc && PlaceAt(s, i + 2) == In;
    }
  }

  // Where the parts of a printed string lie.
  lemma QuotedShape(s: string, i: nat, t: string)
    requires At(s, i, "\"" + Escape(t) + "\"") && i <= |s| && PlaceAt(s, i) == Out
    ensures var c := i + 1 + |Escape(t)|;
      && c < |s| && s[i] == '"' && At(s, i + 1, Escape(t)) && Content(s, i + 1, c) && PlaceAt(s, c + 1) == Closed
  {
    hide Escape;
    var e := Escape(t);
    AtSplit(s, i, "\"" + e, "\"");
    AtSplit(s, i, "\"", e);
    AtChar(s, i, '"');
    AtChar(s, i + 1 + |e|, '"');
    assert PlaceAt(s, i + 1) == In;
    EscapeStaysWithin(s, i + 1, t);
  }

  // What a printed string is read as, when it is read up to its own closing quote.
  ghost predicate ReadAs(t: string, u: string) {
    && (Plain(t) ==> u == t)
    && (!Plain(t) ==> '\\' in u && |u| > |t|)
    && ('\0' !in t ==> '\0' !in u)
  }

  // Astray, or read up to e.
  ghost predicate StringRead(s: string, e: nat, t: string, r: Outcome<string>) {
    r.Parsed? ==> r.end <= |s| && (PlaceAt(s, r.end) == In || (r.end == e && ReadAs(t, r.value)))
  }

  lemma QuotedRead(s: string, i: nat, t: string)
    requires Tidy(s) && i <= |s| && PlaceAt(s, i) == Out && At(s, i, "\"" + Escape(t) + "\"")
    ensures i < |s| && s[i] == '"'
    ensures StringRead(s, i + |Escape(t)| + 2, t, ScanString(s, i + 1, false, []))
  {
    hide ScanString, Escape, PlaceAt, Plain;
    QuotedShape(s, i, t);
    EscapeLength(t);
    EscapeBytes(t);
    ScanContent(s, i + 1, false, [], i + 1 + |Escape(t)|);
    ScanBytes(s, i + 1, false, []);
    var r := ScanString(s, i + 1, false, []);
    if r.Parsed? && r.end == i + |Escape(t)| + 2 {
      if Plain(t) {
        StringText(s, i, t);
        assert ParseToken(s, i) == AsString(r);
      } else {
        var x :| 0 <= x < |Escape(t)| && Escape(t)[x] == '\\';
        assert s[i + 1 + x] == '\\' && r.value[x] == '\\';
      }
      if '\0' !in t {
        forall x | 0 <= x < |r.value| ensures r.value[x] != '\0' {
          assert s[i + 1 + x] == Escape(t)[x] && Escape(t)[x] in Escape(t);
        }
      }
    }
  }

  // ---------------------------------------------------------------- printed texts are tidy

  lemma BlanksStayOut(s: string, i: nat, j: nat)
    requires BlankRun(s, i, j) && Outside(PlaceAt(s, i)) && (PlaceAt(s, i) == Out || i < j)
    ensures PlaceAt(s, j) == Out
  {
    if i < j {
      StaysOut(s, i, j);
    }
  }

  lemma CharStaysOut(s: string, i: nat)
    requires i < |s| && Outside(PlaceAt(s, i)) && Ordinary(s[i])
    ensures PlaceAt(s, i + 1) == Out
  {
  }

  lemma OrdinaryStaysOut(s: string, i: nat, t: string)
    requires At(s, i, t) && t != [] && Outside(PlaceAt(s, i)) && forall c | c in t :: Ordinary(c)
    ensures PlaceAt(s, i + |t|) == Out
  {
    forall x | i <= x < i + |t| ensures Ordinary(s[x]) {
      assert s[i + (x - i)] == t[x - i];
    }
    StaysOut(s, i, i + |t|);
  }

  lemma {:induction false} TextStaysOut(s: string, i: nat, v: Json, depth: nat)
    requires NoFloat(v) && At(s, i, Text(v, depth)) && PlaceAt(s, i) == Out
    ensures Outside(PlaceAt(s, i + |Text(v, depth)|))
    decreases v, 2
  {
    hide Escape, ItemsText, FieldsText, PlaceAt, Digits;
    match v {
      case Null => OrdinaryStaysOut(s, i, "null");
      case Bool(b) => OrdinaryStaysOut(s, i, if b then "true" else "false");
      case Int(n) => OrdinaryStaysOut(s, i, Print(n));
      case Str(t) => QuotedShape(s, i, t);
      case Array(items) => ArrayStaysOut(s, i, items, depth);
      case Object(fields) => ObjectStaysOut(s, i, fields, depth);
    }
  }

  // Brackets and blanks around lines that are tidy.
  lemma CompoundStaysOut(s: string, i: nat, lines: nat, e: nat)
    requires i < lines <= e < |s| && Ordinary(s[e])
    requires BlankRun(s, lines, e) && Outside(PlaceAt(s, lines)) && (PlaceAt(s, lines) == Out || lines < e)
    ensures PlaceAt(s, e + 1) == Out
  {
    BlanksStayOut(s, lines, e);
  }

  lemma {:induction false} ArrayStaysOut(s: string, i: nat, items: seq<Json>, depth: nat)
    requires NoFloat(Array(items)) && At(s, i, Text(Array(items), depth)) && PlaceAt(s, i) == Out
    ensures Outside(PlaceAt(s, i + |Text(Array(items), depth)|))
    decreases items, 1
  {
    hide ItemsText, PlaceAt, At;
    var lines := ItemsText(items, depth + 1);
    CompoundShape(s, i, '[', lines, Indent(depth), ']');
    CharStaysOut(s, i);
    BlanksStayOut(s, i + 1, i + 2);
    ItemsStayOut(s, i + 2, items, depth + 1);
    CompoundStaysOut(s, i, i + 2 + |lines|, i + 3 + |lines| + 2 * depth);
  }

  lemma {:induction false} ItemsStayOut(s: string, k: nat, items: seq<Json>, depth: nat)
    requires forall x | 0 <= x < |items| :: NoFloat(items[x])
    requires At(s, k, ItemsText(items, depth)) && PlaceAt(s, k) == Out
    ensures Outside(PlaceAt(s, k + |ItemsText(items, depth)|))
    decreases items, 0
  {
    hide Text, PlaceAt, At, Indent;
    if items != [] {
      var t := Text(items[0], depth);
      var rest := if |items| > 1 then ",\n" + ItemsText(items[1..], depth) else [];
      assert ItemsText(items, depth) == Indent(depth) + t + rest;
      AtSplit(s, k, Indent(depth) + t, rest);
      AtSplit(s, k, Indent(depth), t);
      IndentAt(s, k, depth);
      BlanksStayOut(s, k, k + 2 * depth);
      TextStaysOut(s, k + 2 * depth, items[0], depth);
      if |items| > 1 {
        SeparatorStaysOut(s, k, Indent(depth) + t, ItemsText(items[1..], depth));
        ItemsStayOut(s, k + 2 * depth + |t| + 2, items[1..], depth);
      }
    }
  }

  lemma SeparatorStaysOut(s: string, k: nat, line: string, rest: string)
    requires At(s, k, line + (",\n" + rest)) && Outside(PlaceAt(s, k + |line|))
    ensures k + |line| + 2 <= |s| && PlaceAt(s, k + |line| + 2) == Out && At(s, k + |line| + 2, rest)
  {
    hide PlaceAt, At;
    SeparatorAt(s, k, line, rest);
    CharStaysOut(s, k + |line|);
    BlanksStayOut(s, k + |line| + 1, k + |line| + 2);
  }

  lemma {:induction false} ObjectStaysOut(s: string, i: nat, fields: seq<Field>, depth: nat)
    requires NoFloat(Object(fields)) && At(s, i, Text(Object(fields), depth)) && PlaceAt(s, i) == Out
    ensures Outside(PlaceAt(s, i + |Text(Object(fields), depth)|))
    decreases fields, 1
  {
    hide FieldsText, PlaceAt, At;
    var lines := FieldsText(fields, depth + 1);
    CompoundShape(s, i, '{', lines, Indent(depth), '}');
    CharStaysOut(s, i);
    BlanksStayOut(s, i + 1, i + 2);
    FieldsStayOut(s, i + 2, fields, depth + 1);
    CompoundStaysOut(s, i, i + 2 + |lines|, i + 3 + |lines| + 2 * depth);
  }

  // Where the parts of a printed field lie, whatever its key.
  lemma AnyFieldShape(s: string, k: nat, f: Field, depth: nat, more: string)
    requires NoFloat(f.value) && At(s, k, FieldText(f, depth) + more)
    ensures var quote := k + 2 * depth; var colon := quote + |Escape(f.key)| + 2; var t := Text(f.value, depth + 1);
      && BlankRun(s, k, quote) && At(s, quote, "\"" + Escape(f.key) + "\"") && colon < |s| && s[colon] == ':'
      && BlankRun(s, colon + 1, colon + 2) && At(s, colon + 2, t) && At(s, colon + 2 + |t|, more)
      && |FieldText(f, depth)| == 2 * depth + |Escape(f.key)| + 4 + |t|
  {
    hide Text, Escape;
    var indent, key, t := Indent(depth), "\"" + Escape(f.key) + "\"", Text(f.value, depth + 1);
    assert FieldText(f, depth) == indent + key + ":" + " " + t;
    hide *;
    AtSplit(s, k, indent + key + ":" + " " + t, more);
    AtSplit(s, k, indent + key + ":" + " ", t);
    AtSplit(s, k, indent + key + ":", " ");
    AtSplit(s, k, indent + key, ":");
    AtSplit(s, k, indent, key);
    IndentAt(s, k, depth);
    AtChar(s, k + |indent + key|, ':');
    BlankAt(s, k + |indent + key| + 1);
  }

  // A printed field whose text begins outside: where its key and its value begin.
  lemma FieldPlaces(s: string, k: nat, f: Field, depth: nat, more: string)
    requires NoFloat(f.value) && At(s, k, FieldText(f, depth) + more) && PlaceAt(s, k) == Out
    ensures var quote := k + 2 * depth; var colon := quote + |Escape(f.key)| + 2;
      && colon + 2 <= |s| && PlaceAt(s, quote) == Out && PlaceAt(s, colon) == Closed && PlaceAt(s, colon + 2) == Out
  {
    hide PlaceAt, At, Text, Escape, FieldText;
    AnyFieldShape(s, k, f, depth, more);
    var quote := k + 2 * depth;
    var colon := quote + |Escape(f.key)| + 2;
    BlanksStayOut(s, k, quote);
    QuotedShape(s, quote, f.key);
    CharStaysOut(s, colon);
    BlanksStayOut(s, colon + 1, colon + 2);
  }

  lemma {:induction false} FieldsStayOut(s: string, k: nat, fields: seq<Field>, depth: nat)
    requires forall x | 0 <= x < |fields| :: NoFloat(fields[x].value)
    requires At(s, k, FieldsText(fields, depth)) && PlaceAt(s, k) == Out
    ensures Outside(PlaceAt(s, k + |FieldsText(fields, depth)|))
    decreases fields, 0
  {
    hide FieldText, PlaceAt, At;
    if fields != [] {
      var f := fields[0];
      var rest := if |fields| > 1 then ",\n" + FieldsText(fields[1..], depth) else [];
      assert FieldsText(fields, depth) == FieldText(f, depth) + rest;
      AnyFieldShape(s, k, f, depth, rest);
      FieldPlaces(s, k, f, depth, rest);
      ValueStaysOut(s, k + 2 * depth + |Escape(f.key)| + 4, f, depth);
      if |fields| > 1 {
        SeparatorStaysOut(s, k, FieldText(f, depth), FieldsText(fields[1..], depth));
        FieldsStayOut(s, k + |FieldText(f, depth)| + 2, fields[1..], depth);
      }
    }
  }

  lemma {:induction false} ValueStaysOut(s: string, i: nat, f: Field, depth: nat)
    requires NoFloat(f.value) && At(s, i, Text(f.value, depth + 1)) && PlaceAt(s, i) == Out
    ensures Outside(PlaceAt(s, i + |Text(f.value, depth + 1)|))
    decreases f, 0
  {
    TextStaysOut(s, i, f.value, depth + 1);
  }
}
