// Exactly which values survive printing and parsing, strings with escapes included. A string
// that EscapeString rewrites is either read up to its own closing quote and comes back longer,
// or the parser goes astray for good.
module JsonExact {
  import opened KeyedVector
  import opened JsonValue
  import opened JsonParser
  import opened JsonPrinter
  import opened JsonRoundTrip
  import opened JsonPlaces
  import opened JsonFields
  import opened JsonRounds
  import opened CText

  // ---------------------------------------------------------------- printed values

  lemma {:induction false} TokenRead(s: string, i: nat, v: Json, depth: nat)
    requires Tidy(s) && WellFormed(v) && NoFloat(v)
    requires At(s, i, Text(v, depth)) && EndsNumber(s, i + |Text(v, depth)|) && PlaceAt(s, i) == Out
    ensures i < |s| && ValueRead(s, i + |Text(v, depth)|, v, ParseToken(s, i))
    decreases v, 2
  {
    hide Escape, Plain, ItemsText, FieldsText, ParseItems, ParseFields, ScanString, ParseNumber, PlaceAt;
    match v {
      case Null => TokenText(s, i, v, depth);
      case Bool(_) => TokenText(s, i, v, depth);
      case Int(_) => TokenText(s, i, v, depth);
      case Str(t) =>
        if Plain(t) {
          TokenText(s, i, v, depth);
        } else {
          QuotedRead(s, i, t);
        }
      case Array(items) => ArrayRead(s, i, items, depth);
      case Object(fields) => ObjectRead(s, i, fields, depth);
    }
  }

  lemma {:induction false} ArrayRead(s: string, i: nat, items: seq<Json>, depth: nat)
    requires Tidy(s) && WellFormed(Array(items)) && NoFloat(Array(items))
    requires At(s, i, Text(Array(items), depth)) && PlaceAt(s, i) == Out
    ensures i < |s| && ValueRead(s, i + |Text(Array(items), depth)|, Array(items), ParseToken(s, i))
    decreases items, 1
  {
    hide ItemsText, ParseItems, PlaceAt, At, Clean, Survives;
    var lines := ItemsText(items, depth + 1);
    CompoundShape(s, i, '[', lines, Indent(depth), ']');
    CharStaysOut(s, i);
    BlanksStayOut(s, i + 1, i + 2);
    ItemsRead(s, i + 1, i + 2, items, depth + 1, [], i + 3 + |lines| + 2 * depth);
    if AllGood(items) {
      GoodArray(items);
    }
  }

  ghost predicate AllGood(items: seq<Json>) {
    forall x | 0 <= x < |items| :: Good(items[x])
  }

  lemma GoodArray(items: seq<Json>)
    requires AllGood(items)
    ensures Good(Array(items))
  {
  }

  // Astray, or read up to e behind what was there, and as the items themselves only if all
  // of them are good.
  ghost predicate ListRead(s: string, e: nat, acc: seq<Json>, items: seq<Json>, r: Outcome<seq<Json>>) {
    && (r.Parsed? ==> r.end <= |s|)
    && (r.Parsed? && PlaceAt(s, r.end) != In ==>
          r.end == e && acc <= r.value && (r.value == acc + items ==> AllGood(items)))
  }

  // The first printed item of an array, its separator, and the round that reads it.
  lemma {:induction false} FirstRound(s: string, i: nat, k: nat, v: Json, depth: nat, more: string, sep: nat)
    requires Tidy(s) && WellFormed(v) && NoFloat(v)
    requires BlankRun(s, i, k) && PlaceAt(s, k) == Out && At(s, k, Indent(depth) + Text(v, depth) + more)
    requires BlankRun(s, k + 2 * depth + |Text(v, depth)|, sep) && sep < |s| && (s[sep] == ',' || s[sep] == ']')
    ensures ItemRead(s, if s[sep] == ',' then sep + 1 else sep, v, NextItem(s, i))
    decreases v, 4
  {
    hide Text, ParseToken, Spaces, PlaceAt, NextItem, Good, At, NoFloat, WellFormed;
    var t := Text(v, depth);
    var start := k + 2 * depth;
    AtSplit(s, k, Indent(depth) + t, more);
    AtSplit(s, k, Indent(depth), t);
    IndentAt(s, k, depth);
    BlanksStayOut(s, k, start);
    TextStart(v, depth);
    AtFirst(s, start, t);
    SpacesAt(s, i, start);
    SpacesAt(s, start, start);
    TokenRead(s, start, v, depth);
    ItemRound(s, i, start, v, start + |t|, sep);
  }

  lemma AtFirst(s: string, i: nat, t: string)
    requires At(s, i, t) && t != []
    ensures i < |s| && s[i] == t[0]
  {
    assert s[i + 0] == t[0];
  }

  lemma {:induction false} ItemsRead(s: string, i: nat, k: nat, items: seq<Json>, depth: nat, acc: seq<Json>, e: nat)
    requires Tidy(s) && forall x | 0 <= x < |items| :: WellFormed(items[x]) && NoFloat(items[x])
    requires BlankRun(s, i, k) && At(s, k, ItemsText(items, depth)) && PlaceAt(s, k) == Out
    requires BlankRun(s, k + |ItemsText(items, depth)|, e) && e < |s| && s[e] == ']'
    ensures ListRead(s, e + 1, acc, items, ParseItems(s, i, acc))
    decreases items, 0
  {
    hide Text, NextItem, Spaces, PlaceAt, Good, At, Indent, WellFormed, NoFloat;
    if items == [] {
      SpacesAt(s, i, e);
      ItemsClose(s, i, acc, e);
      assert acc + items == acc;
    } else {
      var v, line := items[0], Indent(depth) + Text(items[0], depth);
      var r := NextItem(s, i);
      if |items| == 1 {
        assert line + [] == line;
        FirstRound(s, i, k, v, depth, [], e);
        if r.Next? {
          if PlaceAt(s, r.next) == In {
            ItemsStray(s, r.next, acc + [r.item]);
          } else {
            SpacesAt(s, e, e);
            ItemsClose(s, e, acc + [r.item], e);
            OneMore(acc, r.item, items, acc + [r.item]);
          }
        }
      } else {
        var rest := ItemsText(items[1..], depth);
        SeparatorAt(s, k, line, rest);
        FirstRound(s, i, k, v, depth, ",\n" + rest, k + |line|);
        if r.Next? {
          if PlaceAt(s, r.next) == In {
            ItemsStray(s, r.next, acc + [r.item]);
          } else {
            LineStaysOut(s, k, v, depth, rest);
            ItemsRead(s, k + |line| + 1, k + |line| + 2, items[1..], depth, acc + [r.item], e);
            var all := ParseItems(s, i, acc);
            if all.Parsed? && PlaceAt(s, all.end) != In {
              OneMore(acc, r.item, items, all.value);
            }
          }
        }
      }
    }
  }

  lemma LineStaysOut(s: string, k: nat, v: Json, depth: nat, rest: string)
    requires NoFloat(v) && At(s, k, Indent(depth) + Text(v, depth) + (",\n" + rest)) && PlaceAt(s, k) == Out
    ensures var n := k + |Indent(depth) + Text(v, depth)| + 2; n <= |s| && PlaceAt(s, n) == Out
  {
    hide Text, PlaceAt, At, Indent;
    var t := Text(v, depth);
    AtSplit(s, k, Indent(depth) + t, ",\n" + rest);
    AtSplit(s, k, Indent(depth), t);
    IndentAt(s, k, depth);
    BlanksStayOut(s, k, k + 2 * depth);
    TextStaysOut(s, k + 2 * depth, v, depth);
    SeparatorStaysOut(s, k, Indent(depth) + t, rest);
  }

  // A list that begins with what was read and is as it should be was read right so far.
  lemma OneMore(acc: seq<Json>, w: Json, items: seq<Json>, vs: seq<Json>)
    requires items != []
    requires acc + [w] <= vs
    ensures acc <= vs && (vs == acc + items ==> w == items[0] && vs == acc + [w] + items[1..])
    ensures AllGood(items[1..]) && Good(items[0]) ==> AllGood(items)
  {
    hide Good;
    assert vs[|acc|] == (acc + [w])[|acc|] == w;
    assert vs[..|acc|] == (acc + [w])[..|acc|] == acc;
    if vs == acc + items {
      assert vs[|acc|] == items[0];
      assert acc + items == acc + [items[0]] + items[1..];
    }
    if AllGood(items[1..]) && Good(items[0]) {
      forall x | 0 <= x < |items| ensures Good(items[x]) {
        if x > 0 { assert items[1..][x - 1] == items[x]; }
      }
    }
  }

  // ---------------------------------------------------------------- objects

  // Astray, or read up to e, each field in one way or the other.
  ghost predicate FieldListRead(s: string, e: nat, acc: seq<Field>, fields: seq<Field>, r: Outcome<seq<Field>>) {
    && (r.Parsed? ==> r.end <= |s|)
    && (r.Parsed? && PlaceAt(s, r.end) != In ==>
          r.end == e && exists gs :: AllRead(gs, fields) && r.value == SetAll(acc, gs))
  }

  lemma {:induction false} FirstFieldRound(s: string, i: nat, k: nat, f: Field, depth: nat, more: string, sep: nat)
    requires Tidy(s) && WellFormed(f.value) && NoFloat(f.value) && '\0' !in f.key
    requires BlankRun(s, i, k) && PlaceAt(s, k) == Out && At(s, k, FieldText(f, depth) + more)
    requires BlankRun(s, k + |FieldText(f, depth)|, sep) && sep < |s| && (s[sep] == ',' || s[sep] == '}')
    ensures RoundRead(s, if s[sep] == ',' then sep + 1 else sep, f, NextField(s, i))
    decreases f, 1
  {
    hide Text, FieldText, ParseToken, Spaces, PlaceAt, NextKey, NextField, Escape, At, NoFloat,
      WellFormed, ValueRead, KeyRead, RoundRead;
    AnyFieldShape(s, k, f, depth, more);
    FieldPlaces(s, k, f, depth, more);
    var quote := k + 2 * depth;
    var c := quote + |Escape(f.key)| + 3;
    var t := Text(f.value, depth + 1);
    BlanksJoin(s, i, k, quote);
    KeyRound(s, i, quote, f.key);
    TextStart(f.value, depth + 1);
    AtFirst(s, c + 1, t);
    SpacesAt(s, c, c + 1);
    FieldValueRead(s, c + 1, f, depth);
    FieldRound(s, i, c, f, c + 1 + |t|, sep);
  }

  lemma BlanksJoin(s: string, i: nat, k: nat, j: nat)
    requires BlankRun(s, i, k) && BlankRun(s, k, j)
    ensures BlankRun(s, i, j)
  {
  }

  lemma {:induction false} FieldValueRead(s: string, i: nat, f: Field, depth: nat)
    requires Tidy(s) && WellFormed(f.value) && NoFloat(f.value) && At(s, i, Text(f.value, depth + 1))
    requires EndsNumber(s, i + |Text(f.value, depth + 1)|) && PlaceAt(s, i) == Out
    ensures i < |s| && ValueRead(s, i + |Text(f.value, depth + 1)|, f.value, ParseToken(s, i))
    decreases f, 0
  {
    hide *;
    TokenRead(s, i, f.value, depth + 1);
  }

  lemma {:induction false} FieldsRead(s: string, i: nat, k: nat, fields: seq<Field>, depth: nat,
      acc: seq<Field>, e: nat)
    requires Tidy(s) && forall x | 0 <= x < |fields| :: WellFormed(fields[x].value) && NoFloat(fields[x].value)
    requires forall x | 0 <= x < |fields| :: '\0' !in fields[x].key
    requires BlankRun(s, i, k) && At(s, k, FieldsText(fields, depth)) && PlaceAt(s, k) == Out
    requires BlankRun(s, k + |FieldsText(fields, depth)|, e) && e < |s| && s[e] == '}'
    ensures FieldListRead(s, e + 1, acc, fields, ParseFields(s, i, acc))
    decreases fields, 0
  {
    hide FieldText, NextField, Spaces, PlaceAt, At, WellFormed, NoFloat, FieldRead, CStr, Add;
    if fields == [] {
      SpacesAt(s, i, e);
      FieldsClose(s, i, acc, e);
      assert AllRead([], fields) && acc == SetAll(acc, []);
    } else {
      var f, line := fields[0], FieldText(fields[0], depth);
      var r := NextField(s, i);
      if |fields| == 1 {
        assert line + [] == line;
        FirstFieldRound(s, i, k, f, depth, [], e);
        if r.Next? {
          var g := Entry(CStr(r.item.0), r.item.1);
          if PlaceAt(s, r.next) == In {
            FieldsStray(s, r.next, Add(StringLess, acc, g.key, g.value));
          } else {
            SpacesAt(s, e, e);
            FieldsClose(s, e, Add(StringLess, acc, g.key, g.value), e);
            OneMoreField(acc, g, [], fields);
          }
        }
      } else {
        var rest := FieldsText(fields[1..], depth);
        SeparatorAt(s, k, line, rest);
        FirstFieldRound(s, i, k, f, depth, ",\n" + rest, k + |line|);
        if r.Next? {
          var g := Entry(CStr(r.item.0), r.item.1);
          if PlaceAt(s, r.next) == In {
            FieldsStray(s, r.next, Add(StringLess, acc, g.key, g.value));
          } else {
            FieldLineStaysOut(s, k, f, depth, rest);
            FieldsRead(s, k + |line| + 1, k + |line| + 2, fields[1..], depth, Add(StringLess, acc, g.key, g.value), e);
            var all := ParseFields(s, i, acc);
            if all.Parsed? && PlaceAt(s, all.end) != In {
              var gs :| AllRead(gs, fields[1..]) && all.value == SetAll(Add(StringLess, acc, g.key, g.value), gs);
              OneMoreField(acc, g, gs, fields);
            }
          }
        }
      }
    }
  }

  lemma FieldLineStaysOut(s: string, k: nat, f: Field, depth: nat, rest: string)
    requires NoFloat(f.value) && At(s, k, FieldText(f, depth) + (",\n" + rest)) && PlaceAt(s, k) == Out
    ensures var n := k + |FieldText(f, depth)| + 2; n <= |s| && PlaceAt(s, n) == Out
  {
    hide Text, FieldText, PlaceAt, At, Escape;
    AnyFieldShape(s, k, f, depth, ",\n" + rest);
    FieldPlaces(s, k, f, depth, ",\n" + rest);
    TextStaysOut(s, k + 2 * depth + |Escape(f.key)| + 4, f.value, depth + 1);
    SeparatorStaysOut(s, k, FieldText(f, depth), rest);
  }

  lemma {:induction false} ObjectRead(s: string, i: nat, fields: seq<Field>, depth: nat)
    requires Tidy(s) && WellFormed(Object(fields)) && NoFloat(Object(fields))
    requires At(s, i, Text(Object(fields), depth)) && PlaceAt(s, i) == Out
    ensures i < |s| && ValueRead(s, i + |Text(Object(fields), depth)|, Object(fields), ParseToken(s, i))
    decreases fields, 1
  {
    hide FieldsText, ParseFields, PlaceAt, At, Clean, Survives, Good, AllRead, SetAll;
    var lines := FieldsText(fields, depth + 1);
    CompoundShape(s, i, '{', lines, Indent(depth), '}');
    CharStaysOut(s, i);
    BlanksStayOut(s, i + 1, i + 2);
    FieldsRead(s, i + 1, i + 2, fields, depth + 1, [], i + 3 + |lines| + 2 * depth);
    var r := ParseFields(s, i + 1, []);
    if r.Parsed? && PlaceAt(s, r.end) != In && r.value == fields {
      var gs :| AllRead(gs, fields) && r.value == SetAll([], gs);
      GoodObject(fields, gs);
    }
  }

  // ---------------------------------------------------------------- the main result

  // A value comes back from its printed text exactly if it has no float, no string or key that
  // EscapeString rewrites and no INT32_MIN, however deep.
  lemma ValueRoundTripIff(v: Json)
    requires WellFormed(v) && NoFloat(v)
    ensures ParseValue(Text(v, 0), 0) == Parsed(v, |Text(v, 0)|) <==> Clean(v) && Survives(v)
  {
    hide Text, ParseToken, PlaceAt, Clean, Survives, WellFormed, NoFloat, Spaces;
    var s := Text(v, 0);
    TextStart(v, 0);
    SpacesAt(s, 0, 0);
    StartsOut(s);
    TextStaysOut(s, 0, v, 0);
    TokenRead(s, 0, v, 0);
    if Clean(v) {
      PrintParseRoundTrip(v, 0, false, []);
      assert [] + s + [] == s;
    }
  }

  // The same for the executable printer and parser.
  method PrintThenParse(v: Json) returns (text: string, r: Outcome<Json>)
    requires WellFormed(v) && NoFloat(v) && Fits(v, 0)
    ensures r == Parsed(v, |text|) <==> Clean(v) && Survives(v)
  {
    hide Text, Fits, WellFormed, NoFloat, Clean, Survives, ParseValue, ParseToken;
    text := ToString(v, 0, true);
    assert Indent(0) + Text(v, 0) == Text(v, 0);
    ValueRoundTripIff(v);
    r := Parse(text, 0);
  }

  lemma StartsOut(s: string)
    ensures PlaceAt(s, 0) == Out
  {
  }
}
