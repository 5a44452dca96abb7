// One round of the parser's loops over a printed element: it goes astray, or it reads the element
// up to its end and finds the separator behind it.
module JsonRounds {
  import opened KeyedVector
  import opened JsonValue
  import opened JsonParser
  import opened JsonPrinter
  import opened JsonPlaces
  import opened JsonFields
  import opened CText

  // Astray, or read up to e, and then as the value itself only if that is good.
  ghost predicate ValueRead(s: string, e: nat, v: Json, r: Outcome<Json>) {
    && (r.Parsed? ==> r.end <= |s|)
    && (r.Parsed? && PlaceAt(s, r.end) != In ==> r.end == e && (r.value == v ==> Good(v)))
  }

  ghost predicate ItemRead(s: string, n: nat, v: Json, r: Round<Json>) {
    && !r.Close? && (r.Next? ==> r.next <= |s|)
    && (r.Next? && PlaceAt(s, r.next) != In ==> r.next == n && (r.item == v ==> Good(v)))
  }

  lemma ItemRound(s: string, i: nat, start: nat, v: Json, e: nat, sep: nat)
    requires i <= start < |s| && Spaces(s, i) == start && Spaces(s, start) == start && s[start] != ']'
    requires ValueRead(s, e, v, ParseToken(s, start))
    requires BlankRun(s, e, sep) && sep < |s| && (s[sep] == ',' || s[sep] == ']')
    ensures ItemRead(s, if s[sep] == ',' then sep + 1 else sep, v, NextItem(s, i))
  {
    hide ParseToken, PlaceAt, Spaces, Good;
    var r := ParseValue(s, start);
    assert r == ParseToken(s, start);
    if r.Parsed? && PlaceAt(s, r.end) == In {
      AfterItemStrays(s, i);
    } else if r.Parsed? {
      SpacesAt(s, e, sep);
    }
  }

  ghost predicate KeyRead(s: string, n: nat, key: string, r: Round<string>) {
    && !r.Close? && (r.Next? ==> r.next <= |s|)
    && (r.Next? && PlaceAt(s, r.next) != In ==> r.next == n && ReadAs(key, r.item))
  }

  lemma KeyRound(s: string, i: nat, quote: nat, key: string)
    requires Tidy(s) && BlankRun(s, i, quote) && PlaceAt(s, quote) == Out && At(s, quote, "\"" + Escape(key) + "\"")
    requires var colon := quote + |Escape(key)| + 2; colon < |s| && s[colon] == ':'
    ensures KeyRead(s, quote + |Escape(key)| + 3, key, NextKey(s, i))
  {
    hide ScanString, PlaceAt, Spaces, Escape, ReadAs, At;
    QuotedRead(s, quote, key);
    SpacesAt(s, i, quote);
    SpacesAt(s, quote, quote);
    var colon, scan := quote + |Escape(key)| + 2, ScanString(s, quote + 1, false, []);
    var r := ParseValue(s, quote);
    assert ParseToken(s, quote) == AsString(scan);
    assert r == AsString(scan);
    if r.Parsed? && PlaceAt(s, r.end) == In {
      AfterStringStrays(s, i);
    } else if r.Parsed? {
      SpacesAt(s, colon, colon);
    }
  }

  ghost predicate RoundRead(s: string, n: nat, f: Field, r: Round<(string, Json)>) {
    && !r.Close? && (r.Next? ==> r.next <= |s|)
    && (r.Next? && PlaceAt(s, r.next) != In ==> r.next == n && FieldRead(Entry(CStr(r.item.0), r.item.1), f))
  }

  lemma FieldRound(s: string, i: nat, c: nat, f: Field, e: nat, sep: nat)
    requires Tidy(s) && i < c < c + 1 < |s| && KeyRead(s, c, f.key, NextKey(s, i)) && '\0' !in f.key
    requires Spaces(s, c) == c + 1 && ValueRead(s, e, f.value, ParseToken(s, c + 1))
    requires BlankRun(s, e, sep) && sep < |s| && (s[sep] == ',' || s[sep] == '}')
    ensures RoundRead(s, if s[sep] == ',' then sep + 1 else sep, f, NextField(s, i))
  {
    hide ParseToken, PlaceAt, Spaces, Good, NextKey, Plain, CStr, Tidy;
    var key := NextKey(s, i);
    if key.Next? {
      var r := ParseValue(s, key.next);
      if PlaceAt(s, key.next) == In {
        ValueStrays(s, key.next);
        AfterValueStrays(s, i);
      } else {
        assert r == ParseToken(s, c + 1);
        if r.Parsed? && PlaceAt(s, r.end) == In {
          AfterValueStrays(s, i);
        } else if r.Parsed? {
          SpacesAt(s, e, sep);
        }
      }
    }
  }
}
