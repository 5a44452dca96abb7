// When Parse reads past the end of its input: exactly if the text ends in an escape and, without
// those two bytes, ends inside a string literal.
module JsonOverRead {
  import opened KeyedVector
  import opened Decimal
  import opened JsonValue
  import opened JsonParser
  import opened JsonBounds
  import opened CText

  // The text without its last two bytes.
  function Cut(s: string): (t: string)
    requires |s| >= 2
    ensures |t| == |s| - 2 && forall x | 0 <= x < |t| :: t[x] == s[x]
  {
    s[..|s| - 2]
  }

  // How a result on a text and the result on the cut text belong together: what ends before
  // the cut is read alike, and an over-read is an unclosed literal in front of an escape.
  ghost predicate Alike<T(!new)>(s: string, r: Outcome<T>, c: Outcome<T>)
    requires |s| >= 2
  {
    && (r.Parsed? && r.end < |s| - 2 ==> c == r)
    && (c.Parsed? && c.end < |s| - 2 ==> r == c)
    && (r.OverRead? <==> EndsInEscape(s) && c.Unclosed?)
  }

  lemma {:induction false} SpacesCut(s: string, i: nat)
    requires |s| >= 2 && i <= |s| - 2
    ensures var j := Spaces(s, i); Spaces(Cut(s), i) == if j < |s| - 2 then j else |s| - 2
    decreases |s| - i
  {
    if i < |s| - 2 && IsSpace(s[i]) {
      SpacesCut(s, i + 1);
    }
  }

  lemma {:induction false} ScanCut(s: string, i: nat, escaped: bool, acc: string)
    requires |s| >= 2 && i <= |s| - 2 && (escaped ==> 0 < i && s[i - 1] == '\\')
    ensures Alike(s, ScanString(s, i, escaped, acc), ScanString(Cut(s), i, escaped, acc))
    decreases |s| - i
  {
    var n := |s| - 2;
    if i == n {
      if escaped {
        ScanBounds(s, i, escaped, acc);
        if IsEscape(s[i]) {
          assert ScanString(s, i, true, acc) == ScanString(s, |s|, false, acc + [Unescape(s[i]), s[i + 1]]);
        }
      } else {
        ScanLastTwo(s, i, acc);
      }
    } else if escaped {
      if IsEscape(s[i]) {
        if i + 1 == n {
          ScanBounds(s, i + 2, false, acc + [Unescape(s[i]), s[i + 1]]);
        } else {
          ScanCut(s, i + 2, false, acc + [Unescape(s[i]), s[i + 1]]);
        }
      }
    } else if s[i] != '"' {
      ScanCut(s, i + 1, s[i] == '\\', acc + [s[i]]);
    }
  }

  // ---------------------------------------------------------------- numbers

  lemma {:induction false} DigitsCut(s: string, i: nat)
    requires |s| >= 2 && i <= |s| - 2
    ensures var j := DigitsEnd(s, i);
      && DigitsEnd(Cut(s), i) == (if j < |s| - 2 then j else |s| - 2)
      && (j <= |s| - 2 ==> Cut(s)[i..j] == s[i..j])
    decreases |s| - i
  {
    if i < |s| - 2 && IsDigit(s[i]) {
      DigitsCut(s, i + 1);
    }
  }

  // Wherever the number stops in front of the cut, both texts agree on it.
  lemma NumberCut(s: string, i: nat)
    requires |s| >= 2 && i < |s| - 2 && (IsDigit(s[i]) || s[i] == '-')
    ensures Alike(s, ParseNumber(s, i), ParseNumber(Cut(s), i))
  {
    hide NumberOf, DigitsEnd;
    var first := if s[i] == '-' then i + 1 else i;
    if first <= |s| - 2 {
      DigitsCut(s, first);
      var e, c := DigitsEnd(s, first), DigitsEnd(Cut(s), first);
      if e <= |s| - 2 {
        assert Cut(s)[first..e] == s[first..e];
        FractionCut(s, e);
        var f := ScanFraction(s, e);
        if f.Some? && f.value.1 <= |s| - 2 {
          ExponentCut(s, f.value.1);
        }
      }
    }
  }

  lemma FractionCut(s: string, k: nat)
    requires |s| >= 2 && k <= |s| - 2
    ensures var r, c := ScanFraction(s, k), ScanFraction(Cut(s), k);
      && (r.Some? && r.value.1 < |s| - 2 ==> c == r)
      && (c.Some? && c.value.1 < |s| - 2 ==> r == c)
  {
    hide DigitsEnd;
    if k + 1 <= |s| - 2 {
      DigitsCut(s, k + 1);
    }
  }

  lemma ExponentCut(s: string, k: nat)
    requires |s| >= 2 && k <= |s| - 2
    ensures var r, c := ScanExponent(s, k), ScanExponent(Cut(s), k);
      && (r.Some? && r.value.2 < |s| - 2 ==> c == r)
      && (c.Some? && c.value.2 < |s| - 2 ==> r == c)
  {
    hide DigitsEnd;
    if k + 1 <= |s| - 2 {
      DigitsCut(s, k + 1);
    }
    if k + 2 <= |s| - 2 {
      DigitsCut(s, k + 2);
    }
  }

  // ---------------------------------------------------------------- values

  lemma WordCut(s: string, i: nat, word: string)
    requires |s| >= 2 && i < |s| - 2
    ensures StartsWith(Cut(s), i, word) <==> i + |word| <= |s| - 2 && StartsWith(s, i, word)
  {
    if i + |word| <= |s| - 2 {
      assert Cut(s)[i..i + |word|] == s[i..i + |word|];
    }
  }

  lemma {:induction false} ValueCut(s: string, i: nat)
    requires |s| >= 2 && i <= |s| - 2
    ensures Alike(s, ParseValue(s, i), ParseValue(Cut(s), i))
    decreases |s| - i, 1
  {
    hide ParseToken;
    SpacesCut(s, i);
    var j := Spaces(s, i);
    if j < |s| - 2 {
      TokenCut(s, j);
    } else {
      ParseBounds(s, j);
      if j < |s| {
        SpacesAt(s, j, j);
      }
    }
  }

  lemma {:induction false} TokenCut(s: string, i: nat)
    requires |s| >= 2 && i < |s| - 2
    ensures Alike(s, ParseToken(s, i), ParseToken(Cut(s), i))
    decreases |s| - i, 0
  {
    hide ScanString, ParseNumber, ParseItems, ParseFields, StartsWith;
    if s[i] == '[' {
      ItemsCut(s, i + 1, []);
    } else if s[i] == '{' {
      FieldsCut(s, i + 1, []);
    } else if s[i] == '"' {
      ScanCut(s, i + 1, false, []);
    } else if IsDigit(s[i]) || s[i] == '-' {
      NumberCut(s, i);
    } else {
      WordCut(s, i, "null");
      WordCut(s, i, "true");
      WordCut(s, i, "false");
    }
  }

  // The same for the rounds of the two loops.
  ghost predicate AlikeRound<T(!new)>(s: string, r: Round<T>, c: Round<T>)
    requires |s| >= 2
  {
    && (r.Close? && r.end < |s| - 2 ==> c == r) && (c.Close? && c.end < |s| - 2 ==> r == c)
    && (r.Next? && r.next < |s| - 2 ==> c == r) && (c.Next? && c.next < |s| - 2 ==> r == c)
    && (r.Over? <==> EndsInEscape(s) && c.Open?)
  }

  lemma {:induction false} ItemCut(s: string, i: nat)
    requires |s| >= 2 && i <= |s| - 2
    ensures AlikeRound(s, NextItem(s, i), NextItem(Cut(s), i))
    decreases |s| - i, 2
  {
    hide ParseValue, Spaces;
    SpacesCut(s, i);
    var j := Spaces(s, i);
    if j < |s| - 2 {
      ValueCut(s, j);
      AfterCut(s, ParseValue(s, j));
      AfterCut(s, ParseValue(Cut(s), j));
    } else if j < |s| {
      ParseBounds(s, j);
    }
  }

  lemma AfterCut<T>(s: string, r: Outcome<T>)
    requires |s| >= 2
    ensures r.Parsed? && r.end <= |s| - 2 ==>
      Spaces(Cut(s), r.end) == if Spaces(s, r.end) < |s| - 2 then Spaces(s, r.end) else |s| - 2
  {
    if r.Parsed? && r.end <= |s| - 2 {
      SpacesCut(s, r.end);
    }
  }

  lemma {:induction false} ItemsCut(s: string, i: nat, acc: seq<Json>)
    requires |s| >= 2 && i <= |s| - 2
    ensures Alike(s, ParseItems(s, i, acc), ParseItems(Cut(s), i, acc))
    decreases |s| - i, 3
  {
    hide NextItem;
    ItemCut(s, i);
    var r, c := NextItem(s, i), NextItem(Cut(s), i);
    if r.Next? {
      ItemsBounds(s, r.next, acc + [r.item]);
    }
    if c.Next? {
      ItemsCut(s, c.next, acc + [c.item]);
      NoItemAtEnd(s);
    }
  }

  lemma NoItemAtEnd(s: string)
    requires |s| >= 2
    ensures NextItem(Cut(s), |s| - 2) == Bad && NextKey(Cut(s), |s| - 2) == Bad
    ensures NextField(Cut(s), |s| - 2) == Bad
  {
  }

  lemma {:induction false} KeyCut(s: string, i: nat)
    requires |s| >= 2 && i <= |s| - 2
    ensures AlikeRound(s, NextKey(s, i), NextKey(Cut(s), i))
    decreases |s| - i, 2
  {
    hide ParseValue, Spaces;
    SpacesCut(s, i);
    var j := Spaces(s, i);
    if j < |s| - 2 {
      ValueCut(s, j);
      AfterCut(s, ParseValue(s, j));
      AfterCut(s, ParseValue(Cut(s), j));
    } else if j < |s| {
      ParseBounds(s, j);
    }
  }

  lemma {:induction false} FieldCut(s: string, i: nat)
    requires |s| >= 2 && i <= |s| - 2
    ensures AlikeRound(s, NextField(s, i), NextField(Cut(s), i))
    decreases |s| - i, 3
  {
    hide ParseValue, Spaces, NextKey;
    KeyCut(s, i);
    var r, c := NextKey(s, i), NextKey(Cut(s), i);
    if r.Next? {
      ParseBounds(s, r.next);
    }
    if c.Next? {
      NothingAtEnd(s);
      if c.next < |s| - 2 {
        ValueCut(s, c.next);
        AfterCut(s, ParseValue(s, c.next));
        AfterCut(s, ParseValue(Cut(s), c.next));
      }
    }
  }

  lemma NothingAtEnd(s: string)
    requires |s| >= 2
    ensures ParseValue(Cut(s), |s| - 2) == Malformed
  {
  }

  lemma {:induction false} FieldsCut(s: string, i: nat, acc: seq<Field>)
    requires |s| >= 2 && i <= |s| - 2
    ensures Alike(s, ParseFields(s, i, acc), ParseFields(Cut(s), i, acc))
    decreases |s| - i, 4
  {
    hide NextField, Add, CStr;
    FieldCut(s, i);
    var r, c := NextField(s, i), NextField(Cut(s), i);
    if r.Next? {
      FieldsBounds(s, r.next, Add(StringLess, acc, CStr(r.item.0), r.item.1));
    }
    if c.Next? {
      FieldsCut(s, c.next, Add(StringLess, acc, CStr(c.item.0), c.item.1));
      NoItemAtEnd(s);
    }
  }

  // ---------------------------------------------------------------- main results

  // Parse reads past the end of a text exactly if its last two bytes are an escape and without
  // them the text ends inside a string literal, at whatever depth of arrays and objects.
  lemma ParseOverReadsIff(s: string, i: nat)
    requires i <= |s|
    ensures ParseValue(s, i).OverRead?
       <==> EndsInEscape(s) && i <= |s| - 2 && ParseValue(s[..|s| - 2], i).Unclosed?
  {
    ParseBounds(s, i);
    if |s| >= 2 && i <= |s| - 2 {
      ValueCut(s, i);
    }
  }

  // A quote, a backslash and an n.
  lemma EscapeAtEndIsOverRead()
    ensures ParseValue("\"\\n", 0) == OverRead
  {
    var s := "\"\\n";
    SpacesAt(s, 0, 0);
    assert ScanString(s, 1, false, []) == ScanString(s, 2, true, [s[1]]);
  }
}
