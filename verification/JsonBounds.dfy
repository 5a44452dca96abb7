// Properties of the parser on every input: where it can look past the end, what it builds,
// which integers it lets through, and which strings come back from the printer unchanged.
module JsonBounds {
  import opened Basics
  import opened KeyedVector
  import opened Decimal
  import opened JsonValue
  import opened JsonParser
  import opened JsonPrinter
  import opened JsonRoundTrip
  import opened CText

  // The text ends in a backslash and a byte that it escapes.
  predicate EndsInEscape(s: string) {
    |s| >= 2 && s[|s| - 2] == '\\' && IsEscape(s[|s| - 1])
  }

  lemma {:induction false} ScanBounds(s: string, i: nat, escaped: bool, acc: string)
    requires i <= |s| && (escaped ==> 0 < i && s[i - 1] == '\\')
    ensures ScanString(s, i, escaped, acc).OverRead? ==>
      EndsInEscape(s) && i + (if escaped then 1 else 2) <= |s|
    decreases |s| - i
  {
    if i < |s| {
      if escaped {
        if IsEscape(s[i]) && i + 1 < |s| {
          ScanBounds(s, i + 2, false, acc + [Unescape(s[i]), s[i + 1]]);
        }
      } else if s[i] != '"' {
        ScanBounds(s, i + 1, s[i] == '\\', acc + [s[i]]);
      }
    }
  }

  // Only a text whose last two bytes are an escape can make the parser look past its end;
  // in particular no text without a backslash can.
  lemma {:induction false} ParseBounds(s: string, i: nat)
    requires i <= |s|
    ensures ParseValue(s, i).OverRead? ==> EndsInEscape(s) && i + 3 <= |s|
    decreases |s| - i, 1
  {
    hide ScanString, ParseNumber, ParseItems, ParseFields;
    var j := Spaces(s, i);
    if j < |s| {
      assert ParseValue(s, i) == ParseToken(s, j);
      if s[j] == '[' {
        assert ParseToken(s, j) == AsArray(ParseItems(s, j + 1, []));
        ItemsBounds(s, j + 1, []);
      } else if s[j] == '{' {
        assert ParseToken(s, j) == AsObject(ParseFields(s, j + 1, []));
        FieldsBounds(s, j + 1, []);
      } else if s[j] == '"' {
        ScanBounds(s, j + 1, false, []);
      }
    }
  }

  lemma {:induction false} ItemsBounds(s: string, i: nat, acc: seq<Json>)
    requires i <= |s|
    ensures ParseItems(s, i, acc).OverRead? ==> EndsInEscape(s) && i + 3 <= |s|
    decreases |s| - i, 3
  {
    hide ParseValue, NextItem;
    ItemBounds(s, i);
    var r := NextItem(s, i);
    if r.Next? {
      ItemsBounds(s, r.next, acc + [r.item]);
    }
  }

  lemma {:induction false} ItemBounds(s: string, i: nat)
    requires i <= |s|
    ensures NextItem(s, i).Over? ==> EndsInEscape(s) && i + 3 <= |s|
    decreases |s| - i, 2
  {
    hide ParseValue;
    var j := Spaces(s, i);
    if j < |s| && s[j] != ']' {
      ParseBounds(s, j);
    }
  }

  lemma {:induction false} FieldsBounds(s: string, i: nat, acc: seq<Field>)
    requires i <= |s|
    ensures ParseFields(s, i, acc).OverRead? ==> EndsInEscape(s) && i + 3 <= |s|
    decreases |s| - i, 4
  {
    hide ParseValue, NextField, Add, CStr;
    FieldBounds(s, i);
    var r := NextField(s, i);
    if r.Next? {
      FieldsBounds(s, r.next, Add(StringLess, acc, CStr(r.item.0), r.item.1));
    }
  }

  lemma {:induction false} FieldBounds(s: string, i: nat)
    requires i <= |s|
    ensures NextField(s, i).Over? ==> EndsInEscape(s) && i + 3 <= |s|
    decreases |s| - i, 3
  {
    hide ParseValue, NextKey;
    KeyBounds(s, i);
    var key := NextKey(s, i);
    if key.Next? {
      ParseBounds(s, key.next);
    }
  }

  lemma {:induction false} KeyBounds(s: string, i: nat)
    requires i <= |s|
    ensures NextKey(s, i).Over? ==> EndsInEscape(s) && i + 3 <= |s|
    decreases |s| - i, 2
  {
    hide ParseValue;
    var j := Spaces(s, i);
    if j < |s| && s[j] != '}' {
      ParseBounds(s, j);
    }
  }

  // For one string literal the condition is exact: the scan runs past the end just when the
  // text ends in an escape and putting a closing quote in its place would complete the literal.
  lemma {:induction false} ScanOverReadsIff(s: string, i: nat, acc: string)
    requires |s| >= 2 && i <= |s| - 2
    ensures ScanString(s, i, false, acc).OverRead?
       <==> EndsInEscape(s) && ScanClosesAtEnd(s[..|s| - 2] + "\"", i, acc)
    decreases |s| - i
  {
    var n := |s| - 2;
    var u := s[..n] + "\"";
    assert |u| == n + 1 && u[n] == '"';
    assert forall x | 0 <= x < n :: u[x] == s[x];
    if i == n {
      ScanLastTwo(s, i, acc);
    } else if s[i] == '\\' {
      EscapeStep(s, i, acc);
      EscapeStep(u, i, acc);
      if i + 3 <= n && IsEscape(s[i + 1]) {
        ScanOverReadsIff(s, i + 3, acc + ['\\', Unescape(s[i + 1]), s[i + 2]]);
      } else if i + 2 == n && IsEscape(s[i + 1]) {
        ScanLastOne(s, i + 3, acc + ['\\', Unescape(s[i + 1]), s[i + 2]]);
      }
    } else if s[i] != '"' {
      ScanOverReadsIff(s, i + 1, acc + [s[i]]);
    }
  }

  predicate ScanClosesAtEnd(u: string, i: nat, acc: string)
    requires i <= |u|
  {
    var r := ScanString(u, i, false, acc);
    r.Parsed? && r.end == |u|
  }

  // The three bytes of an escape are taken in one go.
  lemma EscapeStep(s: string, i: nat, acc: string)
    requires i + 1 < |s| && s[i] == '\\'
    ensures ScanString(s, i, false, acc) ==
      if !IsEscape(s[i + 1]) then Malformed
      else if i + 2 == |s| then OverRead
      else ScanString(s, i + 3, false, acc + ['\\', Unescape(s[i + 1]), s[i + 2]])
  {
    assert ScanString(s, i, false, acc) == ScanString(s, i + 1, true, acc + [s[i]]);
    if IsEscape(s[i + 1]) && i + 2 < |s| {
      assert acc + [s[i]] + [Unescape(s[i + 1]), s[i + 2]] == acc + ['\\', Unescape(s[i + 1]), s[i + 2]];
    }
  }

  lemma ScanLastOne(s: string, i: nat, acc: string)
    requires |s| >= 1 && i == |s| - 1
    ensures !ScanString(s, i, false, acc).OverRead?
  {
    if s[i] != '"' {
      assert ScanString(s, i, false, acc) == ScanString(s, i + 1, s[i] == '\\', acc + [s[i]]);
    }
  }

  lemma ScanLastTwo(s: string, i: nat, acc: string)
    requires |s| >= 2 && i == |s| - 2
    ensures ScanString(s, i, false, acc).OverRead? <==> EndsInEscape(s)
  {
    if s[i] == '\\' {
      EscapeStep(s, i, acc);
    } else if s[i] != '"' {
      ScanLastOne(s, i + 1, acc + [s[i]]);
    }
  }

  // A string the parser reads is as long as the bytes between its quotes.
  lemma {:induction false} ScanLength(s: string, i: nat, escaped: bool, acc: string)
    requires i <= |s|
    ensures var r := ScanString(s, i, escaped, acc); r.Parsed? ==> |r.value| == |acc| + (r.end - 1 - i)
    decreases |s| - i
  {
    if i < |s| {
      if escaped {
        if IsEscape(s[i]) && i + 1 < |s| {
          ScanLength(s, i + 2, false, acc + [Unescape(s[i]), s[i + 1]]);
        }
      } else if s[i] != '"' {
        ScanLength(s, i + 1, s[i] == '\\', acc + [s[i]]);
      }
    }
  }

  // A string survives printing and parsing exactly when EscapeString leaves it alone: an
  // escaped byte comes back together with its backslash.
  lemma StringRoundTripIff(t: string)
    ensures var text := Text(Str(t), 0);
      ParseValue(text, 0) == Parsed(Str(t), |text|) <==> Plain(t)
  {
    hide ScanString, Plain, Escape;
    var text := Text(Str(t), 0);
    EscapeLength(t);
    SpacesAt(text, 0, 0);
    assert ParseValue(text, 0) == AsString(ScanString(text, 1, false, []));
    ScanLength(text, 1, false, []);
    if Plain(t) {
      StringText(text, 0, t);
    }
  }

  // The next digit does not make the wrapped prefix smaller.
  predicate Grows(ds: string, k: nat)
    requires AllDigits(ds) && k < |ds|
  {
    Wrap32(Value(ds[..k])) <= Wrap32(Value(ds[..k + 1]))
  }

  // Of any number of digits, what is accepted is the number modulo 2^32, and it is accepted
  // exactly when no digit makes the wrapped prefix smaller.
  lemma {:induction false} AcceptedIsWrapped(ds: string)
    requires AllDigits(ds)
    ensures ParseInt32(ds).Some? ==> ParseInt32(ds).value == Wrap32(Value(ds))
    ensures ParseInt32(ds).Some? <==>
      forall k | 0 <= k < |ds| :: Grows(ds, k)
  {
    hide Wrap32, Value;
    if ds == [] {
      assert Value(ds) == 0 by { EmptyValue(); }
    } else {
      var n := |ds| - 1;
      var front := ds[..n];
      AcceptedIsWrapped(front);
      forall k | 0 <= k <= n ensures front[..k] == ds[..k] { }
      assert ds[..|ds|] == ds;
      LastDigit(ds);
      WrapShift(Value(front), DigitValue(ds[n]));
      forall k | 0 <= k < n ensures Grows(front, k) <==> Grows(ds, k) { }
      assert Grows(ds, n) <==> Wrap32(Value(front)) <= Wrap32(Value(ds));
      assert (forall k | 0 <= k < |ds| :: Grows(ds, k)) <==> (forall k | 0 <= k < n :: Grows(ds, k)) && Grows(ds, n);
    }
  }

  lemma EmptyValue()
    ensures Value("") == 0
  {
  }

  lemma LastDigit(ds: string)
    requires AllDigits(ds) && ds != []
    ensures Value(ds) == 10 * Value(ds[..|ds| - 1]) + DigitValue(ds[|ds| - 1])
  {
  }

  lemma WrapShift(n: int, d: int)
    ensures Wrap32(Wrap32(n) * 10 + d) == Wrap32(10 * n + d)
  {
    var k := if n % 0x1_0000_0000 >= 0x8000_0000 then n / 0x1_0000_0000 + 1 else n / 0x1_0000_0000;
    assert n == Wrap32(n) + k * 0x1_0000_0000;
    WrapPeriod(Wrap32(n) * 10 + d, 10 * k);
  }

  lemma WrapPeriod(n: int, k: int)
    ensures Wrap32(n + k * 0x1_0000_0000) == Wrap32(n)
  {
    assert (n + k * 0x1_0000_0000) % 0x1_0000_0000 == n % 0x1_0000_0000;
  }

  // The test for overflow compares the wrapped register with its previous value. Of the
  // numbers below ten thousand million, however many zeros they start with, it misses exactly
  // those in two windows above 32 bits.
  lemma MissedOverflow(ds: string)
    requires AllDigits(ds) && Value(ds) < 10_000_000_000
    ensures ParseInt32(ds).None? || ParseInt32(ds) == Some(Value(ds)) <==> !InWindow(Value(ds))
  {
    hide Wrap32, InWindow;
    if ds == [] {
      NotSeen(0);
    } else {
      LastDigit(ds);
      ParseInt32Exact(ds[..|ds| - 1]);
      NotSeen(Value(ds));
    }
  }

  predicate InWindow(n: int) {
    4772185884 <= n < 6442450944 || 9544371768 <= n < 10_000_000_000
  }

  // The register after the last digit is wrong and yet no smaller than before it.
  lemma NotSeen(n: nat)
    requires n < 10_000_000_000
    ensures Wrap32(n) < n / 10 || Wrap32(n) == n <==> !InWindow(n)
  {
    var m := 0x1_0000_0000;
    if n < m {
      assert n % m == n;
    } else if n < 2 * m {
      assert n % m == n - m;
    } else {
      assert n % m == n - 2 * m;
    }
  }

  // The smallest number that is accepted with a wrong value.
  lemma OverflowIsAccepted()
    ensures ParseValue(Print(4772185884), 0) == Parsed(Int(477218588), |Print(4772185884)|)
  {
    hide ParseInt32, Spaces, DigitsEnd, Value, Digits;
    var s := Print(4772185884);
    assert s == Digits(4772185884);
    SpacesAt(s, 0, 0);
    assert s[0..|s|] == s;
    DigitsEndAt(s, 0, |s|);
    WrongRegister(s);
  }

  lemma WrongRegister(ds: string)
    requires AllDigits(ds) && Value(ds) == 4772185884
    ensures ParseInt32(ds) == Some(477218588)
  {
    hide Wrap32;
    LastDigit(ds);
    ParseInt32Exact(ds[..|ds| - 1]);
    WrongWrap();
  }

  lemma WrongWrap()
    ensures Wrap32(4772185884) == 477218588
  {
  }

  // A newline comes back as a backslash and a newline.
  lemma NewlineGainsBackslash()
    ensures ParseValue(Text(Str("\na"), 0), 0) == Parsed(Str("\\\na"), 5)
  {
    var text := "\"\\na\"";
    assert Escape("\na") == "\\na" by {
      assert "\na"[..1] == "\n" && "\n"[..0] == "";
    }
    assert Text(Str("\na"), 0) == text;
    SpacesAt(text, 0, 0);
    EscapeStep(text, 1, []);
    assert [] + ['\\', Unescape(text[2]), text[3]] == "\\\na";
    assert ScanString(text, 1, false, []) == Parsed("\\\na", 5);
  }

  // Everything Parse builds is well formed: integers in range, objects sorted by distinct
  // NUL-free keys.
  lemma {:induction false} ParseWellFormed(s: string, i: nat)
    requires i <= |s|
    ensures var r := ParseValue(s, i); r.Parsed? ==> WellFormed(r.value)
    decreases |s| - i, 1
  {
    hide ScanString, ParseNumber, ParseItems, ParseFields;
    var j := Spaces(s, i);
    if j < |s| {
      assert ParseValue(s, i) == ParseToken(s, j);
      if s[j] == '[' {
        assert ParseToken(s, j) == AsArray(ParseItems(s, j + 1, []));
        ItemsWellFormed(s, j + 1, []);
      } else if s[j] == '{' {
        assert ParseToken(s, j) == AsObject(ParseFields(s, j + 1, []));
        FieldsWellFormed(s, j + 1, []);
      }
    }
  }

  lemma {:induction false} ItemsWellFormed(s: string, i: nat, acc: seq<Json>)
    requires i <= |s| && WellFormed(Array(acc))
    ensures var r := ParseItems(s, i, acc); r.Parsed? ==> WellFormed(Array(r.value))
    decreases |s| - i, 2
  {
    hide ParseValue;
    var j := Spaces(s, i);
    if j < |s| && s[j] != ']' {
      ParseWellFormed(s, j);
      var r := NextItem(s, i);
      if r.Next? {
        ItemsWellFormed(s, r.next, acc + [r.item]);
      }
    }
  }

  lemma {:induction false} FieldsWellFormed(s: string, i: nat, acc: seq<Field>)
    requires i <= |s| && WellFormed(Object(acc))
    ensures var r := ParseFields(s, i, acc); r.Parsed? ==> WellFormed(Object(r.value))
    decreases |s| - i, 3
  {
    hide ParseValue, NextKey, WellFormed, Add, CStr;
    var key := NextKey(s, i);
    if key.Next? {
      ParseWellFormed(s, key.next);
      var r := NextField(s, i);
      if r.Next? {
        SetValueKeepsWellFormed(acc, r.item.0, r.item.1);
        FieldsWellFormed(s, r.next, Add(StringLess, acc, CStr(r.item.0), r.item.1));
      }
    }
  }

  lemma SetValueKeepsWellFormed(fields: seq<Field>, key: string, v: Json)
    requires WellFormed(Object(fields)) && WellFormed(v)
    ensures WellFormed(Object(Add(StringLess, fields, CStr(key), v)))
  {
    StringLessIsOrder();
    AddIsUpdate(StringLess, fields, CStr(key), v);
    var fields' := Add(StringLess, fields, CStr(key), v);
    forall i | 0 <= i < |fields'|
      ensures '\0' !in fields'[i].key && WellFormed(fields'[i].value)
    {
      assert fields'[i] in fields';
    }
  }
}
