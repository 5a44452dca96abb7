// JSONValue::Parse: a recursive-descent parser over a byte cursor. The grammar functions
// take the whole text and a position and answer with the position after what they read;
// the methods below them are the cursor code, proved to compute exactly those answers.
module JsonParser {
  import opened Basics
  import opened KeyedVector
  import opened Decimal
  import opened JsonValue
  import opened CText

  // The code answers ERROR_MALFORMED for Malformed and for Unclosed, which is kept apart here:
  // the text ended inside a string literal, not after a backslash. OverRead stands for the one
  // read past the end that the string scanner can make.
  datatype Outcome<+T> = Parsed(value: T, end: nat) | Malformed | Unclosed | OverRead

  // Digits are folded from the left into a register that wraps; a step that makes the
  // register smaller is reported as overflow.
  function ParseInt32(ds: string): (r: Option<int>)
    requires AllDigits(ds)
    ensures r.Some? ==> 0 <= r.value && IsInt32(r.value)
  {
    if ds == [] then Some(0)
    else
      var front := ParseInt32(ds[..|ds| - 1]);
      if front.None? then None
      else
        var x := Wrap32(front.value * 10 + DigitValue(ds[|ds| - 1]));
        if x < front.value then None else Some(x)
  }

  predicate IsEscape(c: char) { c in {'"', '\\', '/', 'b', 'f', 'n', 'r', 't'} }

  function Unescape(c: char): char
    requires IsEscape(c)
  {
    match c
    case 'b' => '\U{8}'
    case 'f' => '\U{c}'
    case 'n' => '\n'
    case 'r' => '\r'
    case 't' => '\t'
    case _ => c
  }

  // The loop after an opening quote. An escape appends the backslash, the decoded byte and,
  // unexamined, the byte that follows it.
  function ScanString(s: string, i: nat, escaped: bool, acc: string): (r: Outcome<string>)
    requires i <= |s|
    ensures r.Parsed? ==> i < r.end <= |s|
    decreases |s| - i
  {
    if i == |s| then (if escaped then Malformed else Unclosed)
    else if escaped then
      if !IsEscape(s[i]) then Malformed
      else if i + 1 == |s| then OverRead
      else ScanString(s, i + 2, false, acc + [Unescape(s[i]), s[i + 1]])
    else if s[i] == '"' then Parsed(acc, i + 1)
    else ScanString(s, i + 1, s[i] == '\\', acc + [s[i]])
  }

  // ".ddd" at k, if there is one: the digits and where they end.
  function ScanFraction(s: string, k: nat): (r: Option<(string, nat)>)
    requires k <= |s|
    ensures r.Some? ==> AllDigits(r.value.0) && k <= r.value.1 <= |s|
  {
    if k < |s| && s[k] == '.' then
      var e := DigitsEnd(s, k + 1);
      if e == k + 1 then None else Some((s[k + 1..e], e))
    else Some(([], k))
  }

  // "e+ddd" at k, if there is one: whether it is negative, the digits and where they end.
  function ScanExponent(s: string, k: nat): (r: Option<(bool, string, nat)>)
    requires k <= |s|
    ensures r.Some? ==> AllDigits(r.value.1) && k <= r.value.2 <= |s|
  {
    if k < |s| && (s[k] == 'e' || s[k] == 'E') then
      if k + 1 == |s| then None
      else
        var d := if s[k + 1] == '+' || s[k + 1] == '-' then k + 2 else k + 1;
        var e := DigitsEnd(s, d);
        if e == d then None else Some((s[k + 1] == '-', s[d..e], e))
    else Some((false, [], k))
  }

  function NumberOf(negate: bool, digits: string, frac: string, negateExp: bool, exp: string): (r: Option<Json>)
    requires AllDigits(digits) && AllDigits(frac) && AllDigits(exp)
    ensures r.Some? ==> WellFormed(r.value) && (r.value.Int? || r.value.Float?)
  {
    var mantissa, fraction, exponent := ParseInt32(digits), ParseInt32(frac), ParseInt32(exp);
    if mantissa.None? then None
    else if frac == [] && exp == [] then
      Some(Int(if negate then -mantissa.value else mantissa.value))
    else if fraction.None? || exponent.None? then None
    else
      var x := if negateExp then -exponent.value else exponent.value;
      Some(Float(negate, mantissa.value, fraction.value, Wrap32(x - |frac|)))
  }

  function ParseNumber(s: string, i: nat): (r: Outcome<Json>)
    requires i < |s| && (IsDigit(s[i]) || s[i] == '-')
    ensures r.Parsed? ==> i < r.end <= |s|
    ensures r.Parsed? ==> r.value.Int? || r.value.Float?
    ensures r.Parsed? ==> WellFormed(r.value)
    ensures !r.OverRead? && !r.Unclosed?
  {
    var first := if s[i] == '-' then i + 1 else i;
    if first == |s| then Malformed
    else
      var e := DigitsEnd(s, first);
      if e - first > 1 && s[first] == '0' then Malformed
      else
        match ScanFraction(s, e)
        case None => Malformed
        case Some((frac, k)) =>
          match ScanExponent(s, k)
          case None => Malformed
          case Some((negateExp, exp, end)) =>
            match NumberOf(first > i, s[first..e], frac, negateExp, exp)
            case None => Malformed
            case Some(v) => Parsed(v, end)
  }

  predicate StartsWith(s: string, i: nat, word: string) {
    i + |word| <= |s| && s[i..i + |word|] == word
  }

  function ParseValue(s: string, i: nat): (r: Outcome<Json>)
    requires i <= |s|
    ensures r.Parsed? ==> i < r.end <= |s|
    decreases |s| - i, 2
  {
    var j := Spaces(s, i);
    if j == |s| then Malformed else ParseToken(s, j)
  }

  function ParseToken(s: string, i: nat): (r: Outcome<Json>)
    requires i < |s|
    ensures r.Parsed? ==> i < r.end <= |s|
    decreases |s| - i, 1
  {
    if s[i] == '[' then AsArray(ParseItems(s, i + 1, []))
    else if s[i] == '{' then AsObject(ParseFields(s, i + 1, []))
    else if s[i] == '"' then AsString(ScanString(s, i + 1, false, []))
    else if IsDigit(s[i]) || s[i] == '-' then ParseNumber(s, i)
    else if StartsWith(s, i, "null") then Parsed(Null, i + 4)
    else if StartsWith(s, i, "true") then Parsed(Bool(true), i + 4)
    else if StartsWith(s, i, "false") then Parsed(Bool(false), i + 5)
    else Malformed
  }

  function AsString(r: Outcome<string>): Outcome<Json> {
    match r
    case Parsed(t, n) => Parsed(Str(t), n)
    case Malformed => Malformed
    case Unclosed => Unclosed
    case OverRead => OverRead
  }

  function AsArray(r: Outcome<seq<Json>>): Outcome<Json> {
    match r
    case Parsed(items, n) => Parsed(Array(items), n)
    case Malformed => Malformed
    case Unclosed => Unclosed
    case OverRead => OverRead
  }

  function AsObject(r: Outcome<seq<Field>>): Outcome<Json> {
    match r
    case Parsed(fields, n) => Parsed(Object(fields), n)
    case Malformed => Malformed
    case Unclosed => Unclosed
    case OverRead => OverRead
  }

  // One round of the loop after an opening bracket: the closing bracket, an element with
  // the place where the next round starts, or a failure.
  datatype Round<+T> = Close(end: nat) | Next(item: T, next: nat) | Bad | Open | Over

  function NextItem(s: string, i: nat): (r: Round<Json>)
    requires i <= |s|
    ensures r.Close? ==> i < r.end <= |s|
    ensures r.Next? ==> i < r.next <= |s|
    decreases |s| - i, 3
  {
    var j := Spaces(s, i);
    if j == |s| then Bad
    else if s[j] == ']' then Close(j + 1)
    else
      match ParseValue(s, j)
      case Malformed => Bad
      case Unclosed => Open
      case OverRead => Over
      case Parsed(v, e) =>
        var k := Spaces(s, e);
        if k == |s| then Bad
        else if s[k] == ',' then Next(v, k + 1)
        else if s[k] == ']' then Next(v, k)
        else Bad
  }

  // The loop after '['. A comma before the closing bracket is tolerated.
  function ParseItems(s: string, i: nat, acc: seq<Json>): (r: Outcome<seq<Json>>)
    requires i <= |s|
    ensures r.Parsed? ==> i < r.end <= |s|
    decreases |s| - i, 4
  {
    match NextItem(s, i)
    case Close(end) => Parsed(acc, end)
    case Next(v, n) => ParseItems(s, n, acc + [v])
    case Bad => Malformed
    case Open => Unclosed
    case Over => OverRead
  }

  // The first half of an object round: the key and the place after its colon.
  function NextKey(s: string, i: nat): (r: Round<string>)
    requires i <= |s|
    ensures r.Close? ==> i < r.end <= |s|
    ensures r.Next? ==> i < r.next <= |s|
    decreases |s| - i, 3
  {
    var j := Spaces(s, i);
    if j == |s| then Bad
    else if s[j] == '}' then Close(j + 1)
    else
      match ParseValue(s, j)
      case Malformed => Bad
      case Unclosed => Open
      case OverRead => Over
      case Parsed(key, e) =>
        var colon := Spaces(s, e);
        if !key.Str? || colon == |s| || s[colon] != ':' then Bad else Next(key.s, colon + 1)
  }

  function NextField(s: string, i: nat): (r: Round<(string, Json)>)
    requires i <= |s|
    ensures r.Close? ==> i < r.end <= |s|
    ensures r.Next? ==> i < r.next <= |s|
    decreases |s| - i, 4
  {
    match NextKey(s, i)
    case Close(end) => Close(end)
    case Bad => Bad
    case Open => Open
    case Over => Over
    case Next(key, j) =>
      match ParseValue(s, j)
      case Malformed => Bad
      case Unclosed => Open
      case OverRead => Over
      case Parsed(v, e) =>
        var k := Spaces(s, e);
        if k == |s| then Bad
        else if s[k] == ',' then Next((key, v), k + 1)
        else if s[k] == '}' then Next((key, v), k)
        else Bad
  }

  // The loop after '{'. A later duplicate of a key replaces the earlier value.
  function ParseFields(s: string, i: nat, acc: seq<Field>): (r: Outcome<seq<Field>>)
    requires i <= |s|
    ensures r.Parsed? ==> i < r.end <= |s|
    decreases |s| - i, 5
  {
    match NextField(s, i)
    case Close(end) => Parsed(acc, end)
    case Next(f, n) => ParseFields(s, n, Add(StringLess, acc, CStr(f.0), f.1))
    case Bad => Malformed
    case Open => Unclosed
    case Over => OverRead
  }

  // ---------------------------------------------------------------- the cursor code

  method SkipSpaces(data: string, from: nat) returns (offset: nat)
    requires from <= |data|
    ensures offset == Spaces(data, from)
  {
    offset := from;
    while offset < |data| && IsSpace(data[offset])
      invariant from <= offset <= |data|
      invariant Spaces(data, offset) == Spaces(data, from)
    {
      offset := offset + 1;
    }
  }

  method SkipDigits(data: string, from: nat) returns (offset: nat)
    requires from <= |data|
    ensures offset == DigitsEnd(data, from)
  {
    offset := from;
    while offset < |data| && IsDigit(data[offset])
      invariant from <= offset <= |data|
      invariant DigitsEnd(data, offset) == DigitsEnd(data, from)
    {
      offset := offset + 1;
    }
  }

  lemma WrapSum(a: int, b: int)
    ensures Wrap32(Wrap32(a) + b) == Wrap32(a + b)
  {
    var k := (a - Wrap32(a)) / 0x1_0000_0000;
    assert a == Wrap32(a) + k * 0x1_0000_0000;
    assert (Wrap32(a) + b) % 0x1_0000_0000 == (a + b) % 0x1_0000_0000;
  }

  lemma {:induction false} NoneStays(ds: string, k: nat)
    requires k <= |ds| && AllDigits(ds) && ParseInt32(ds[..k]).None?
    ensures ParseInt32(ds).None?
  {
    if k == |ds| {
      assert ds[..k] == ds;
    } else {
      var front := ds[..|ds| - 1];
      assert front[..k] == ds[..k];
      NoneStays(front, k);
    }
  }

  method FoldInt32(ds: string) returns (r: Option<int>)
    requires AllDigits(ds)
    ensures r == ParseInt32(ds)
  {
    hide Wrap32;
    var x := 0;
    for i := 0 to |ds|
      invariant ParseInt32(ds[..i]) == Some(x)
    {
      assert ds[..i + 1][..i] == ds[..i];
      var old_x := x;
      WrapSum(x * 10, DigitValue(ds[i]));
      x := Wrap32(x * 10);
      x := Wrap32(x + DigitValue(ds[i]));
      if x < old_x {
        NoneStays(ds, i + 1);
        return None;
      }
    }
    assert ds[..|ds|] == ds;
    return Some(x);
  }

  method ReadString(data: string, from: nat) returns (r: Outcome<string>)
    requires from <= |data|
    ensures r == ScanString(data, from, false, [])
  {
    var offset, s, escaped := from, [], false;
    while offset < |data|
      invariant from <= offset <= |data|
      invariant ScanString(data, offset, escaped, s) == ScanString(data, from, false, [])
    {
      if escaped {
        if !IsEscape(data[offset]) {
          return Malformed;
        }
        s := s + [Unescape(data[offset])];
        if offset + 1 == |data| {
          return OverRead;
        }
        assert s[..|s| - 1] + [Unescape(data[offset]), data[offset + 1]] == s + [data[offset + 1]];
        offset := offset + 1;
        escaped := false;
      } else if data[offset] == '\\' {
        escaped := true;
      } else if data[offset] == '"' {
        break;
      }
      s := s + [data[offset]];
      offset := offset + 1;
    }
    if offset == |data| {
      return if escaped then Malformed else Unclosed;
    }
    return Parsed(s, offset + 1);
  }

  method ReadFraction(s: string, from: nat) returns (r: Option<(string, nat)>)
    requires from <= |s|
    ensures r == ScanFraction(s, from)
  {
    if from < |s| && s[from] == '.' {
      var end := SkipDigits(s, from + 1);
      if end == from + 1 {
        return None;
      }
      return Some((s[from + 1..end], end));
    }
    return Some(([], from));
  }

  method ReadExponent(s: string, from: nat) returns (r: Option<(bool, string, nat)>)
    requires from <= |s|
    ensures r == ScanExponent(s, from)
  {
    if from < |s| && (s[from] == 'e' || s[from] == 'E') {
      var offset, negate := from + 1, false;
      if offset == |s| {
        return None;
      }
      if s[offset] == '+' || s[offset] == '-' {
        if s[offset] == '-' {
          negate := true;
        }
        offset := offset + 1;
      }
      var end := SkipDigits(s, offset);
      if end == offset {
        return None;
      }
      return Some((negate, s[offset..end], end));
    }
    return Some((false, [], from));
  }

  method ReadNumber(data: string, from: nat) returns (r: Outcome<Json>)
    requires from < |data| && (IsDigit(data[from]) || data[from] == '-')
    ensures r == ParseNumber(data, from)
  {
    hide ParseInt32, DigitsEnd, ScanFraction, ScanExponent;
    var firstDigit, negate := from, false;
    if data[from] == '-' {
      negate := true;
      firstDigit := firstDigit + 1;
      if firstDigit == |data| {
        return Malformed;
      }
    }
    var offset := SkipDigits(data, firstDigit);
    if offset - firstDigit > 1 && data[firstDigit] == '0' {
      return Malformed;
    }
    var digits := data[firstDigit..offset];
    var frac := ReadFraction(data, offset);
    if frac.None? {
      return Malformed;
    }
    var exp := ReadExponent(data, frac.value.1);
    if exp.None? {
      return Malformed;
    }
    var mantissa := FoldInt32(digits);
    if mantissa.None? {
      return Malformed;
    }
    if |frac.value.0| == 0 && |exp.value.1| == 0 {
      return Parsed(Int(if negate then -mantissa.value else mantissa.value), exp.value.2);
    }
    var fraction := FoldInt32(frac.value.0);
    if fraction.None? {
      return Malformed;
    }
    var exponent := FoldInt32(exp.value.1);
    if exponent.None? {
      return Malformed;
    }
    var x := if exp.value.0 then -exponent.value else exponent.value;
    return Parsed(Float(negate, mantissa.value, fraction.value, Wrap32(x - |frac.value.0|)), exp.value.2);
  }

  // Parse from a position: the value and the position after it, as the grammar says.
  method Parse(data: string, from: nat) returns (r: Outcome<Json>)
    requires from <= |data|
    ensures r == ParseValue(data, from)
    decreases |data| - from, 2
  {
    hide ParseNumber, ParseItems, ParseFields, ScanString;
    var offset := SkipSpaces(data, from);
    if offset == |data| {
      return Malformed;
    }
    if data[offset] == '[' {
      r := ReadArray(data, offset + 1);
    } else if data[offset] == '{' {
      r := ReadObject(data, offset + 1);
    } else if data[offset] == '"' {
      var t := ReadString(data, offset + 1);
      r := AsString(t);
    } else if IsDigit(data[offset]) || data[offset] == '-' {
      r := ReadNumber(data, offset);
    } else if StartsWith(data, offset, "null") {
      r := Parsed(Null, offset + 4);
    } else if StartsWith(data, offset, "true") {
      r := Parsed(Bool(true), offset + 4);
    } else if StartsWith(data, offset, "false") {
      r := Parsed(Bool(false), offset + 5);
    } else {
      r := Malformed;
    }
  }

  method ReadItem(data: string, from: nat) returns (r: Round<Json>)
    requires from <= |data|
    ensures r == NextItem(data, from)
    decreases |data| - from, 3
  {
    hide ParseValue, Spaces;
    var offset := SkipSpaces(data, from);
    if offset == |data| {
      return Bad;
    }
    if data[offset] == ']' {
      return Close(offset + 1);
    }
    var val := Parse(data, offset);
    if !val.Parsed? {
      return if val.Malformed? then Bad else if val.Unclosed? then Open else Over;
    }
    offset := SkipSpaces(data, val.end);
    if offset == |data| {
      return Bad;
    }
    if data[offset] == ',' {
      offset := offset + 1;
    } else if data[offset] != ']' {
      return Bad;
    }
    return Next(val.value, offset);
  }

  method ReadKey(data: string, from: nat) returns (r: Round<string>)
    requires from <= |data|
    ensures r == NextKey(data, from)
    decreases |data| - from, 3
  {
    hide ParseValue, Spaces;
    var offset := SkipSpaces(data, from);
    if offset == |data| {
      return Bad;
    }
    if data[offset] == '}' {
      return Close(offset + 1);
    }
    var key := Parse(data, offset);
    if !key.Parsed? {
      return if key.Malformed? then Bad else if key.Unclosed? then Open else Over;
    }
    if !key.value.Str? {
      return Bad;
    }
    offset := SkipSpaces(data, key.end);
    if offset == |data| || data[offset] != ':' {
      return Bad;
    }
    return Next(key.value.s, offset + 1);
  }

  method ReadField(data: string, from: nat) returns (r: Round<(string, Json)>)
    requires from <= |data|
    ensures r == NextField(data, from)
    decreases |data| - from, 4
  {
    hide ParseValue, Spaces, NextKey;
    var key := ReadKey(data, from);
    match key {
      case Close(end) => return Close(end);
      case Bad => return Bad;
      case Open => return Open;
      case Over => return Over;
      case Next(k, offset) =>
        var val := Parse(data, offset);
        if !val.Parsed? {
          return if val.Malformed? then Bad else if val.Unclosed? then Open else Over;
        }
        var end := SkipSpaces(data, val.end);
        if end == |data| {
          return Bad;
        }
        if data[end] == ',' {
          end := end + 1;
        } else if data[end] != '}' {
          return Bad;
        }
        return Next((k, val.value), end);
    }
  }

  method ReadArray(data: string, from: nat) returns (r: Outcome<Json>)
    requires from <= |data|
    ensures r == AsArray(ParseItems(data, from, []))
    decreases |data| - from, 4
  {
    hide NextItem;
    var list := new JSONArray();
    var offset := from;
    while true
      invariant from <= offset <= |data|
      invariant ParseItems(data, offset, list.mValues) == ParseItems(data, from, [])
      decreases |data| - offset
    {
      var round := ReadItem(data, offset);
      match round {
        case Close(end) => return Parsed(Array(list.mValues), end);
        case Next(val, n) =>
          list.AddValue(val);
          offset := n;
        case Bad => return Malformed;
        case Open => return Unclosed;
        case Over => return OverRead;
      }
    }
  }

  method ReadObject(data: string, from: nat) returns (r: Outcome<Json>)
    requires from <= |data|
    ensures r == AsObject(ParseFields(data, from, []))
    decreases |data| - from, 5
  {
    hide NextField;
    var obj := new JSONObject();
    var offset := from;
    while true
      invariant from <= offset <= |data|
      invariant SortedKeys(obj.mValues)
      invariant ParseFields(data, offset, obj.mValues) == ParseFields(data, from, [])
      decreases |data| - offset
    {
      var round := ReadField(data, offset);
      match round {
        case Close(end) => return Parsed(Object(obj.mValues), end);
        case Next(field, n) =>
          obj.SetValue(field.0, field.1);
          offset := n;
        case Bad => return Malformed;
        case Open => return Unclosed;
        case Over => return OverRead;
      }
    }
  }
}
