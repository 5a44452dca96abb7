// What the number branch of the parser makes of a number, over the reals: its parts are read as
// they are meant, but the exponent reaches the fraction only.
module JsonNumbers {
  import opened Basics
  import opened Decimal
  import opened JsonValue
  import opened JsonParser
  import opened JsonRoundTrip

  // ---------------------------------------------------------------- the parts of a number

  // ".ddd" from e to k, or nothing there.
  predicate FractionAt(s: string, e: nat, k: nat) {
    if k == e then e <= |s| && (e < |s| ==> s[e] != '.')
    else
      && e + 1 < k <= |s| && s[e] == '.' && AllDigits(s[e + 1..k]) && (k < |s| ==> !IsDigit(s[k]))
  }

  // "e+ddd" from k to end with the digits from x on, or nothing there.
  predicate ExponentAt(s: string, k: nat, x: nat, end: nat) {
    if end == k then k <= |s| && (k < |s| ==> s[k] != 'e' && s[k] != 'E')
    else
      && k + 1 <= x < end <= |s| && (s[k] == 'e' || s[k] == 'E')
      && x == (if s[k + 1] == '+' || s[k + 1] == '-' then k + 2 else k + 1)
      && AllDigits(s[x..end]) && (end < |s| ==> !IsDigit(s[end]))
  }

  // The number at i: digits up to e, a fraction up to k, an exponent up to end.
  predicate NumberAt(s: string, i: nat, e: nat, k: nat, x: nat, end: nat) {
    && i < |s| && (IsDigit(s[i]) || s[i] == '-')
    && var first := if s[i] == '-' then i + 1 else i;
    && first < e <= |s| && AllDigits(s[first..e]) && (e < |s| ==> !IsDigit(s[e]))
    && (e - first > 1 ==> s[first] != '0')
    && FractionAt(s, e, k) && ExponentAt(s, k, x, end)
  }

  function Whole(s: string, i: nat, e: nat): nat
    requires i < e <= |s| && AllDigits(s[(if s[i] == '-' then i + 1 else i)..e])
    requires s[i] == '-' ==> i + 1 <= e
  {
    Value(s[(if s[i] == '-' then i + 1 else i)..e])
  }

  function Decimals(s: string, e: nat, k: nat): nat
    requires FractionAt(s, e, k)
  {
    if k == e then 0 else Value(s[e + 1..k])
  }

  function Power(s: string, k: nat, x: nat, end: nat): int
    requires ExponentAt(s, k, x, end)
  {
    if end == k then 0
    else
      var n: int := Value(s[x..end]);
      if s[k + 1] == '-' then -n else n
  }

  function Places(e: nat, k: nat): nat
    requires e <= k
  {
    if k == e then 0 else k - e - 1
  }

  // Any number whose parts fit the registers is read up to its end, as an integer if it has neither
  // fraction nor exponent.
  lemma NumberIsRead(s: string, i: nat, e: nat, k: nat, x: nat, end: nat)
    requires NumberAt(s, i, e, k, x, end)
    requires Whole(s, i, e) <= INT32_MAX && Decimals(s, e, k) <= INT32_MAX
    requires -INT32_MAX <= Power(s, k, x, end) <= INT32_MAX && IsInt32(Power(s, k, x, end) - Places(e, k))
    ensures var m: int := Whole(s, i, e);
      ParseNumber(s, i) == Parsed(
        if end == e then Int(if s[i] == '-' then -m else m)
        else Float(s[i] == '-', m, Decimals(s, e, k), Power(s, k, x, end) - Places(e, k)), end)
  {
    hide DigitsEnd, Value, ParseInt32, Wrap32, ScanFraction, ScanExponent, Decimals, Power;
    var first := if s[i] == '-' then i + 1 else i;
    DigitsEndAt(s, first, e);
    ParseInt32Exact(s[first..e]);
    FractionIsRead(s, e, k);
    ExponentIsRead(s, k, x, end);
    NumberOfParts(s[i] == '-', s[first..e], if k == e then "" else s[e + 1..k],
                  end != k && s[k + 1] == '-', if end == k then "" else s[x..end]);
  }

  lemma NumberOfParts(negate: bool, digits: string, frac: string, negateExp: bool, exp: string)
    requires AllDigits(digits) && AllDigits(frac) && AllDigits(exp)
    requires Value(digits) <= INT32_MAX && Value(frac) <= INT32_MAX && Value(exp) <= INT32_MAX
    requires var n: int := Value(exp); IsInt32((if negateExp then -n else n) - |frac|)
    ensures var m: int, n: int := Value(digits), Value(exp);
      NumberOf(negate, digits, frac, negateExp, exp) == Some(
        if frac == "" && exp == "" then Int(if negate then -m else m)
        else Float(negate, m, Value(frac), (if negateExp then -n else n) - |frac|))
  {
    hide Value, ParseInt32, AllDigits;
    ParseInt32Exact(digits);
    ParseInt32Exact(frac);
    ParseInt32Exact(exp);
  }

  lemma NothingIsZero()
    ensures Value("") == 0 && ParseInt32("") == Some(0)
  {
  }

  lemma FractionIsRead(s: string, e: nat, k: nat)
    requires FractionAt(s, e, k)
    ensures var digits := if k == e then "" else s[e + 1..k];
      && ScanFraction(s, e) == Some((digits, k)) && |digits| == Places(e, k)
      && AllDigits(digits) && Value(digits) == Decimals(s, e, k)
      && (Decimals(s, e, k) <= INT32_MAX ==> ParseInt32(digits) == Some(Decimals(s, e, k)))
      && (digits == "" <==> k == e)
  {
    hide DigitsEnd, Value, ParseInt32;
    NothingIsZero();
    if k != e {
      DigitsEndAt(s, e + 1, k);
      ParseInt32Exact(s[e + 1..k]);
    }
  }

  lemma ExponentIsRead(s: string, k: nat, x: nat, end: nat)
    requires ExponentAt(s, k, x, end)
    ensures var digits := if end == k then "" else s[x..end];
      && ScanExponent(s, k) == Some((end != k && s[k + 1] == '-', digits, end))
      && AllDigits(digits) && (digits == "" <==> end == k)
      && (Value(digits) <= INT32_MAX ==> ParseInt32(digits) == Some(Value(digits)))
      && Power(s, k, x, end) == if end != k && s[k + 1] == '-' then 0 - Value(digits) else Value(digits)
  {
    hide DigitsEnd, Value, ParseInt32;
    NothingIsZero();
    if end != k {
      DigitsEndAt(s, x, end);
      ParseInt32Exact(s[x..end]);
    }
  }

  // ---------------------------------------------------------------- what is rejected

  lemma LeadingZeroIsRejected(s: string, i: nat)
    requires i < |s| && (IsDigit(s[i]) || s[i] == '-')
    requires var first := if s[i] == '-' then i + 1 else i;
      first + 1 < |s| && s[first] == '0' && IsDigit(s[first + 1])
    ensures ParseNumber(s, i) == Malformed
  {
    var first := if s[i] == '-' then i + 1 else i;
    assert DigitsEnd(s, first) == DigitsEnd(s, first + 1) == DigitsEnd(s, first + 2);
  }

  lemma PointNeedsDigits(s: string, k: nat)
    requires k < |s| && s[k] == '.' && (k + 1 < |s| ==> !IsDigit(s[k + 1]))
    ensures ScanFraction(s, k) == None
  {
  }

  lemma ExponentNeedsDigits(s: string, k: nat)
    requires k < |s| && (s[k] == 'e' || s[k] == 'E')
    requires k + 1 < |s| && (s[k + 1] == '+' || s[k + 1] == '-') ==> k + 2 < |s| ==> !IsDigit(s[k + 2])
    requires k + 1 < |s| ==> !IsDigit(s[k + 1])
    ensures ScanExponent(s, k) == None
  {
  }

  lemma MinusAtEndIsRejected(s: string, i: nat)
    requires i + 1 == |s| && s[i] == '-'
    ensures ParseNumber(s, i) == Malformed
  {
  }

  // A minus without digits is 0, if only something follows it.
  lemma BareMinusIsZero(s: string, i: nat)
    requires i + 1 < |s| && s[i] == '-' && EndsNumber(s, i + 1)
    ensures ParseNumber(s, i) == Parsed(Int(0), i + 1)
  {
    NothingIsZero();
    assert s[i + 1..i + 1] == "";
  }

  // ---------------------------------------------------------------- the value of a float

  function Ten(n: int): (r: real)
    ensures r > 0.0
    decreases if n < 0 then -n else n
  {
    if n == 0 then 1.0 else if n > 0 then 10.0 * Ten(n - 1) else Ten(n + 1) / 10.0
  }

  // What the code computes, without its rounding.
  function Computed(v: Json): real
    requires v.Float?
  {
    var x := v.mantissa as real + v.fraction as real * Ten(v.scale);
    if v.negative then -x else x
  }

  // What section 6 of RFC 8259 means: the exponent scales the whole number.
  function Meant(negative: bool, m: int, f: int, places: nat, power: int): real {
    var x := (m as real + f as real * Ten(0 - places)) * Ten(power);
    if negative then -x else x
  }

  lemma {:induction false} TenStep(n: int)
    ensures Ten(n + 1) == 10.0 * Ten(n)
  {
  }

  lemma {:induction false} TenSum(a: int, b: int)
    ensures Ten(a + b) == Ten(a) * Ten(b)
    decreases if b < 0 then -b else b
  {
    hide Ten;
    TenZero();
    if b > 0 {
      TenSum(a, b - 1);
      TenStep(a + b - 1);
      TenStep(b - 1);
      Regroup(Ten(a), Ten(b - 1));
    } else if b < 0 {
      TenSum(a, b + 1);
      TenStep(a + b);
      TenStep(b);
      Regroup(Ten(a), Ten(b));
    }
  }

  lemma Regroup(p: real, q: real)
    ensures p * (10.0 * q) == 10.0 * (p * q)
  {
  }

  lemma {:induction false} TenIsOneIff(n: int)
    ensures n > 0 ==> Ten(n) > 1.0
    ensures n < 0 ==> Ten(n) < 1.0
    decreases if n < 0 then -n else n
  {
    if n > 0 {
      TenIsOneIff(n - 1);
    } else if n < 0 {
      TenIsOneIff(n + 1);
    }
  }

  // A number with a fraction or an exponent has the value it is meant to have exactly if the
  // exponent is zero or the part before the point is: the code scales the fraction alone.
  lemma FloatIsMeantIff(negative: bool, m: int, f: int, places: nat, power: int)
    ensures Computed(Float(negative, m, f, power - places)) == Meant(negative, m, f, places, power)
       <==> power == 0 || m == 0
  {
    hide Ten;
    TenSum(0 - places, power);
    TenIsOneIff(power);
    TenZero();
    assert 0 - places + power == power - places;
    ScaledAlikeIff(m as real, f as real, Ten(0 - places), Ten(power), Ten(power - places));
  }

  lemma ScaledAlikeIff(m: real, f: real, p: real, q: real, t: real)
    requires t == p * q
    ensures m + f * t == (m + f * p) * q <==> m == 0.0 || q == 1.0
  {
    Distribute(m, f, p, q, t);
    Scaled(m, q);
    SameRest(m, m * q, f * t);
  }

  lemma TenZero()
    ensures Ten(0) == 1.0
  {
  }

  lemma Distribute(m: real, f: real, p: real, q: real, t: real)
    requires t == p * q
    ensures (m + f * p) * q == m * q + f * t
  {
    assert f * t == (f * p) * q;
  }

  lemma SameRest(a: real, b: real, rest: real)
    ensures a + rest == b + rest <==> a == b
  {
  }

  lemma Scaled(m: real, q: real)
    ensures m * q == m <==> m == 0.0 || q == 1.0
  {
    if m != 0.0 && q != 1.0 {
      assert m * q - m == m * (q - 1.0);
    }
  }

  // 12.5e3 is read as 512.
  lemma ExponentMissesMantissa()
    ensures ParseNumber("12.5e3", 0) == Parsed(Float(false, 12, 5, 2), 6)
    ensures Computed(Float(false, 12, 5, 2)) == 512.0 && Meant(false, 12, 5, 1, 3) == 12500.0
  {
    var s := "12.5e3";
    assert s[0..2] == "12" && s[3..4] == "5" && s[5..6] == "3";
    assert "12"[..1] == "1" && "1"[..0] == "";
    assert Value("1") == 1 && Value("12") == 12 && Value("5") == 5 && Value("3") == 3;
    NumberIsRead(s, 0, 2, 4, 5, 6);
    assert Ten(1) == 10.0 && Ten(2) == 100.0 && Ten(3) == 1000.0 && Ten(-1) == 0.1;
  }
}
