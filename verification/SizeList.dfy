// The "WxH" size strings of CameraParameters.cpp: parse_pair, parseSizesList and the
// "%dx%d" texts they are meant to read back.
module SizeList {
  import opened Basics
  import opened Decimal
  import opened CText

  type Size = (int, int)

  const LONG_MAX: int := 0x7fff_ffff_ffff_ffff

  // strtol in base 10: blanks, an optional sign and digits, saturating at the range of a
  // 64-bit long; without digits the answer is 0 and nothing is consumed.
  function Strtol(s: string, i: nat): (r: (int, nat))
    requires i <= |s|
    ensures i <= r.1 <= |s|
  {
    var j := Spaces(s, i);
    var first := if j < |s| && (s[j] == '-' || s[j] == '+') then j + 1 else j;
    var e := DigitsEnd(s, first);
    if e == first then (0, i)
    else
      var n: int := Value(s[first..e]);
      (if first > j && s[j] == '-' then (if n > LONG_MAX + 1 then -LONG_MAX - 1 else -n)
       else (if n > LONG_MAX then LONG_MAX else n), e)
  }

  // Two integers around a delimiter; the casts to int truncate to 32 bits.
  function Pair(s: string, i: nat, delim: char): (r: Option<(int, int, nat)>)
    requires i <= |s|
    ensures r.Some? ==> i < r.value.2 <= |s|
    ensures r.Some? ==> IsInt32(r.value.0) && IsInt32(r.value.1)
  {
    var (w, e) := Strtol(s, i);
    if e == |s| || s[e] != delim then None
    else
      var (h, e2) := Strtol(s, e + 1);
      Some((Wrap32(w), Wrap32(h), e2))
  }

  // The sizes pushed from position i on; the loop stops at the first entry it cannot read.
  function Sizes(s: string, i: nat, acc: seq<Size>): (r: seq<Size>)
    requires i <= |s|
    ensures acc <= r
    decreases |s| - i
  {
    match Pair(s, i, 'x')
    case None => acc
    case Some((w, h, e)) =>
      if e < |s| && s[e] != ',' then acc
      else if e == |s| then acc + [(w, h)]
      else Sizes(s, e + 1, acc + [(w, h)])
  }

  method ParsePair(s: string, from: nat, delim: char) returns (r: Option<(int, int, nat)>)
    requires from <= |s|
    ensures r == Pair(s, from, delim)
  {
    var first := Strtol(s, from);
    if first.1 == |s| || s[first.1] != delim {
      return None;
    }
    var second := Strtol(s, first.1 + 1);
    return Some((Wrap32(first.0), Wrap32(second.0), second.1));
  }

  // parseSizesList; a null string leaves the list alone.
  method ParseSizesList(str: Option<string>, given: seq<Size>) returns (sizes: seq<Size>)
    ensures sizes == if str.None? then given else Sizes(str.value, 0, given)
  {
    hide Pair;
    sizes := given;
    if str.None? {
      return;
    }
    var s, start := str.value, 0;
    while true
      invariant start <= |s|
      invariant Sizes(s, start, sizes) == Sizes(s, 0, given)
      decreases |s| - start
    {
      var pair := ParsePair(s, start, 'x');
      if pair.None? {
        return;
      }
      var (w, h, end) := pair.value;
      if end < |s| && s[end] != ',' {
        return;
      }
      sizes := sizes + [(w, h)];
      if end == |s| {
        return;
      }
      start := end + 1;
    }
  }

  // ---------------------------------------------------------------- printed sizes

  function PrintSize(z: Size): string { Print(z.0) + "x" + Print(z.1) }

  function PrintSizes(zs: seq<Size>): string {
    if zs == [] then []
    else if |zs| == 1 then PrintSize(zs[0])
    else PrintSize(zs[0]) + "," + PrintSizes(zs[1..])
  }

  ghost predicate Int32Size(z: Size) { IsInt32(z.0) && IsInt32(z.1) }

  lemma StrtolPrinted(s: string, i: nat, n: int)
    requires IsInt32(n) && At(s, i, Print(n))
    requires i + |Print(n)| < |s| ==> !IsDigit(s[i + |Print(n)|])
    ensures i <= |s| && Strtol(s, i) == (n, i + |Print(n)|)
  {
    hide Digits, DigitsEnd, Value, Spaces, At, Print;
    var ds := Digits(if n < 0 then -n else n);
    var first := if n < 0 then i + 1 else i;
    PrintedAt(s, i, n);
    AtSlice(s, first, ds);
    SpacesAt(s, i, i);
    DigitsEndAt(s, first, first + |ds|);
  }

  // A printed integer is its sign and the digits of its magnitude.
  lemma PrintedAt(s: string, i: nat, n: int)
    requires At(s, i, Print(n))
    ensures var ds := Digits(if n < 0 then -n else n);
      var first := if n < 0 then i + 1 else i;
      && first + |ds| == i + |Print(n)| <= |s|
      && At(s, first, ds) && IsDigit(s[first]) && (n < 0 ==> s[i] == '-')
  {
    hide Digits, AllDigits;
    var ds := Digits(if n < 0 then -n else n);
    DigitsStart(if n < 0 then -n else n);
    if n < 0 {
      AtSplit(s, i, ['-'], ds);
      AtChar(s, i, '-');
      assert s[i + 1 + 0] == ds[0];
    } else {
      assert s[i + 0] == ds[0];
    }
  }

  lemma DigitsStart(n: nat)
    ensures IsDigit(Digits(n)[0])
  {
  }

  // What strtol makes of blanks from i to j, a sign or none, and digits from first to e: the number
  // with its sign, held at the ends of the range of a long, and the place behind the digits. With
  // no digit there it is 0 and nothing is taken.
  lemma StrtolReads(s: string, i: nat, j: nat, first: nat, e: nat)
    requires BlankRun(s, i, j) && (j < |s| ==> !IsSpace(s[j]))
    requires if j < |s| && (s[j] == '-' || s[j] == '+') then first == j + 1 else first == j
    requires first <= e <= |s| && AllDigits(s[first..e]) && (e < |s| ==> !IsDigit(s[e]))
    ensures e == first ==> Strtol(s, i) == (0, i)
    ensures e > first ==>
      var n: int := Value(s[first..e]);
      && Strtol(s, i).1 == e
      && (j < first && s[j] == '-' ==> Strtol(s, i).0 == Max(-n, -0x8000_0000_0000_0000))
      && (!(j < first && s[j] == '-') ==> Strtol(s, i).0 == Min(n, 0x7fff_ffff_ffff_ffff))
  {
    hide Value, Spaces, DigitsEnd;
    SpacesAt(s, i, j);
    DigitsEndAt(s, first, e);
  }

  // A printed size is read back wherever it stands, and exactly its text is consumed.
  lemma PairPrinted(s: string, i: nat, z: Size)
    requires Int32Size(z) && At(s, i, PrintSize(z))
    requires i + |PrintSize(z)| < |s| ==> !IsDigit(s[i + |PrintSize(z)|])
    ensures i <= |s| && Pair(s, i, 'x') == Some((z.0, z.1, i + |PrintSize(z)|))
  {
    hide Print, Strtol;
    AtSplit(s, i, Print(z.0) + "x", Print(z.1));
    AtSplit(s, i, Print(z.0), "x");
    AtChar(s, i + |Print(z.0)|, 'x');
    StrtolPrinted(s, i, z.0);
    StrtolPrinted(s, i + |Print(z.0)| + 1, z.1);
  }

  lemma SizesStep(s: string, i: nat, acc: seq<Size>, z: Size, e: nat)
    requires i <= |s| && Pair(s, i, 'x') == Some((z.0, z.1, e))
    ensures Sizes(s, i, acc) ==
      if e < |s| && s[e] != ',' then acc
      else if e == |s| then acc + [z]
      else Sizes(s, e + 1, acc + [z])
  {
    hide Pair;
  }

  // A printed list is pushed entry by entry, up to the end of the text or up to a comma,
  // after which the loop goes on.
  lemma {:induction false} PrintedList(s: string, i: nat, zs: seq<Size>, acc: seq<Size>)
    requires zs != [] && forall k | 0 <= k < |zs| :: Int32Size(zs[k])
    requires At(s, i, PrintSizes(zs))
    requires i + |PrintSizes(zs)| < |s| ==> s[i + |PrintSizes(zs)|] == ','
    ensures i <= |s|
    ensures var e := i + |PrintSizes(zs)|;
      Sizes(s, i, acc) == if e == |s| then acc + zs else Sizes(s, e + 1, acc + zs)
    decreases |zs|
  {
    hide PrintSizes, Sizes, Int32Size, At;
    if |zs| == 1 {
      assert zs == [zs[0]];
      PrintedLast(s, i, zs[0], acc);
    } else {
      PrintedFirst(s, i, zs, acc);
      PrintedList(s, i + |PrintSize(zs[0])| + 1, zs[1..], acc + [zs[0]]);
      SizesMove(acc, zs[0], zs[1..]);
      assert zs == [zs[0]] + zs[1..];
    }
  }

  lemma PrintedLast(s: string, i: nat, z: Size, acc: seq<Size>)
    requires Int32Size(z) && At(s, i, PrintSizes([z]))
    requires i + |PrintSizes([z])| < |s| ==> s[i + |PrintSizes([z])|] == ','
    ensures i <= |s|
    ensures var e := i + |PrintSizes([z])|;
      Sizes(s, i, acc) == if e == |s| then acc + [z] else Sizes(s, e + 1, acc + [z])
  {
    hide PrintSize, Pair, Sizes, Int32Size, At;
    PairPrinted(s, i, z);
    SizesStep(s, i, acc, z, i + |PrintSize(z)|);
  }

  lemma PrintedFirst(s: string, i: nat, zs: seq<Size>, acc: seq<Size>)
    requires |zs| > 1 && Int32Size(zs[0]) && At(s, i, PrintSizes(zs))
    ensures var first, rest := PrintSize(zs[0]), PrintSizes(zs[1..]);
      && |PrintSizes(zs)| == |first| + 1 + |rest|
      && i + |first| + 1 <= |s| && At(s, i + |first| + 1, rest)
      && Sizes(s, i, acc) == Sizes(s, i + |first| + 1, acc + [zs[0]])
  {
    hide PrintSize, Pair, Sizes, Int32Size, At, PrintSizes;
    PrintedHead(s, i, zs);
    PairPrinted(s, i, zs[0]);
    SizesStep(s, i, acc, zs[0], i + |PrintSize(zs[0])|);
  }

  lemma PrintedHead(s: string, i: nat, zs: seq<Size>)
    requires |zs| > 1 && At(s, i, PrintSizes(zs))
    ensures var first, rest := PrintSize(zs[0]), PrintSizes(zs[1..]);
      && |PrintSizes(zs)| == |first| + 1 + |rest|
      && At(s, i, first) && i + |first| < |s| && s[i + |first|] == ',' && At(s, i + |first| + 1, rest)
  {
    hide PrintSize, At;
    var first, rest := PrintSize(zs[0]), PrintSizes(zs[1..]);
    AtSplit(s, i, first + ",", rest);
    AtSplit(s, i, first, ",");
    AtChar(s, i + |first|, ',');
  }

  lemma SizesMove(acc: seq<Size>, z: Size, rest: seq<Size>)
    ensures acc + [z] + rest == acc + ([z] + rest) && acc + [] == acc
  {
  }

  // parseSizesList returns exactly the list whose printed sizes were joined by commas.
  lemma SizesRoundTrip(zs: seq<Size>, acc: seq<Size>)
    requires forall k | 0 <= k < |zs| :: Int32Size(zs[k])
    ensures Sizes(PrintSizes(zs), 0, acc) == acc + zs
  {
    if zs == [] {
      assert acc + zs == acc;
    } else {
      PrintedList(PrintSizes(zs), 0, zs, acc);
    }
  }

  // The entry at i cannot be read: no pair, or a pair followed by a stray byte.
  predicate BadEntry(s: string, i: nat)
    requires i <= |s|
  {
    var r := Pair(s, i, 'x');
    r.None? || (r.value.2 < |s| && s[r.value.2] != ',')
  }

  // On malformed text everything before the bad entry is kept and nothing from there on.
  lemma BadTailIsDropped(zs: seq<Size>, tail: string, acc: seq<Size>)
    requires zs != [] && forall k | 0 <= k < |zs| :: Int32Size(zs[k])
    requires BadEntry(PrintSizes(zs) + "," + tail, |PrintSizes(zs)| + 1)
    ensures Sizes(PrintSizes(zs) + "," + tail, 0, acc) == acc + zs
  {
    hide PrintSizes, Pair;
    PrintedList(PrintSizes(zs) + "," + tail, 0, zs, acc);
  }

  // ---------------------------------------------------------------- any text

  // The fields of a text between its commas, from position i on.
  function FieldsFrom(s: string, i: nat): (fs: seq<string>)
    requires i <= |s|
    ensures fs != []
    decreases |s| - i
  {
    var c := Find(s, i, ',');
    [s[i..c]] + if c == |s| then [] else FieldsFrom(s, c + 1)
  }

  function Joined(fs: seq<string>): string {
    if fs == [] then ""
    else if |fs| == 1 then fs[0]
    else fs[0] + "," + Joined(fs[1..])
  }

  lemma {:induction false} FieldsHoldNoComma(s: string, i: nat, k: nat)
    requires i <= |s| && k < |FieldsFrom(s, i)|
    ensures ',' !in FieldsFrom(s, i)[k]
    decreases |s| - i
  {
    hide Find;
    if k > 0 {
      FieldsHoldNoComma(s, Find(s, i, ',') + 1, k - 1);
    }
  }

  // The fields, joined by commas, are the text.
  lemma {:induction false} FieldsAreText(s: string, i: nat)
    requires i <= |s|
    ensures Joined(FieldsFrom(s, i)) == s[i..]
    decreases |s| - i
  {
    hide Find, Joined, FieldsFrom;
    var c := Find(s, i, ',');
    FieldsUnfold(s, i);
    if c < |s| {
      FieldsAreText(s, c + 1);
      SplitAt(s, i, c);
      JoinedCons(s[i..c], FieldsFrom(s, c + 1));
    } else {
      assert [s[i..c]] + [] == [s[i..c]];
      JoinedOne(s[i..c]);
      assert s[i..c] == s[i..];
    }
  }

  lemma SplitAt(s: string, i: nat, c: nat)
    requires i <= c < |s| && s[c] == ','
    ensures s[i..] == s[i..c] + "," + s[c + 1..]
  {
  }

  lemma JoinedCons(f: string, fs: seq<string>)
    requires fs != []
    ensures Joined([f] + fs) == f + "," + Joined(fs)
  {
    assert ([f] + fs)[1..] == fs;
  }

  lemma JoinedOne(f: string)
    ensures Joined([f]) == f
  {
  }

  // The field is a size and nothing else.
  predicate Reads(f: string, z: Size) {
    Pair(f, 0, 'x') == Some((z.0, z.1, |f|))
  }

  predicate IsField(s: string, i: nat, c: nat) {
    i <= c <= |s| && (c < |s| ==> s[c] == ',') && ',' !in s[i..c]
  }

  lemma {:induction false} SpacesInField(s: string, i: nat, c: nat, k: nat)
    requires IsField(s, i, c) && i + k <= c
    ensures Spaces(s, i + k) == i + Spaces(s[i..c], k)
    decreases c - k
  {
    if i + k < c && IsSpace(s[i + k]) {
      SpacesInField(s, i, c, k + 1);
    }
  }

  lemma {:induction false} DigitsInField(s: string, i: nat, c: nat, k: nat)
    requires IsField(s, i, c) && i + k <= c
    ensures DigitsEnd(s, i + k) == i + DigitsEnd(s[i..c], k)
    decreases c - k
  {
    if i + k < c && IsDigit(s[i + k]) {
      DigitsInField(s, i, c, k + 1);
    }
  }

  // No number reaches over a comma.
  lemma StrtolInField(s: string, i: nat, c: nat, k: nat)
    requires IsField(s, i, c) && i + k <= c
    ensures var r := Strtol(s[i..c], k); Strtol(s, i + k) == (r.0, i + r.1)
  {
    hide Spaces, DigitsEnd, Value;
    var f := s[i..c];
    SpacesInField(s, i, c, k);
    var j := Spaces(f, k);
    var first := if j < |f| && (f[j] == '-' || f[j] == '+') then j + 1 else j;
    DigitsInField(s, i, c, first);
    SubSlice(s, i, c, first, DigitsEnd(f, first));
  }

  lemma SubSlice(s: string, i: nat, c: nat, a: nat, b: nat)
    requires i <= c <= |s| && a <= b <= c - i
    ensures s[i..c][a..b] == s[i + a..i + b]
  {
    assert forall x | 0 <= x < b - a :: s[i..c][a..b][x] == s[i..c][a + x] == s[i + a..i + b][x];
  }

  lemma PairInField(s: string, i: nat, c: nat)
    requires IsField(s, i, c)
    ensures var r := Pair(s[i..c], 0, 'x');
      Pair(s, i, 'x') == if r.None? then None else Some((r.value.0, r.value.1, i + r.value.2))
  {
    hide Strtol;
    var f := s[i..c];
    StrtolInField(s, i, c, 0);
    var e := Strtol(f, 0).1;
    if e < |f| && f[e] == 'x' {
      StrtolInField(s, i, c, e + 1);
    }
  }

  // What the loop pushes from position i on.
  ghost predicate IsGoodPrefix(zs: seq<Size>, fs: seq<string>) {
    && |zs| <= |fs| && (forall k | 0 <= k < |zs| :: Reads(fs[k], zs[k]))
    && (|zs| < |fs| ==> forall z :: !Reads(fs[|zs|], z))
  }

  lemma {:induction false} SizesFrom(s: string, i: nat, acc: seq<Size>) returns (zs: seq<Size>)
    requires i <= |s|
    ensures Sizes(s, i, acc) == acc + zs && IsGoodPrefix(zs, FieldsFrom(s, i))
    decreases |s| - i
  {
    hide Pair, Find, Sizes, Reads, IsGoodPrefix, FieldsFrom;
    var c := Find(s, i, ',');
    var f := s[i..c];
    FieldsUnfold(s, i);
    SizesField(s, i, acc, c);
    if z :| Reads(f, z) {
      if c == |s| {
        BadFirst([]);
        GoodCons(f, z, [], []);
        zs := [z];
        assert zs == [z] + [];
      } else {
        var rest := SizesFrom(s, c + 1, acc + [z]);
        GoodCons(f, z, rest, FieldsFrom(s, c + 1));
        zs := [z] + rest;
        SizesMove(acc, z, rest);
      }
    } else {
      zs := [];
      BadFirst(FieldsFrom(s, i));
      SizesMove(acc, (0, 0), []);
    }
  }

  lemma FieldsUnfold(s: string, i: nat)
    requires i <= |s|
    ensures var c := Find(s, i, ',');
      && FieldsFrom(s, i) == [s[i..c]] + (if c == |s| then [] else FieldsFrom(s, c + 1))
      && FieldsFrom(s, i)[0] == s[i..c]
  {
    hide Find;
  }

  // One round of the loop reads one field.
  lemma SizesField(s: string, i: nat, acc: seq<Size>, c: nat)
    requires i <= |s| && IsField(s, i, c)
    ensures forall z | Reads(s[i..c], z) ::
      Sizes(s, i, acc) == if c == |s| then acc + [z] else Sizes(s, c + 1, acc + [z])
    ensures (forall z :: !Reads(s[i..c], z)) ==> Sizes(s, i, acc) == acc
  {
    hide Pair;
    PairInField(s, i, c);
    var r := Pair(s[i..c], 0, 'x');
    if r.Some? && r.value.2 == c - i {
      assert Reads(s[i..c], (r.value.0, r.value.1));
    } else if r.Some? {
      assert s[i + r.value.2] in s[i..c];
    }
  }

  lemma GoodCons(f: string, z: Size, zs: seq<Size>, fs: seq<string>)
    requires Reads(f, z) && IsGoodPrefix(zs, fs)
    ensures IsGoodPrefix([z] + zs, [f] + fs)
  {
    hide Reads;
    assert |zs| < |fs| ==> ([f] + fs)[|zs| + 1] == fs[|zs|];
  }

  lemma BadFirst(fs: seq<string>)
    requires fs != [] ==> forall z :: !Reads(fs[0], z)
    ensures IsGoodPrefix([], fs)
  {
  }

  // For every text: the sizes pushed are those of the longest run of fields, from the first
  // on, that are sizes and nothing else.
  lemma SizesAreGoodPrefix(s: string, acc: seq<Size>)
    ensures var r := Sizes(s, 0, acc);
      acc <= r && IsGoodPrefix(r[|acc|..], FieldsFrom(s, 0))
  {
    var zs := SizesFrom(s, 0, acc);
    assert Sizes(s, 0, acc)[|acc|..] == zs;
  }
}
