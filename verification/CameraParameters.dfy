// The key/value store of CameraParameters.cpp and its one-line text form.
module CameraParameters {
  import opened Basics
  import opened KeyedVector
  import opened Decimal
  import opened CText
  import opened SizeList

  type Params = seq<Entry<string, string>>

  predicate Acceptable(s: string) { '=' !in s && ';' !in s }

  // What set() leaves in the map: keys or values with a separator are ignored.
  function AfterSet(es: Params, key: string, value: string): Params {
    if Acceptable(key) && Acceptable(value) then Add(StringLess, Remove(es, key), key, value) else es
  }

  function Flat(es: Params): string {
    if es == [] then ""
    else es[0].key + "=" + es[0].value + (if |es| > 1 then ";" + Flat(es[1..]) else "")
  }

  // The loop of unflatten() from position a on.
  function Unflat(s: string, a: nat, es: Params): Params
    requires a <= |s|
    decreases |s| - a
  {
    var b := Find(s, a, '=');
    if b == |s| then es
    else
      var e := Find(s, b + 1, ';');
      var es' := Add(StringLess, es, s[a..b], s[b + 1..e]);
      if e == |s| then es' else Unflat(s, e + 1, es')
  }

  lemma FlatAt(es: Params, i: nat)
    requires i < |es|
    ensures Flat(es[i..]) == es[i].key + "=" + es[i].value + (if i < |es| - 1 then ";" + Flat(es[i + 1..]) else "")
  {
    assert es[i..][1..] == es[i + 1..];
  }

  lemma FlatEnd(es: Params)
    ensures Flat(es[|es|..]) == ""
  {
  }

  lemma UnflatRound(s: string, a: nat, es: Params)
    requires a <= |s|
    ensures var b := Find(s, a, '=');
      && (b == |s| ==> Unflat(s, a, es) == es)
      && (b < |s| ==>
            var e := Find(s, b + 1, ';');
            var es' := Add(StringLess, es, s[a..b], s[b + 1..e]);
            Unflat(s, a, es) == if e == |s| then es' else Unflat(s, e + 1, es'))
  {
    hide Find, Add;
  }

  lemma Rest(s: string, a: nat)
    requires a <= |s|
    ensures s[a..] == s[a..|s|]
  {
  }

  // get(): a missing key and an empty value both read as null.
  function Got(es: Params, key: string): Option<string> {
    var v := Lookup(es, key);
    if v.None? || v.value == "" then None else v
  }

  const KEY_PREVIEW_SIZE := "preview-size"
  const KEY_VIDEO_SIZE := "video-size"
  const KEY_PICTURE_SIZE := "picture-size"

  class Parameters {
    var mMap: Params

    constructor ()
      ensures mMap == []
    {
      mMap := [];
    }

    method Flatten() returns (flattened: string)
      ensures flattened == Flat(mMap)
    {
      hide Flat;
      flattened := "";
      assert mMap[0..] == mMap;
      FlatEnd(mMap);
      for i := 0 to |mMap|
        invariant flattened + Flat(mMap[i..]) == Flat(mMap)
      {
        FlatAt(mMap, i);
        flattened := flattened + mMap[i].key;
        flattened := flattened + "=";
        flattened := flattened + mMap[i].value;
        if i != |mMap| - 1 {
          flattened := flattened + ";";
        }
      }
    }

    method Unflatten(params: string)
      modifies this
      ensures mMap == Unflat(params, 0, [])
    {
      hide Find, Add, Unflat;
      var a := 0;
      mMap := [];
      while true
        invariant a <= |params|
        invariant Unflat(params, a, mMap) == Unflat(params, 0, [])
        decreases |params| - a
      {
        UnflatRound(params, a, mMap);
        var b := Find(params, a, '=');
        if b == |params| {
          return;
        }
        var k := params[a..b];
        a := b + 1;
        b := Find(params, a, ';');
        if b == |params| {
          Rest(params, a);
          mMap := Add(StringLess, mMap, k, params[a..]);
          return;
        }
        mMap := Add(StringLess, mMap, k, params[a..b]);
        a := b + 1;
      }
    }

    method Set(key: string, value: string)
      modifies this
      ensures mMap == AfterSet(old(mMap), key, value)
    {
      if '=' in key || ';' in key {
        return;
      }
      if '=' in value || ';' in value {
        return;
      }
      mMap := Add(StringLess, KeyedVector.Remove(mMap, key), key, value);
    }

    method Delete(key: string)
      modifies this
      ensures mMap == Remove(old(mMap), key)
    {
      mMap := KeyedVector.Remove(mMap, key);
    }

    method Get(key: string) returns (v: Option<string>)
      ensures v == Got(mMap, key)
    {
      v := Lookup(mMap, key);
      if v.Some? && v.value == "" {
        v := None;
      }
    }

    // setPreviewSize, setVideoSize and setPictureSize differ only in the key.
    method SetSize(key: string, width: int, height: int)
      modifies this
      ensures mMap == AfterSet(old(mMap), key, PrintSize((width, height)))
    {
      Set(key, Print(width) + "x" + Print(height));
    }

    // getPreviewSize, getVideoSize and getPictureSize: (-1, -1) when there is no size.
    method GetSize(key: string) returns (width: int, height: int)
      ensures (width, height) == SizeOf(mMap, key)
    {
      width, height := -1, -1;
      var p := Get(key);
      if p.None? {
        return;
      }
      var pair := ParsePair(p.value, 0, 'x');
      if pair.Some? {
        width, height := pair.value.0, pair.value.1;
      }
    }
  }

  function SizeOf(es: Params, key: string): Size {
    var v := Got(es, key);
    if v.None? then (-1, -1)
    else
      var r := Pair(v.value, 0, 'x');
      if r.None? then (-1, -1) else (r.value.0, r.value.1)
  }

  // ---------------------------------------------------------------- every reachable state

  datatype Op = SetOp(key: string, value: string) | RemoveOp(key: string) | UnflattenOp(text: string)

  function Apply(es: Params, op: Op): Params {
    match op
    case SetOp(key, value) => AfterSet(es, key, value)
    case RemoveOp(key) => Remove(es, key)
    case UnflattenOp(text) => Unflat(text, 0, [])
  }

  function Run(ops: seq<Op>): Params {
    if ops == [] then [] else Apply(Run(ops[..|ops| - 1]), ops[|ops| - 1])
  }

  // No key holds '=' and no value holds ';'. A key may hold ';' and a value '='.
  ghost predicate Separable(es: Params) {
    && Sorted(StringLess, es)
    && forall i | 0 <= i < |es| :: '=' !in es[i].key && ';' !in es[i].value
  }

  lemma AddKeepsSeparable(es: Params, k: string, v: string)
    requires Separable(es) && '=' !in k && ';' !in v
    ensures Separable(Add(StringLess, es, k, v))
  {
    StringLessIsOrder();
    AddIsUpdate(StringLess, es, k, v);
    var es' := Add(StringLess, es, k, v);
    forall i | 0 <= i < |es'| ensures '=' !in es'[i].key && ';' !in es'[i].value { assert es'[i] in es'; }
  }

  lemma RemoveKeepsSeparable(es: Params, k: string)
    requires Separable(es)
    ensures Separable(Remove(es, k))
  {
    StringLessIsOrder();
    RemoveIsDelete(StringLess, es, k);
    var es' := Remove(es, k);
    forall i | 0 <= i < |es'| ensures '=' !in es'[i].key && ';' !in es'[i].value { assert es'[i] in es'; }
  }

  lemma {:induction false} UnflatIsSeparable(s: string, a: nat, es: Params)
    requires a <= |s| && Separable(es)
    ensures Separable(Unflat(s, a, es))
    decreases |s| - a
  {
    hide Separable, Add, Find;
    var b := Find(s, a, '=');
    if b < |s| {
      var e := Find(s, b + 1, ';');
      AddKeepsSeparable(es, s[a..b], s[b + 1..e]);
      if e < |s| {
        UnflatIsSeparable(s, e + 1, Add(StringLess, es, s[a..b], s[b + 1..e]));
      }
    }
  }

  lemma {:induction false} ReachableIsSeparable(ops: seq<Op>)
    ensures Separable(Run(ops))
  {
    hide Separable;
    NothingIsSeparable();
    if ops != [] {
      var es := Run(ops[..|ops| - 1]);
      ReachableIsSeparable(ops[..|ops| - 1]);
      match ops[|ops| - 1] {
        case SetOp(key, value) =>
          RemoveKeepsSeparable(es, key);
          if Acceptable(key) && Acceptable(value) {
            AddKeepsSeparable(Remove(es, key), key, value);
          }
        case RemoveOp(key) => RemoveKeepsSeparable(es, key);
        case UnflattenOp(text) => UnflatIsSeparable(text, 0, []);
      }
    }
  }

  lemma NothingIsSeparable()
    ensures Separable([])
  {
  }

  lemma UnflatEnd(s: string, es: Params)
    ensures Unflat(s, |s|, es) == es
  {
  }

  lemma UnflatStep(s: string, a: nat, es: Params, k: string, v: string)
    requires var b := a + |k|; var e := b + 1 + |v|;
      && e <= |s| && Find(s, a, '=') == b && Find(s, b + 1, ';') == e && s[a..b] == k && s[b + 1..e] == v
    ensures var e := a + |k| + 1 + |v|; var es' := Add(StringLess, es, k, v);
      Unflat(s, a, es) == if e == |s| then es' else Unflat(s, e + 1, es')
  {
    hide Find, Add;
  }

  // Reading a flattened text back, entry by entry, behind what was read before.
  lemma {:induction false} UnflatFlat(s: string, a: nat, es: Params, acc: Params)
    requires Separable(acc + es)
    requires At(s, a, Flat(es)) && a + |Flat(es)| == |s|
    ensures a <= |s| && Unflat(s, a, acc) == acc + es
    decreases |es|
  {
    hide Add, Sorted, Unflat, Find;
    if es == [] {
      assert acc + es == acc;
      UnflatEnd(s, acc);
    } else {
      var k, v := es[0].key, es[0].value;
      assert (acc + es)[|acc|] == es[0];
      var more := if |es| > 1 then ";" + Flat(es[1..]) else "";
      EntryAt(s, a, k, v, more);
      AppendEntry(acc, es);
      var b := a + |k|;
      if |es| > 1 {
        AtSplit(s, b + 1 + |v|, ";", Flat(es[1..]));
        UnflatStep(s, a, acc, k, v);
        UnflatFlat(s, b + 2 + |v|, es[1..], acc + [es[0]]);
      } else {
        assert acc + es == acc + [es[0]];
        UnflatStep(s, a, acc, k, v);
      }
    }
  }

  // One "key=value" of the text: where its separators are found.
  lemma EntryAt(s: string, a: nat, k: string, v: string, more: string)
    requires At(s, a, k + "=" + v + more) && a + |k| + 1 + |v| + |more| == |s|
    requires '=' !in k && ';' !in v && (more == "" || more[0] == ';')
    ensures var b := a + |k|; var e := b + 1 + |v|;
      && b < |s| && Find(s, a, '=') == b && Find(s, b + 1, ';') == e
      && s[a..b] == k && s[b + 1..e] == v && At(s, e, more)
  {
    AtSplit(s, a, k + "=" + v, more);
    AtSplit(s, a, k + "=", v);
    AtSplit(s, a, k, "=");
    AtChar(s, a + |k|, '=');
    var b := a + |k|;
    var e := b + 1 + |v|;
    AtSlice(s, a, k);
    AtSlice(s, b + 1, v);
    forall x | a <= x < b ensures s[x] != '=' { assert s[x] == k[x - a]; }
    FindAt(s, a, b, '=');
    forall x | b + 1 <= x < e ensures s[x] != ';' { assert s[x] == v[x - (b + 1)]; }
    assert more != "" ==> s[e] == more[0];
    FindAt(s, b + 1, e, ';');
  }

  lemma AppendEntry(acc: Params, es: Params)
    requires es != [] && Sorted(StringLess, acc + es)
    ensures Add(StringLess, acc, es[0].key, es[0].value) == acc + [es[0]]
    ensures acc + es == acc + [es[0]] + es[1..]
  {
    StringLessIsOrder();
    forall e | e in acc ensures StringLess(e.key, es[0].key) {
      var i :| 0 <= i < |acc| && acc[i] == e;
      assert (acc + es)[i] == e && (acc + es)[|acc|] == es[0];
    }
    AddAppends(StringLess, acc, es[0].key, es[0].value);
  }

  // flatten then unflatten gives a vector back exactly when no key holds '=' and no value ';'.
  lemma FlattenRoundTripIff(es: Params)
    requires Sorted(StringLess, es)
    ensures Unflat(Flat(es), 0, []) == es <==> Separable(es)
  {
    if Separable(es) {
      assert [] + es == es;
      UnflatFlat(Flat(es), 0, es, []);
    }
    NothingIsSeparable();
    UnflatIsSeparable(Flat(es), 0, []);
  }

  // Every state that set, remove and unflatten of any texts can reach survives the trip.
  lemma ReachableRoundTrip(ops: seq<Op>)
    ensures Unflat(Flat(Run(ops)), 0, []) == Run(ops)
  {
    ReachableIsSeparable(ops);
    FlattenRoundTripIff(Run(ops));
  }

  // ---------------------------------------------------------------- single operations

  // An accepted set is what get returns, and no other key is affected; a rejected one
  // changes nothing.
  lemma SetThenGet(es: Params, key: string, value: string, other: string)
    requires Sorted(StringLess, es)
    ensures var es' := AfterSet(es, key, value);
      && (Acceptable(key) && Acceptable(value) ==> Lookup(es', key) == Some(value))
      && (!(Acceptable(key) && Acceptable(value)) ==> es' == es)
      && (other != key ==> Lookup(es', other) == Lookup(es, other))
  {
    if Acceptable(key) && Acceptable(value) {
      StringLessIsOrder();
      var mid := Remove(es, key);
      RemoveIsDelete(StringLess, es, key);
      AddIsUpdate(StringLess, mid, key, value);
      var es' := Add(StringLess, mid, key, value);
      LookupIn(StringLess, es', Entry(key, value));
      if other != key {
        SameLookup(StringLess, es, es', other);
      }
    }
  }

  // get answers null for a key that is missing or has no value, otherwise the value; a size is read
  // from "WxH" and is (-1, -1) when there is none.
  lemma GotIsValue(es: Params, key: string, value: string)
    requires Sorted(StringLess, es)
    ensures Got(es, key) == Some(value) <==> value != "" && Entry(key, value) in es
    ensures Got(es, key) == None ==> SizeOf(es, key) == (-1, -1)
    ensures Got(es, key) == Some(value) && 'x' !in value ==> SizeOf(es, key) == (-1, -1)
  {
    StringLessIsOrder();
    if Entry(key, value) in es {
      LookupIn(StringLess, es, Entry(key, value));
    }
  }

  // setXSize followed by getXSize returns the pair, for every pair of 32-bit integers.
  lemma SizeSetThenGet(es: Params, key: string, z: Size)
    requires Sorted(StringLess, es) && Acceptable(key) && Int32Size(z)
    ensures SizeOf(AfterSet(es, key, PrintSize(z)), key) == z
  {
    hide AfterSet, Pair, PrintSize, Acceptable;
    var text := PrintSize(z);
    SizeTextIsAcceptable(z);
    SetThenGet(es, key, text, key);
    PairPrinted(text, 0, z);
  }

  lemma SizeTextIsAcceptable(z: Size)
    ensures Acceptable(PrintSize(z)) && At(PrintSize(z), 0, PrintSize(z))
  {
    hide Print;
  }

  predicate IsSizeKey(key: string) { key in {KEY_PREVIEW_SIZE, KEY_VIDEO_SIZE, KEY_PICTURE_SIZE} }

  lemma SizeKeysAreAcceptable()
    ensures forall key | IsSizeKey(key) :: Acceptable(key)
  {
  }

  // The three sizes are set and read independently of each other and of everything else.
  lemma SizesAreIndependent(es: Params, key: string, z: Size, other: string)
    requires Sorted(StringLess, es) && IsSizeKey(key) && Int32Size(z)
    ensures SizeOf(AfterSet(es, key, PrintSize(z)), key) == z
    ensures other != key ==> Got(AfterSet(es, key, PrintSize(z)), other) == Got(es, other)
    ensures other != key ==> SizeOf(AfterSet(es, key, PrintSize(z)), other) == SizeOf(es, other)
  {
    hide AfterSet, Pair, PrintSize, Acceptable, IsSizeKey, Lookup;
    SizeKeysAreAcceptable();
    SizeSetThenGet(es, key, z);
    SetThenGet(es, key, PrintSize(z), other);
  }
}
