// The values of JSONObject.h, and the two containers whose contents are updated in place.
module JsonValue {
  import opened Basics
  import opened KeyedVector
  import opened Decimal

  type Field = Entry<string, Json>

  // A float keeps the three integers the parser read; its rounding is not modelled.
  datatype Json =
    | Null
    | Bool(b: bool)
    | Int(n: int)
    | Float(negative: bool, mantissa: int, fraction: int, scale: int)
    | Str(s: string)
    | Array(items: seq<Json>)
    | Object(fields: seq<Field>)

  // What a C string keeps of a byte sequence: everything before the first NUL.
  function CStr(s: string): (c: string)
    ensures '\0' !in c && c <= s
    ensures '\0' !in s ==> c == s
    ensures |c| < |s| ==> s[|c|] == '\0'
  {
    if s == [] || s[0] == '\0' then [] else [s[0]] + CStr(s[1..])
  }

  class JSONObject {
    var mValues: seq<Field>

    constructor ()
      ensures mValues == []
    {
      mValues := [];
    }

    // The key's place is searched for; there the entry replaces the one with the same key or is
    // inserted.
    method SetValue(key: string, value: Json)
      requires SortedKeys(mValues)
      modifies this
      ensures SortedKeys(mValues) && Lookup(mValues, CStr(key)) == Some(value)
      ensures forall k | k != CStr(key) :: Lookup(mValues, k) == Lookup(old(mValues), k)
      ensures mValues == Add(StringLess, old(mValues), CStr(key), value)
    {
      hide Add, Lookup, StringLess, Sorted;
      var k, i := CStr(key), 0;
      while i < |mValues| && StringLess(mValues[i].key, k)
        invariant 0 <= i <= |mValues| && forall j | 0 <= j < i :: StringLess(mValues[j].key, k)
      {
        i := i + 1;
      }
      StringLessIsOrder();
      AddAt(StringLess, mValues, k, value, i);
      AddKeepsKeys(mValues, k, value);
      if i < |mValues| && mValues[i].key == k {
        mValues := mValues[i := Entry(k, value)];
      } else {
        mValues := mValues[..i] + [Entry(k, value)] + mValues[i..];
      }
    }
  }

  lemma AddKeepsKeys(fields: seq<Field>, k: string, v: Json)
    requires SortedKeys(fields) && '\0' !in k
    ensures var fields' := Add(StringLess, fields, k, v);
      && SortedKeys(fields') && Lookup(fields', k) == Some(v)
      && forall x | x != k :: Lookup(fields', x) == Lookup(fields, x)
  {
    hide Add, Lookup, StringLess;
    var fields' := Add(StringLess, fields, k, v);
    StringLessIsOrder();
    AddIsUpdate(StringLess, fields, k, v);
    LookupIn(StringLess, fields', Entry(k, v));
    forall i | 0 <= i < |fields'| ensures '\0' !in fields'[i].key {
      assert fields'[i] in fields';
    }
    forall x | x != k ensures Lookup(fields', x) == Lookup(fields, x) {
      SameLookup(StringLess, fields, fields', x);
    }
  }

  class JSONArray {
    var mValues: seq<Json>

    constructor ()
      ensures mValues == []
    {
      mValues := [];
    }

    method AddValue(value: Json)
      modifies this
      ensures mValues == old(mValues) + [value]
    {
      mValues := mValues + [value];
    }
  }

  // The shape every value built by the setters and by the parser has: objects are sorted
  // by NUL-free keys and integers fit in 32 bits.
  ghost predicate WellFormed(v: Json) {
    match v
    case Int(n) => IsInt32(n)
    case Array(items) => forall i | 0 <= i < |items| :: WellFormed(items[i])
    case Object(fields) =>
      && SortedKeys(fields)
      && forall i | 0 <= i < |fields| :: WellFormed(fields[i].value)
    case _ => true
  }

  ghost predicate SortedKeys(fields: seq<Field>) {
    && Sorted(StringLess, fields)
    && forall i | 0 <= i < |fields| :: '\0' !in fields[i].key
  }
}
