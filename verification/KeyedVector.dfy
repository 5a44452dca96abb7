// The sorted associative vector (KeyedVector / SortedVector of libutils) that the JSON
// object, the camera parameters and the sensor manager keep their entries in.
// Iteration order is key order, and adding an existing key replaces its value.
module KeyedVector {
  import opened Basics

  datatype Entry<+K, +V> = Entry(key: K, value: V)

  ghost predicate StrictOrder<K(!new)>(less: (K, K) -> bool) {
    && (forall a :: !less(a, a))
    && (forall a, b :: a != b ==> less(a, b) || less(b, a))
    && (forall a, b, c :: less(a, b) && less(b, c) ==> less(a, c))
  }

  ghost predicate Sorted<K, V>(less: (K, K) -> bool, es: seq<Entry<K, V>>) {
    forall i, j | 0 <= i < j < |es| :: less(es[i].key, es[j].key)
  }

  predicate HasKey<K(==), V>(es: seq<Entry<K, V>>, k: K) {
    exists i | 0 <= i < |es| :: es[i].key == k
  }

  function Lookup<K(==), V>(es: seq<Entry<K, V>>, k: K): (r: Option<V>)
    ensures r.None? <==> !HasKey(es, k)
    ensures r.Some? ==> exists i | 0 <= i < |es| :: es[i] == Entry(k, r.value)
  {
    if es == [] then None
    else if es[0].key == k then assert es[0] == Entry(k, es[0].value); Some(es[0].value)
    else
      var r := Lookup(es[1..], k);
      assert forall i | 0 <= i < |es[1..]| :: es[1..][i] == es[i + 1];
      assert HasKey(es, k) ==> HasKey(es[1..], k) by {
        if HasKey(es, k) {
          var i :| 0 <= i < |es| && es[i].key == k;
          assert es[1..][i - 1].key == k;
        }
      }
      r
  }

  // Insert in key order, or replace the value of an existing key.
  function Add<K(==), V>(less: (K, K) -> bool, es: seq<Entry<K, V>>, k: K, v: V): seq<Entry<K, V>> {
    if es == [] || less(k, es[0].key) then [Entry(k, v)] + es
    else if es[0].key == k then [Entry(k, v)] + es[1..]
    else [es[0]] + Add(less, es[1..], k, v)
  }

  function Remove<K(==), V>(es: seq<Entry<K, V>>, k: K): seq<Entry<K, V>> {
    if es == [] then []
    else if es[0].key == k then es[1..]
    else [es[0]] + Remove(es[1..], k)
  }

  lemma SortedTail<K(!new), V(!new)>(less: (K, K) -> bool, es: seq<Entry<K, V>>)
    requires Sorted(less, es) && es != []
    ensures Sorted(less, es[1..])
    ensures forall e | e in es[1..] :: less(es[0].key, e.key)
  {
  }

  lemma SortedCons<K(!new), V(!new)>(less: (K, K) -> bool, e: Entry<K, V>, es: seq<Entry<K, V>>)
    requires Sorted(less, es)
    requires forall x | x in es :: less(e.key, x.key)
    ensures Sorted(less, [e] + es)
  {
    forall i, j | 0 <= i < j < |[e] + es|
      ensures less(([e] + es)[i].key, ([e] + es)[j].key)
    {
      assert ([e] + es)[j] == es[j - 1];
      if i > 0 { assert ([e] + es)[i] == es[i - 1]; }
    }
  }

  // Adding keeps the vector sorted and changes exactly the entry of the key.
  lemma {:induction false} AddIsUpdate<K(!new), V(!new)>(less: (K, K) -> bool, es: seq<Entry<K, V>>, k: K, v: V)
    requires StrictOrder(less) && Sorted(less, es)
    ensures Sorted(less, Add(less, es, k, v))
    ensures forall e :: e in Add(less, es, k, v) <==> e == Entry(k, v) || (e in es && e.key != k)
  {
    if es == [] {
      assert Add(less, es, k, v) == [Entry(k, v)];
    } else {
      SortedTail(less, es);
      assert es == [es[0]] + es[1..];
      if less(k, es[0].key) {
        assert forall e | e in es :: less(k, e.key);
        SortedCons(less, Entry(k, v), es);
      } else if es[0].key == k {
        SortedCons(less, Entry(k, v), es[1..]);
      } else {
        AddIsUpdate(less, es[1..], k, v);
        forall x | x in Add(less, es[1..], k, v) ensures less(es[0].key, x.key) {
          assert x == Entry(k, v) || x in es[1..];
        }
        SortedCons(less, es[0], Add(less, es[1..], k, v));
      }
    }
  }

  // Removing keeps the vector sorted and drops exactly the entry of the key.
  lemma {:induction false} RemoveIsDelete<K(!new), V(!new)>(less: (K, K) -> bool, es: seq<Entry<K, V>>, k: K)
    requires StrictOrder(less) && Sorted(less, es)
    ensures Sorted(less, Remove(es, k))
    ensures forall e :: e in Remove(es, k) <==> e in es && e.key != k
  {
    if es != [] {
      SortedTail(less, es);
      assert es == [es[0]] + es[1..];
      if es[0].key != k {
        RemoveIsDelete(less, es[1..], k);
        forall x | x in Remove(es[1..], k) ensures less(es[0].key, x.key) {
          assert x in es[1..];
        }
        SortedCons(less, es[0], Remove(es[1..], k));
      }
    }
  }

  // A key above every present key goes to the end.
  lemma {:induction false} AddAppends<K(!new), V(!new)>(less: (K, K) -> bool, es: seq<Entry<K, V>>, k: K, v: V)
    requires StrictOrder(less)
    requires forall e | e in es :: less(e.key, k)
    ensures Add(less, es, k, v) == es + [Entry(k, v)]
  {
    if es != [] {
      assert es[0] in es;
      AddAppends(less, es[1..], k, v);
      assert es == [es[0]] + es[1..];
    }
  }

  // Behind all smaller keys, the entry replaces the one with its key or goes in between.
  lemma {:induction false} AddAt<K(!new), V(!new)>(less: (K, K) -> bool, es: seq<Entry<K, V>>, k: K, v: V, i: nat)
    requires StrictOrder(less) && i <= |es|
    requires (forall j | 0 <= j < i :: less(es[j].key, k)) && (i < |es| ==> !less(es[i].key, k))
    ensures Add(less, es, k, v)
         == if i < |es| && es[i].key == k then es[i := Entry(k, v)] else es[..i] + [Entry(k, v)] + es[i..]
  {
    if i > 0 {
      AddAt(less, es[1..], k, v, i - 1);
      assert es == [es[0]] + es[1..];
    }
  }

  lemma LookupIn<K(!new), V(!new)>(less: (K, K) -> bool, es: seq<Entry<K, V>>, e: Entry<K, V>)
    requires StrictOrder(less) && Sorted(less, es) && e in es
    ensures Lookup(es, e.key) == Some(e.value)
  {
    KeysDiffer(less, es);
  }

  lemma SameLookup<K(!new), V(!new)>(less: (K, K) -> bool, es: seq<Entry<K, V>>, es': seq<Entry<K, V>>, k: K)
    requires StrictOrder(less) && Sorted(less, es) && Sorted(less, es')
    requires forall v :: Entry(k, v) in es <==> Entry(k, v) in es'
    ensures Lookup(es, k) == Lookup(es', k)
  {
    if Lookup(es, k).Some? {
      LookupIn(less, es', Entry(k, Lookup(es, k).value));
    } else if Lookup(es', k).Some? {
      LookupIn(less, es, Entry(k, Lookup(es', k).value));
    }
  }

  lemma KeysDiffer<K(!new), V(!new)>(less: (K, K) -> bool, es: seq<Entry<K, V>>)
    requires StrictOrder(less) && Sorted(less, es)
    ensures forall i, j | 0 <= i < j < |es| :: es[i].key != es[j].key
  {
  }

  // Byte order of two NUL-free C strings (strcmp).
  predicate StringLess(a: string, b: string) {
    if b == [] then false
    else if a == [] then true
    else if a[0] != b[0] then a[0] < b[0]
    else StringLess(a[1..], b[1..])
  }

  // Up to i the two agree, and there a ends or has the lower byte.
  predicate LowerAt(a: string, b: string, i: int) {
    0 <= i <= |a| && i < |b| && (forall k | 0 <= k < i :: a[k] == b[k]) && (i == |a| || a[i] < b[i])
  }

  lemma LowerLater(a: string, b: string, i: int)
    requires a != [] && b != [] && a[0] == b[0]
    ensures i > 0 ==> (LowerAt(a, b, i) <==> LowerAt(a[1..], b[1..], i - 1))
    ensures i <= 0 ==> !LowerAt(a, b, i)
  {
    if i > 0 && LowerAt(a[1..], b[1..], i - 1) {
      forall k | 0 <= k < i ensures a[k] == b[k] {
        assert k > 0 ==> a[1..][k - 1] == b[1..][k - 1];
      }
    }
  }

  // The first byte in which the two differ decides; a text is below every longer one it begins.
  lemma {:induction false} StringLessIsFirstDifference(a: string, b: string)
    ensures StringLess(a, b) <==> exists i :: LowerAt(a, b, i)
  {
    if a != [] && b != [] && a[0] == b[0] {
      hide LowerAt;
      StringLessIsFirstDifference(a[1..], b[1..]);
      forall i ensures LowerAt(a, b, i) ==> i > 0 && LowerAt(a[1..], b[1..], i - 1) {
        LowerLater(a, b, i);
      }
      if StringLess(a, b) {
        var i :| LowerAt(a[1..], b[1..], i);
        LowerLater(a, b, i + 1);
      }
    } else if b != [] && (a == [] || a[0] < b[0]) {
      assert LowerAt(a, b, 0);
    }
  }

  lemma {:induction false} StringLessIrreflexive(a: string)
    ensures !StringLess(a, a)
  {
    if a != [] { StringLessIrreflexive(a[1..]); }
  }

  lemma {:induction false} StringLessConnected(a: string, b: string)
    requires a != b
    ensures StringLess(a, b) || StringLess(b, a)
  {
    if a != [] && b != [] && a[0] == b[0] {
      assert a == [a[0]] + a[1..] && b == [b[0]] + b[1..];
      StringLessConnected(a[1..], b[1..]);
    }
  }

  lemma {:induction false} StringLessTransitive(a: string, b: string, c: string)
    requires StringLess(a, b) && StringLess(b, c)
    ensures StringLess(a, c)
  {
    if a != [] && a[0] == b[0] && b[0] == c[0] {
      StringLessTransitive(a[1..], b[1..], c[1..]);
    }
  }

  lemma StringLessIsOrder()
    ensures StrictOrder(StringLess)
  {
    forall a ensures !StringLess(a, a) { StringLessIrreflexive(a); }
    forall a, b | a != b ensures StringLess(a, b) || StringLess(b, a) { StringLessConnected(a, b); }
    forall a, b, c | StringLess(a, b) && StringLess(b, c) ensures StringLess(a, c) {
      StringLessTransitive(a, b, c);
    }
  }
}
