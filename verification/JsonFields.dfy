// Fields that come back from a printed object, rewritten or not: what a loop that sets them one
// after another can leave behind.
module JsonFields {
  import opened KeyedVector
  import opened JsonValue
  import opened JsonPrinter
  import opened JsonRoundTrip

  // No string or key that is rewritten, and no INT32_MIN.
  ghost predicate Good(v: Json) { Clean(v) && Survives(v) }

  // What becomes of a printed field that is read up to its end.
  ghost predicate FieldRead(g: Field, f: Field) {
    && (Plain(f.key) ==> g.key == f.key)
    && (!Plain(f.key) ==> '\\' in g.key && |g.key| > |f.key|)
    && (g.value == f.value ==> Good(f.value))
  }

  // What a loop that sets one field after another leaves behind.
  function SetAll(acc: seq<Field>, gs: seq<Field>): seq<Field>
    decreases |gs|
  {
    if gs == [] then acc else SetAll(Add(StringLess, acc, gs[0].key, gs[0].value), gs[1..])
  }

  ghost predicate AllRead(gs: seq<Field>, fields: seq<Field>) {
    |gs| == |fields| && forall x | 0 <= x < |fields| :: FieldRead(gs[x], fields[x])
  }

  lemma OneMoreField(acc: seq<Field>, g: Field, gs: seq<Field>, fields: seq<Field>)
    requires fields != [] && FieldRead(g, fields[0]) && AllRead(gs, fields[1..])
    ensures AllRead([g] + gs, fields) && SetAll(acc, [g] + gs) == SetAll(Add(StringLess, acc, g.key, g.value), gs)
  {
    hide FieldRead, Add;
    assert ([g] + gs)[1..] == gs;
    forall x | 0 <= x < |fields| ensures FieldRead(([g] + gs)[x], fields[x]) {
      if x > 0 { assert fields[1..][x - 1] == fields[x]; }
    }
  }

  // Keys that were set are there, and where no later key is the same, with the value that was
  // set.
  lemma {:induction false} SetAllHas(acc: seq<Field>, gs: seq<Field>, j: nat)
    requires Sorted(StringLess, acc) && j < |gs|
    ensures Sorted(StringLess, SetAll(acc, gs))
    ensures HasKey(SetAll(acc, gs), gs[j].key)
    ensures (forall m | j < m < |gs| :: gs[m].key != gs[j].key) ==> gs[j] in SetAll(acc, gs)
    decreases |gs|
  {
    hide StringLess, Add, Sorted;
    var acc' := Add(StringLess, acc, gs[0].key, gs[0].value);
    StringLessIsOrder();
    AddIsUpdate(StringLess, acc, gs[0].key, gs[0].value);
    if j > 0 {
      SetAllHas(acc', gs[1..], j - 1);
      assert forall m | 0 < m < |gs| :: gs[1..][m - 1] == gs[m];
    } else {
      assert Entry(gs[0].key, gs[0].value) == gs[0] && gs[0] in acc';
      SetAllKeeps(acc', gs[1..], gs[0]);
      assert forall m | 0 < m < |gs| :: gs[1..][m - 1] == gs[m];
    }
  }

  lemma {:induction false} SetAllKeeps(acc: seq<Field>, gs: seq<Field>, g: Field)
    requires Sorted(StringLess, acc) && g in acc
    ensures Sorted(StringLess, SetAll(acc, gs))
    ensures HasKey(SetAll(acc, gs), g.key)
    ensures (forall m | 0 <= m < |gs| :: gs[m].key != g.key) ==> g in SetAll(acc, gs)
    decreases |gs|
  {
    hide StringLess, Add, Sorted;
    if gs != [] {
      var acc' := Add(StringLess, acc, gs[0].key, gs[0].value);
      StringLessIsOrder();
      AddIsUpdate(StringLess, acc, gs[0].key, gs[0].value);
      var g' := if gs[0].key == g.key then Entry(gs[0].key, gs[0].value) else g;
      assert g' in acc';
      SetAllKeeps(acc', gs[1..], g');
      assert forall m | 0 < m < |gs| :: gs[1..][m - 1] == gs[m];
    }
  }

  lemma {:induction false} LongestRewritten(fields: seq<Field>, j: nat) returns (l: nat)
    requires j < |fields| && !Plain(fields[j].key)
    ensures l < |fields| && !Plain(fields[l].key)
    ensures forall m | 0 <= m < |fields| && !Plain(fields[m].key) :: |fields[m].key| <= |fields[l].key|
  {
    hide Plain;
    var front, last := fields[..|fields| - 1], fields[|fields| - 1];
    if k :| 0 <= k < |front| && !Plain(front[k].key) {
      l := LongestRewritten(front, k);
      assert forall m | 0 <= m < |front| :: front[m] == fields[m];
      if !Plain(last.key) && |last.key| > |fields[l].key| {
        l := |fields| - 1;
      }
    } else {
      assert forall m | 0 <= m < |front| :: front[m] == fields[m];
      l := j;
    }
  }

  // The longest rewritten key comes back longer still, so it is not one of the keys.
  lemma KeysArePlain(fields: seq<Field>, gs: seq<Field>, j: nat)
    requires AllRead(gs, fields) && SetAll([], gs) == fields && j < |fields|
    ensures Plain(fields[j].key)
  {
    hide SetAll, StringLess, Plain;
    if !Plain(fields[j].key) {
      var l := LongestRewritten(fields, j);
      assert FieldRead(gs[l], fields[l]);
      BackslashIsSpecial(gs[l].key);
      SetAllHas([], gs, l);
    }
  }

  lemma BackslashIsSpecial(t: string)
    requires '\\' in t
    ensures !Plain(t)
  {
  }

  // An object that comes back as it was has only good values.
  lemma ValuesAreGood(fields: seq<Field>, gs: seq<Field>, j: nat)
    requires AllRead(gs, fields) && SetAll([], gs) == fields && j < |fields| && Sorted(StringLess, fields)
    ensures Good(fields[j].value)
  {
    hide SetAll, StringLess, Good, Plain;
    forall m | 0 <= m < |fields| ensures gs[m].key == fields[m].key {
      KeysArePlain(fields, gs, m);
      assert FieldRead(gs[m], fields[m]);
    }
    StringLessIsOrder();
    KeysDiffer(StringLess, fields);
    SetAllHas([], gs, j);
    assert gs[j] in fields;
    LookupIn(StringLess, fields, gs[j]);
    LookupIn(StringLess, fields, fields[j]);
    assert FieldRead(gs[j], fields[j]);
  }

  lemma GoodObject(fields: seq<Field>, gs: seq<Field>)
    requires AllRead(gs, fields) && SetAll([], gs) == fields && SortedKeys(fields)
    ensures Good(Object(fields))
  {
    hide SetAll, StringLess, Plain;
    forall j | 0 <= j < |fields| ensures Plain(fields[j].key) && Clean(fields[j].value) && Survives(fields[j].value) {
      KeysArePlain(fields, gs, j);
      ValuesAreGood(fields, gs, j);
    }
  }
}
