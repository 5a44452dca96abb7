// Scanning C strings by position: blanks, single bytes, and where a known text lies.
module CText {

  predicate IsSpace(c: char) { c == ' ' || '\t' <= c <= '\r' }

  // The first position from i on that holds no blank.
  function Spaces(s: string, i: nat): (j: nat)
    requires i <= |s|
    ensures i <= j <= |s|
    ensures j < |s| ==> !IsSpace(s[j])
    decreases |s| - i
  {
    if i == |s| || !IsSpace(s[i]) then i else Spaces(s, i + 1)
  }

  // Only blanks from i up to j.
  predicate BlankRun(s: string, i: nat, j: nat) {
    i <= j <= |s| && forall x | i <= x < j :: IsSpace(s[x])
  }

  lemma {:induction false} SpacesAt(s: string, i: nat, j: nat)
    requires BlankRun(s, i, j) && (j < |s| ==> !IsSpace(s[j]))
    ensures Spaces(s, i) == j
    decreases j - i
  {
    if i < j {
      SpacesAt(s, i + 1, j);
    }
  }

  // strchr: the first position from i on that holds c, or the length.
  function Find(s: string, i: nat, c: char): (j: nat)
    requires i <= |s|
    ensures i <= j <= |s| && c !in s[i..j]
    ensures j < |s| ==> s[j] == c
    decreases |s| - i
  {
    if i == |s| || s[i] == c then i
    else
      var j := Find(s, i + 1, c);
      assert s[i..j] == [s[i]] + s[i + 1..j];
      j
  }

  lemma {:induction false} FindAt(s: string, i: nat, j: nat, c: char)
    requires i <= j <= |s| && (forall x | i <= x < j :: s[x] != c) && (j < |s| ==> s[j] == c)
    ensures Find(s, i, c) == j
    decreases j - i
  {
    if i < j {
      FindAt(s, i + 1, j, c);
    }
  }

  // The text s holds t at position i.
  predicate At(s: string, i: nat, t: string) {
    i + |t| <= |s| && forall x | 0 <= x < |t| :: s[i + x] == t[x]
  }

  lemma AtSplit(s: string, i: nat, a: string, b: string)
    requires At(s, i, a + b)
    ensures At(s, i, a) && At(s, i + |a|, b)
  {
    forall x | 0 <= x < |a| ensures s[i + x] == a[x] { assert (a + b)[x] == a[x]; }
    forall x | 0 <= x < |b| ensures s[i + |a| + x] == b[x] { assert (a + b)[|a| + x] == b[x]; }
  }

  lemma AtChar(s: string, i: nat, c: char)
    requires At(s, i, [c])
    ensures i < |s| && s[i] == c
  {
    assert [c][0] == c;
  }

  lemma AtSlice(s: string, i: nat, t: string)
    requires At(s, i, t)
    ensures s[i..i + |t|] == t
  {
  }
}
