/** String.CASE_INSENSITIVE_ORDER and the in-place sort the wordbook list is put through. */
module NameOrder {

  /** Character.toLowerCase(Character.toUpperCase(c)), for the ASCII letters. */
  function FoldChar(c: char): (d: char)
    ensures 'A' <= c <= 'Z' ==> d as int == c as int + 32
    ensures !('A' <= c <= 'Z') ==> d == c
  {
    if 'A' <= c <= 'Z' then (c as int + 32) as char else c
  }

  /** String.equalsIgnoreCase: same length, and the same characters once case is folded. */
  predicate EqualsIgnoreCase(a: string, b: string) {
    |a| == |b| && forall i :: 0 <= i < |a| ==> FoldChar(a[i]) == FoldChar(b[i])
  }

  /** CASE_INSENSITIVE_ORDER.compare: the difference of the first pair of folded characters that
      differ, or else the difference of the lengths. */
  function CompareIgnoreCase(a: string, b: string): (r: int)
    ensures a == b ==> r == 0
    ensures r == 0 ==> |a| == |b|
    ensures a == [] ==> r == -|b|
    ensures b == [] ==> r == |a|
  {
    if a == [] || b == [] then |a| - |b|
    else if FoldChar(a[0]) != FoldChar(b[0]) then FoldChar(a[0]) as int - FoldChar(b[0]) as int
    else CompareIgnoreCase(a[1..], b[1..])
  }

  predicate NotAfter(a: string, b: string) {
    CompareIgnoreCase(a, b) <= 0
  }

  /** Swapping the arguments negates the result, so the order is total. */
  lemma {:induction false} CompareAntisymmetric(a: string, b: string)
    ensures CompareIgnoreCase(a, b) == -CompareIgnoreCase(b, a)
  {
    if a != [] && b != [] && FoldChar(a[0]) == FoldChar(b[0]) {
      CompareAntisymmetric(a[1..], b[1..]);
    }
  }

  /** The comparator says "equal" exactly when equalsIgnoreCase does. */
  lemma {:induction false} CompareZeroIffEqualsIgnoreCase(a: string, b: string)
    ensures CompareIgnoreCase(a, b) == 0 <==> EqualsIgnoreCase(a, b)
  {
    if a != [] && b != [] {
      CompareZeroIffEqualsIgnoreCase(a[1..], b[1..]);
      if FoldChar(a[0]) == FoldChar(b[0]) {
        if EqualsIgnoreCase(a[1..], b[1..]) {
          forall i | 0 <= i < |a|
            ensures FoldChar(a[i]) == FoldChar(b[i])
          {
            if i > 0 {
              assert a[1..][i - 1] == a[i] && b[1..][i - 1] == b[i];
            }
          }
        } else if |a| == |b| {
          var k :| 0 <= k < |a[1..]| && FoldChar(a[1..][k]) != FoldChar(b[1..][k]);
          assert FoldChar(a[k + 1]) != FoldChar(b[k + 1]);
        }
      } else {
        assert !EqualsIgnoreCase(a, b) by {
          assert FoldChar(a[0]) != FoldChar(b[0]);
        }
      }
    }
  }

  lemma {:induction false} CompareTransitive(a: string, b: string, c: string)
    requires NotAfter(a, b) && NotAfter(b, c)
    ensures NotAfter(a, c)
  {
    if a != [] && b != [] && c != [] && FoldChar(a[0]) == FoldChar(b[0]) == FoldChar(c[0]) {
      CompareTransitive(a[1..], b[1..], c[1..]);
    }
  }

  /** Every name is not after any name that follows it. */
  predicate Sorted(s: seq<string>) {
    forall i, j :: 0 <= i < j < |s| ==> NotAfter(s[i], s[j])
  }

  /** Exchange two names of the array; every other slot keeps its name. */
  method Swap(a: array<string>, x: int, y: int)
    requires 0 <= x < a.Length && 0 <= y < a.Length
    modifies a
    ensures a[x] == old(a[y]) && a[y] == old(a[x])
    ensures forall k :: 0 <= k < a.Length && k != x && k != y ==> a[k] == old(a[k])
    ensures multiset(a[..]) == multiset(old(a[..]))
  {
    a[x], a[y] := a[y], a[x];
  }

  /** One insertion step: with a[..i] in order, move a[i] back past the names that come after it,
      so that a[..i + 1] is in order. */
  method InsertBackward(a: array<string>, i: int)
    requires 0 <= i < a.Length
    requires forall k, l :: 0 <= k < l < i ==> NotAfter(a[k], a[l])
    modifies a
    ensures forall k, l :: 0 <= k < l <= i ==> NotAfter(a[k], a[l])
    ensures multiset(a[..]) == multiset(old(a[..]))
  {
    var j := i;
    while j > 0 && !NotAfter(a[j - 1], a[j])
      invariant 0 <= j <= i
      invariant forall k, l :: 0 <= k < l <= i && k != j && l != j ==> NotAfter(a[k], a[l])
      invariant forall l :: j < l <= i ==> NotAfter(a[j], a[l])
      invariant multiset(a[..]) == multiset(old(a[..]))
    {
      CompareAntisymmetric(a[j - 1], a[j]);
      Swap(a, j - 1, j);
      j := j - 1;
    }
    forall k | 0 <= k < j
      ensures NotAfter(a[k], a[j])
    {
      if k < j - 1 {
        CompareTransitive(a[k], a[j - 1], a[j]);
      }
    }
  }

  /** Collections.sort(list, CASE_INSENSITIVE_ORDER), done in place on the list's backing array:
      afterwards the names are in order and are the same names as before. */
  method SortIgnoreCase(a: array<string>)
    modifies a
    ensures Sorted(a[..])
    ensures multiset(a[..]) == multiset(old(a[..]))
  {
    var i := 0;
    while i < a.Length
      invariant 0 <= i <= a.Length
      invariant forall k, l :: 0 <= k < l < i ==> NotAfter(a[k], a[l])
      invariant multiset(a[..]) == multiset(old(a[..]))
    {
      InsertBackward(a, i);
      i := i + 1;
    }
  }
}
