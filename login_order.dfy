/**
 * The order in which the native password store returns logins: by origin,
 * compared as strings (`a->origin < b->origin`), and the in-place sort that
 * establishes it.
 */
module LoginOrder {

  datatype PasswordForm = PasswordForm(origin: string, username: string, password: string)

  /** Lexicographic `<=` on strings, as `std::string` comparison does it. */
  predicate LexLessEq(a: string, b: string)
    decreases |a|
  {
    |a| == 0 || (|b| > 0 && (a[0] < b[0] || (a[0] == b[0] && LexLessEq(a[1..], b[1..]))))
  }

  lemma {:induction false} LexLessEqTotal(a: string, b: string)
    ensures LexLessEq(a, b) || LexLessEq(b, a)
    decreases |a|
  {
    if |a| > 0 && |b| > 0 && a[0] == b[0] {
      LexLessEqTotal(a[1..], b[1..]);
    }
  }

  lemma {:induction false} LexLessEqTransitive(a: string, b: string, c: string)
    requires LexLessEq(a, b) && LexLessEq(b, c)
    ensures LexLessEq(a, c)
    decreases |a|
  {
    if |a| > 0 && a[0] == b[0] && b[0] == c[0] {
      LexLessEqTransitive(a[1..], b[1..], c[1..]);
    }
  }

  predicate OriginOrdered(x: PasswordForm, y: PasswordForm) {
    LexLessEq(x.origin, y.origin)
  }

  predicate SortedByOrigin(s: seq<PasswordForm>) {
    forall k, l :: 0 <= k < l < |s| ==> OriginOrdered(s[k], s[l])
  }

  /** Sorts `a` by origin in place; the result is a permutation of the input. */
  method SortLoginsByOrigin(a: array<PasswordForm>)
    modifies a
    ensures SortedByOrigin(a[..])
    ensures multiset(a[..]) == old(multiset(a[..]))
  {
    var i := 0;
    while i < a.Length
      invariant 0 <= i <= a.Length
      invariant forall k, l :: 0 <= k < l < i ==> OriginOrdered(a[k], a[l])
      invariant multiset(a[..]) == old(multiset(a[..]))
    {
      InsertIntoSortedPrefix(a, i);
      i := i + 1;
    }
  }

  /** Moves `a[i]` left into the sorted prefix `a[..i]`, leaving `a[..i+1]` sorted. */
  method InsertIntoSortedPrefix(a: array<PasswordForm>, i: nat)
    requires i < a.Length
    requires forall k, l :: 0 <= k < l < i ==> OriginOrdered(a[k], a[l])
    modifies a
    ensures forall k, l :: 0 <= k < l <= i ==> OriginOrdered(a[k], a[l])
    ensures multiset(a[..]) == old(multiset(a[..]))
  {
    var j := i;
    while j > 0 && !OriginOrdered(a[j - 1], a[j])
      invariant 0 <= j <= i
      invariant forall k, l :: 0 <= k < l <= i && k != j && l != j ==> OriginOrdered(a[k], a[l])
      invariant forall l :: j < l <= i ==> OriginOrdered(a[j], a[l])
      invariant multiset(a[..]) == old(multiset(a[..]))
    {
      LexLessEqTotal(a[j - 1].origin, a[j].origin);
      SwapAdjacent(a, j - 1);
      forall l | j < l <= i
        ensures OriginOrdered(a[j - 1], a[l])
      {
        LexLessEqTransitive(a[j - 1].origin, a[j].origin, a[l].origin);
      }
      j := j - 1;
    }
    forall k | 0 <= k < j
      ensures OriginOrdered(a[k], a[j])
    {
      if k < j - 1 {
        LexLessEqTransitive(a[k].origin, a[j - 1].origin, a[j].origin);
      }
    }
  }

  method SwapAdjacent(a: array<PasswordForm>, j: nat)
    requires j + 1 < a.Length
    modifies a
    ensures a[j] == old(a[j + 1]) && a[j + 1] == old(a[j])
    ensures forall m :: 0 <= m < a.Length && m != j && m != j + 1 ==> a[m] == old(a[m])
    ensures multiset(a[..]) == old(multiset(a[..]))
  {
    a[j], a[j + 1] := a[j + 1], a[j];
  }
}
