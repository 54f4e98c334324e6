// The Swift array operations the core relies on: `append`, `find` (the first
// index of an element, or nil) and `removeAtIndex`, together with the shape every
// identity-compared list of the model keeps: no object occurs twice. It also holds
// the identity equality (`===`) that pages, documents and observer tokens declare
// as their `==`.

module ArrayOps {

  datatype Option<T> = None | Some(value: T)

  /** The `==` the source declares for pages, documents and observer tokens: object
      identity, which is Dafny's equality on references. */
  predicate IdentityEquals<T(==)>(a: T, b: T) {
    a == b
  }

  /** Identity equality is an equivalence, and two distinct objects are never equal. */
  lemma IdentityEqualsIsEquivalence<T>(a: T, b: T, c: T)
    ensures IdentityEquals(a, a)
    ensures IdentityEquals(a, b) ==> IdentityEquals(b, a)
    ensures IdentityEquals(a, b) && IdentityEquals(b, c) ==> IdentityEquals(a, c)
    ensures a != b ==> !IdentityEquals(a, b)
  {
  }

  /** No element occurs twice. */
  predicate Distinct<T(==)>(s: seq<T>) {
    forall i, j :: 0 <= i < j < |s| ==> s[i] != s[j]
  }

  /** The position of the first occurrence of `x` in `s`. */
  function FirstIndex<T(==)>(s: seq<T>, x: T): (i: nat)
    requires x in s
    ensures i < |s| && s[i] == x
    ensures forall j :: 0 <= j < i ==> s[j] != x
  {
    if s[0] == x then 0 else 1 + FirstIndex(s[1..], x)
  }

  /** Swift's `find(array, element)`: a left-to-right linear search that answers the
      index of the first occurrence, or nil when the element is absent. */
  method Find<T(==)>(s: seq<T>, x: T) returns (r: Option<nat>)
    ensures r.None? <==> x !in s
    ensures r.Some? ==> x in s && r.value == FirstIndex(s, x)
  {
    var i := 0;
    while i < |s|
      invariant 0 <= i <= |s|
      invariant forall j :: 0 <= j < i ==> s[j] != x
    {
      if s[i] == x {
        return Some(i);
      }
      i := i + 1;
    }
    return None;
  }

  /** Swift's `removeAtIndex`: one element fewer, the others in their old order. */
  function RemoveAt<T>(s: seq<T>, i: nat): (r: seq<T>)
    requires i < |s|
    ensures |r| == |s| - 1
    ensures forall k :: 0 <= k < i ==> r[k] == s[k]
    ensures forall k :: i <= k < |r| ==> r[k] == s[k + 1]
  {
    s[..i] + s[i + 1..]
  }

  /** `removeAtIndex(find(s, x)!)`: the first occurrence of `x` taken out. */
  function RemoveFirst<T(==)>(s: seq<T>, x: T): (r: seq<T>)
    requires x in s
  {
    RemoveAt(s, FirstIndex(s, x))
  }

  /** Removing the first occurrence takes exactly one copy of `x` out of the multiset
      of elements and leaves every other element's count alone. */
  lemma RemoveFirstMultiset<T>(s: seq<T>, x: T)
    requires x in s
    ensures multiset(RemoveFirst(s, x)) == multiset(s) - multiset{x}
  {
    var i := FirstIndex(s, x);
    assert s == s[..i] + [x] + s[i + 1..];
    assert RemoveFirst(s, x) == s[..i] + s[i + 1..];
  }

  /** In a list without duplicates, removing `x` removes every trace of it and keeps
      the list free of duplicates. */
  lemma RemoveFirstOfDistinct<T>(s: seq<T>, x: T)
    requires Distinct(s) && x in s
    ensures Distinct(RemoveFirst(s, x))
    ensures x !in RemoveFirst(s, x)
    ensures forall y :: y in s && y != x ==> y in RemoveFirst(s, x)
  {
  }

  /** Appending an element that is not yet present keeps the list free of duplicates. */
  lemma AppendFreshIsDistinct<T>(s: seq<T>, x: T)
    requires Distinct(s) && x !in s
    ensures Distinct(s + [x])
  {
  }
}
