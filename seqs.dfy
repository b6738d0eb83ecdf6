/**
  Sequence helpers shared by the zone, the patrol controller and the missions:
  linear search, counting, filtering and ArrayList-style removal of the first match.
 */
module Seqs {
  import opened Wrappers

  /** The index of the first element of `s` that satisfies `p`, if any (a search loop that breaks on success). */
  function FirstIndex<T>(s: seq<T>, p: T -> bool): (r: Option<nat>)
    ensures r.Some? ==> r.value < |s| && p(s[r.value])
    ensures r.Some? ==> forall j :: 0 <= j < r.value ==> !p(s[j])
    ensures r.None? <==> forall j :: 0 <= j < |s| ==> !p(s[j])
  {
    if s == [] then None
    else if p(s[0]) then Some(0)
    else match FirstIndex(s[1..], p)
      case None => None
      case Some(k) => Some(k + 1)
  }

  /** The number of elements of `s` that satisfy `p`. */
  function Count<T>(s: seq<T>, p: T -> bool): (n: nat)
    ensures n <= |s|
    ensures n == 0 <==> forall i :: 0 <= i < |s| ==> !p(s[i])
    ensures n == |s| <==> forall i :: 0 <= i < |s| ==> p(s[i])
  {
    if s == [] then 0 else (if p(s[0]) then 1 else 0) + Count(s[1..], p)
  }

  /** The elements of `s` that satisfy `p`, in their original order. */
  function Filter<T(==)>(s: seq<T>, p: T -> bool): (r: seq<T>)
    ensures |r| == Count(s, p)
    ensures forall i :: 0 <= i < |r| ==> p(r[i])
  {
    if s == [] then []
    else (if p(s[0]) then [s[0]] else []) + Filter(s[1..], p)
  }

  /** Filtering keeps exactly the elements that satisfy `p`. */
  lemma {:induction false} FilterMembers<T>(s: seq<T>, p: T -> bool)
    ensures forall x :: x in Filter(s, p) <==> x in s && p(x)
  {
    if s != [] {
      FilterMembers(s[1..], p);
      assert s == [s[0]] + s[1..];
    }
  }

  lemma {:induction false} FilterAppend<T>(a: seq<T>, b: seq<T>, p: T -> bool)
    ensures Filter(a + b, p) == Filter(a, p) + Filter(b, p)
  {
    if a == [] {
      assert a + b == b;
    } else {
      assert (a + b)[1..] == a[1..] + b;
      FilterAppend(a[1..], b, p);
    }
  }

  /**
    `ArrayList.remove(Object)`: drop the first element that `p` picks out, and
    leave the sequence as it is when there is none.
   */
  function RemoveFirst<T>(s: seq<T>, p: T -> bool): (r: seq<T>)
    ensures FirstIndex(s, p).None? ==> r == s
    ensures FirstIndex(s, p).Some? ==> r == s[..FirstIndex(s, p).value] + s[FirstIndex(s, p).value + 1..]
  {
    if s == [] then []
    else if p(s[0]) then s[1..]
    else [s[0]] + RemoveFirst(s[1..], p)
  }

  /** A sequence in which no two positions hold the same value. */
  predicate Distinct<T(==)>(s: seq<T>) {
    forall i, j :: 0 <= i < j < |s| ==> s[i] != s[j]
  }

  /** `ArrayList.remove(Object)` for objects compared by identity: drop the first occurrence of `x`. */
  function RemoveValue<T(==)>(s: seq<T>, x: T): (r: seq<T>)
    ensures x !in s ==> r == s
    ensures x in s ==> |r| == |s| - 1
    ensures forall y :: y in r ==> y in s
    ensures Distinct(s) ==> x !in r && Distinct(r)
  {
    if s == [] then []
    else if s[0] == x then
      assert Distinct(s) ==> x !in s[1..] && Distinct(s[1..]) by {
        if Distinct(s) {
          forall i | 0 <= i < |s[1..]| ensures s[1..][i] != x { assert s[1..][i] == s[i + 1]; }
        }
      }
      s[1..]
    else
      var rest := RemoveValue(s[1..], x);
      assert Distinct(s) ==> Distinct([s[0]] + rest) by {
        if Distinct(s) {
          assert Distinct(s[1..]) by { forall i, j | 0 <= i < j < |s[1..]| ensures s[1..][i] != s[1..][j] { assert s[1..][i] == s[i + 1]; } }
          assert s[0] !in rest;
          forall i, j | 0 <= i < j < |[s[0]] + rest| ensures ([s[0]] + rest)[i] != ([s[0]] + rest)[j] {
            if i > 0 { assert ([s[0]] + rest)[i] == rest[i - 1]; }
            assert ([s[0]] + rest)[j] == rest[j - 1];
          }
        }
      }
      [s[0]] + rest
  }

  /**
    The element `RemoveValue` drops is the first one equal to `x`: it is
    `RemoveFirst` with equality to `x` as the test, so everything before the
    first occurrence and everything after it is kept in order.
   */
  lemma {:induction false} RemoveValueIsRemoveFirst<T>(s: seq<T>, x: T)
    ensures RemoveValue(s, x) == RemoveFirst(s, (y: T) => y == x)
  {
    if s != [] && s[0] != x {
      RemoveValueIsRemoveFirst(s[1..], x);
    }
  }
}
