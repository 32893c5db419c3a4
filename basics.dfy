/** Small building blocks shared by the store and the views: an optional value,
    the two-button confirmation alert, and the two sequence queries the Swift code
    takes from its standard library (`filter`/`removeAll(where:)` and
    `firstIndex(where:)`). */
module Basics {

  datatype Option<T> = None | Some(value: T)

  /** The two buttons of a destructive confirmation alert. */
  datatype AlertChoice = Cancel | Destructive

  /** The elements of `s` that satisfy `keep`, in their original order.
      `removeAll(where: p)` is `Filter(s, x => !p(x))`. */
  function Filter<T>(s: seq<T>, keep: T -> bool): (r: seq<T>)
    ensures |r| <= |s|
    ensures forall i :: 0 <= i < |r| ==> r[i] in s && keep(r[i])
    ensures forall i :: 0 <= i < |s| && keep(s[i]) ==> s[i] in r
  {
    if s == [] then []
    else (if keep(s[0]) then [s[0]] else []) + Filter(s[1..], keep)
  }

  /** Filtering distributes over concatenation: this is what "relative order is kept" means. */
  lemma {:induction false} FilterConcat<T>(a: seq<T>, b: seq<T>, keep: T -> bool)
    ensures Filter(a + b, keep) == Filter(a, keep) + Filter(b, keep)
  {
    if a == [] {
      assert a + b == b;
    } else {
      assert (a + b)[0] == a[0];
      assert (a + b)[1..] == a[1..] + b;
      FilterConcat(a[1..], b, keep);
    }
  }

  /** When every element is kept, filtering changes nothing. */
  lemma {:induction false} FilterKeepsAll<T>(s: seq<T>, keep: T -> bool)
    requires forall i :: 0 <= i < |s| ==> keep(s[i])
    ensures Filter(s, keep) == s
  {
    if s != [] {
      FilterKeepsAll(s[1..], keep);
    }
  }

  /** Filtering twice with the same test is filtering once. */
  lemma {:induction false} FilterIdempotent<T>(s: seq<T>, keep: T -> bool)
    ensures Filter(Filter(s, keep), keep) == Filter(s, keep)
  {
    var r := Filter(s, keep);
    FilterKeepsAll(r, keep);
  }

  /** The position of the first element satisfying `p`, if any (Swift's `firstIndex(where:)`). */
  function FirstIndexWhere<T>(s: seq<T>, p: T -> bool): (r: Option<nat>)
    ensures r.None? <==> forall i :: 0 <= i < |s| ==> !p(s[i])
    ensures r.Some? ==> r.value < |s| && p(s[r.value])
    ensures r.Some? ==> forall i :: 0 <= i < r.value ==> !p(s[i])
  {
    if s == [] then None
    else if p(s[0]) then Some(0)
    else match FirstIndexWhere(s[1..], p)
      case None => None
      case Some(i) => Some(i + 1)
  }

  /** A whole number of sixties and what is left, as Swift's truncating `n / 60` and `n % 60`
      give them: the remainder takes the sign of `n`. */
  datatype Split = Split(whole: int, rest: int)

  function SplitBySixty(n: int): (sp: Split)
    ensures sp.whole * 60 + sp.rest == n
    ensures n >= 0 ==> 0 <= sp.rest < 60 && sp.whole >= 0
    ensures n < 0 ==> -60 < sp.rest <= 0 && sp.whole <= 0
  {
    if n >= 0 then Split(n / 60, n % 60)
    else Split(-((-n) / 60), -((-n) % 60))
  }

  /** The split is the only one with a remainder below 60 in size that has the sign of `n`. */
  lemma SplitBySixtyUnique(n: int, whole: int, rest: int)
    requires whole * 60 + rest == n
    requires n >= 0 ==> 0 <= rest < 60
    requires n < 0 ==> -60 < rest <= 0
    ensures SplitBySixty(n) == Split(whole, rest)
  {
    var sp := SplitBySixty(n);
    assert (whole - sp.whole) * 60 == sp.rest - rest;
  }
}
