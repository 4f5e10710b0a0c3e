/** Facts about sequences without repetitions and about finite sets. */
module Collections {

  ghost predicate Distinct<T>(xs: seq<T>) {
    forall i, j :: 0 <= i < j < |xs| ==> xs[i] != xs[j]
  }

  function Occurrences<T(==)>(x: T, xs: seq<T>): nat {
    if xs == [] then 0 else Occurrences(x, xs[..|xs| - 1]) + if xs[|xs| - 1] == x then 1 else 0
  }

  lemma {:induction false} OccurrencesAppend<T>(x: T, a: seq<T>, b: seq<T>)
    ensures Occurrences(x, a + b) == Occurrences(x, a) + Occurrences(x, b)
  {
    if b == [] {
      assert a + b == a;
    } else {
      assert (a + b)[..|a + b| - 1] == a + b[..|b| - 1];
      OccurrencesAppend(x, a, b[..|b| - 1]);
    }
  }

  lemma OccurrencesPrefix<T>(x: T, xs: seq<T>, k: nat)
    requires 0 < k <= |xs|
    ensures Occurrences(x, xs[..k]) == Occurrences(x, xs[..k - 1]) + if xs[k - 1] == x then 1 else 0
  {
    assert xs[..k][..k - 1] == xs[..k - 1];
  }

  lemma {:induction false} DistinctOccurrences<T>(x: T, xs: seq<T>)
    requires Distinct(xs)
    ensures Occurrences(x, xs) == if x in xs then 1 else 0
  {
    if xs != [] {
      var init := xs[..|xs| - 1];
      assert xs == init + [xs[|xs| - 1]];
      DistinctOccurrences(x, init);
    }
  }

  lemma {:induction false} DistinctSize<T>(xs: seq<T>, members: set<T>)
    requires Distinct(xs) && forall x :: x in xs <==> x in members
    ensures |xs| == |members|
  {
    if xs != [] {
      var init, last := xs[..|xs| - 1], xs[|xs| - 1];
      assert xs == init + [last];
      DistinctSize(init, members - {last});
    }
  }

  lemma SubsetSize<T>(x: set<T>, y: set<T>)
    requires x <= y
    ensures |x| <= |y|
  {
    assert y == x + (y - x);
  }

  // -- Order -------------------------------------------------------------------

  /** `x` stands in `xs` before any `y` does. */
  ghost predicate Earlier<T>(xs: seq<T>, x: T, y: T) {
    exists k :: 0 <= k < |xs| && xs[k] == x && y !in xs[..k + 1]
  }

  lemma EarlierAppend<T>(xs: seq<T>, more: T, x: T, y: T)
    ensures Earlier(xs, x, y) ==> Earlier(xs + [more], x, y)
    ensures x in xs && y !in xs && x != y ==> Earlier(xs + [more], x, y)
  {
    var all := xs + [more];
    if k :| 0 <= k < |xs| && xs[k] == x && y !in xs[..k + 1] {
      assert all[k] == x && all[..k + 1] == xs[..k + 1];
    }
    if x in xs && y !in xs {
      var k :| 0 <= k < |xs| && xs[k] == x;
      assert all[k] == x && all[..k + 1] == xs[..k + 1];
    }
  }

  /** `r` lists its elements in the order of their first places in `xs`. */
  ghost predicate FirstPlaces<T>(xs: seq<T>, r: seq<T>) {
    forall i, j :: 0 <= i < j < |r| ==> Earlier(xs, r[i], r[j])
  }

  /** One more element, listed at the end if it is new and wanted. */
  lemma FirstPlacesAppend<T>(xs: seq<T>, more: T, r: seq<T>, listed: bool)
    requires FirstPlaces(xs, r) && Distinct(r) && forall x :: x in r ==> x in xs
    requires listed ==> more !in xs
    ensures FirstPlaces(xs + [more], if listed then r + [more] else r)
  {
    var n := if listed then r + [more] else r;
    forall i, j | 0 <= i < j < |n| ensures Earlier(xs + [more], n[i], n[j]) {
      EarlierAppend(xs, more, n[i], n[j]);
      assert n[i] in r;
    }
  }
}
