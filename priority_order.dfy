/**
 * Keeping configuration sources ordered by ascending priority. Both
 * configuration managers append a source and then sort with the language's
 * stable sort keyed on `priority`; a stable sort is an insertion sort.
 */
module PriorityOrder {
  predicate Sorted<T>(s: seq<T>, pri: T -> int) {
    forall i, j :: 0 <= i < j < |s| ==> pri(s[i]) <= pri(s[j])
  }

  /** Where a stable sort places a new last element of priority `p`: after every priority <= p. */
  function InsertionPoint<T>(xs: seq<T>, pri: T -> int, p: int): (k: nat)
    ensures k <= |xs|
    ensures forall i :: k <= i < |xs| ==> p < pri(xs[i])
    decreases |xs|
  {
    if |xs| == 0 || pri(xs[|xs| - 1]) <= p then |xs| else InsertionPoint(xs[..|xs| - 1], pri, p)
  }

  function Insert<T>(xs: seq<T>, pri: T -> int, s: T): seq<T> {
    var k := InsertionPoint(xs, pri, pri(s));
    xs[..k] + [s] + xs[k..]
  }

  /** A stable sort by ascending `pri`. */
  function SortBy<T>(xs: seq<T>, pri: T -> int): seq<T>
    decreases |xs|
  {
    if |xs| == 0 then [] else Insert(SortBy(xs[..|xs| - 1], pri), pri, xs[|xs| - 1])
  }

  lemma {:induction false} InsertionPointAfterSmaller<T>(xs: seq<T>, pri: T -> int, p: int)
    requires Sorted(xs, pri)
    ensures forall i :: 0 <= i < InsertionPoint(xs, pri, p) ==> pri(xs[i]) <= p
    decreases |xs|
  {
    if |xs| > 0 && pri(xs[|xs| - 1]) > p {
      InsertionPointAfterSmaller(xs[..|xs| - 1], pri, p);
    }
  }

  /** Inserting into a sorted list keeps it sorted and adds exactly the new element. */
  lemma InsertKeepsSorted<T>(xs: seq<T>, pri: T -> int, s: T)
    requires Sorted(xs, pri)
    ensures Sorted(Insert(xs, pri, s), pri)
    ensures multiset(Insert(xs, pri, s)) == multiset(xs) + multiset{s}
  {
    var k := InsertionPoint(xs, pri, pri(s));
    InsertionPointAfterSmaller(xs, pri, pri(s));
    assert xs == xs[..k] + xs[k..];
  }

  /** The sort yields an ascending list holding the same elements. */
  lemma {:induction false} SortByCorrect<T>(xs: seq<T>, pri: T -> int)
    ensures Sorted(SortBy(xs, pri), pri)
    ensures multiset(SortBy(xs, pri)) == multiset(xs)
    decreases |xs|
  {
    if |xs| > 0 {
      SortByCorrect(xs[..|xs| - 1], pri);
      InsertKeepsSorted(SortBy(xs[..|xs| - 1], pri), pri, xs[|xs| - 1]);
      assert xs == xs[..|xs| - 1] + [xs[|xs| - 1]];
    }
  }

  /** An already sorted list is left as it is. */
  lemma {:induction false} SortSortedIsIdentity<T>(xs: seq<T>, pri: T -> int)
    requires Sorted(xs, pri)
    ensures SortBy(xs, pri) == xs
    decreases |xs|
  {
    if |xs| > 0 {
      var init := xs[..|xs| - 1];
      SortSortedIsIdentity(init, pri);
      assert InsertionPoint(init, pri, pri(xs[|xs| - 1])) == |init|;
      assert init + [xs[|xs| - 1]] == xs;
    }
  }

  /** Appending to a sorted list and sorting places the new element after every element of lower or equal priority. */
  lemma AppendThenSortIsInsert<T>(xs: seq<T>, pri: T -> int, s: T)
    requires Sorted(xs, pri)
    ensures SortBy(xs + [s], pri) == Insert(xs, pri, s)
  {
    assert (xs + [s])[..|xs|] == xs;
    SortSortedIsIdentity(xs, pri);
  }
}
