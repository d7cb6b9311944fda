/**
 * `VectorService`: the ids `createBatch` assigns, the guards of `delete` and
 * `deleteBatch`, the post-processing of `findSimilar` (score, threshold,
 * stable sort by decreasing similarity, `slice`), and the counts of
 * `getStats`. The `vector_items` table is a sequence of rows in the order
 * the database returns them, `id` being its primary key; the clock and the
 * two similarity measures are parameters.
 */
module VectorService {
  import opened Optional
  import opened JsText

  /** A `vector_items` row. */
  datatype VectorItem = VectorItem(id: int, content: Option<string>, vector: seq<real>,
                                   vectorDim: Option<int>, vectorType: Option<string>)

  /** The data of a new row, without its id. */
  datatype NewItem = NewItem(content: Option<string>, vector: seq<real>, vectorDim: Option<int>, vectorType: Option<string>)

  /** A `SimilaritySearchResult`. */
  datatype Scored = Scored(item: VectorItem, similarity: real)

  /** The options of `findSimilar`; an absent field takes its default. */
  datatype SearchOptions = SearchOptions(threshold: Option<real>, limit: Option<int>, vectorType: Option<string>,
                                         similarityMethod: Option<string>)

  const DefaultThreshold: real := 0.8
  const DefaultLimit := 10
  const DefaultMethod := "cosine"
  const UnknownType := "unknown"
  const DuplicateId := "Duplicate entry for key 'PRIMARY'"

  /** The elements of `s` that `keep` holds for, in order. */
  function Filter<T(!new)>(s: seq<T>, keep: T -> bool): (r: seq<T>)
    ensures |r| <= |s|
    ensures forall x :: x in r <==> x in s && keep(x)
    ensures multiset(r) <= multiset(s)
  {
    if s == [] then []
    else
      assert s == [s[0]] + s[1..];
      if keep(s[0]) then [s[0]] + Filter(s[1..], keep) else Filter(s[1..], keep)
  }

  /** `Filter` keeps every occurrence of a kept element and none of the others. */
  lemma {:induction false} FilterMultiset<T(!new)>(s: seq<T>, keep: T -> bool, x: T)
    ensures multiset(Filter(s, keep))[x] == if keep(x) then multiset(s)[x] else 0
    decreases |s|
  {
    if s != [] {
      FilterMultiset(s[1..], keep, x);
      assert s == [s[0]] + s[1..];
      assert multiset(s)[x] == multiset([s[0]])[x] + multiset(s[1..])[x];
      if keep(s[0]) {
        assert multiset(Filter(s, keep)) == multiset([s[0]]) + multiset(Filter(s[1..], keep));
      }
    }
  }

  predicate DistinctIds(rows: seq<VectorItem>) {
    forall i, j :: 0 <= i < j < |rows| ==> rows[i].id != rows[j].id
  }

  function IdsOf(rows: seq<VectorItem>): set<int> {
    set r | r in rows :: r.id
  }

  /** The rows of `createBatch`: item `i` gets the id `timestamp + i`. */
  function WithIds(items: seq<NewItem>, timestamp: int): (rows: seq<VectorItem>)
    ensures |rows| == |items|
    ensures forall i :: 0 <= i < |rows| ==>
      rows[i] == VectorItem(timestamp + i, items[i].content, items[i].vector, items[i].vectorDim, items[i].vectorType)
  {
    seq(|items|, i requires 0 <= i < |items| =>
      VectorItem(timestamp + i, items[i].content, items[i].vector, items[i].vectorDim, items[i].vectorType))
  }

  /** `findSimilar`'s defaults: threshold 0.8, limit 10, cosine similarity. */
  function ThresholdOf(o: SearchOptions): real { o.threshold.GetOr(DefaultThreshold) }
  function LimitOf(o: SearchOptions): int { o.limit.GetOr(DefaultLimit) }
  function MethodOf(o: SearchOptions): string { o.similarityMethod.GetOr(DefaultMethod) }

  /** The rows the query reads: those of the type when one is given, else all. */
  function Selected(rows: seq<VectorItem>, vectorType: Option<string>): seq<VectorItem> {
    if Truthy(vectorType) then Filter(rows, (r: VectorItem) => r.vectorType == vectorType) else rows
  }

  /** The `map` step: cosine similarity for "cosine", the euclidean one for any other method. */
  function ScoreAll(items: seq<VectorItem>, vector: seq<real>, measure: string,
                    cosine: (seq<real>, seq<real>) -> real, euclidean: (seq<real>, seq<real>) -> real): (scored: seq<Scored>)
    ensures |scored| == |items|
    ensures forall i :: 0 <= i < |items| ==>
      (scored[i].item == items[i]
      && scored[i].similarity == (if measure == "cosine" then cosine(vector, items[i].vector) else euclidean(vector, items[i].vector)))
  {
    seq(|items|, i requires 0 <= i < |items| =>
      Scored(items[i], if measure == "cosine" then cosine(vector, items[i].vector) else euclidean(vector, items[i].vector)))
  }

  predicate SortedDesc(s: seq<Scored>) {
    forall i, j :: 0 <= i < j < |s| ==> s[i].similarity >= s[j].similarity
  }

  /** Inserts `x` before the first element that is not more similar. */
  function Insert(x: Scored, s: seq<Scored>): (r: seq<Scored>)
    ensures |r| == |s| + 1
    ensures r[0] == x || (s != [] && r[0] == s[0])
    ensures multiset(r) == multiset{x} + multiset(s)
  {
    if s == [] || x.similarity >= s[0].similarity then [x] + s
    else
      assert s == [s[0]] + s[1..];
      [s[0]] + Insert(x, s[1..])
  }

  /** `sort((a, b) => b.similarity - a.similarity)`: a stable sort, most similar first. */
  function SortDesc(s: seq<Scored>): seq<Scored> {
    if s == [] then [] else Insert(s[0], SortDesc(s[1..]))
  }

  /** `slice(0, limit)`: a negative limit counts from the end. */
  function SliceTo<T>(s: seq<T>, limit: int): (r: seq<T>)
    ensures limit >= 0 ==> |r| == if limit < |s| then limit else |s|
    ensures limit < 0 ==> |r| == if |s| + limit > 0 then |s| + limit else 0
    ensures r == s[..|r|]
  {
    var end := if limit < 0 then (if |s| + limit > 0 then |s| + limit else 0)
               else if limit < |s| then limit else |s|;
    s[..end]
  }

  /** The scored rows that reach the threshold, in the rows' order. */
  function Qualifying(items: seq<VectorItem>, vector: seq<real>, o: SearchOptions,
                      cosine: (seq<real>, seq<real>) -> real, euclidean: (seq<real>, seq<real>) -> real): seq<Scored> {
    Filter(ScoreAll(items, vector, MethodOf(o), cosine, euclidean), (x: Scored) => x.similarity >= ThresholdOf(o))
  }

  /** The results of `findSimilar` over the rows the query returned. */
  function Similar(items: seq<VectorItem>, vector: seq<real>, o: SearchOptions,
                   cosine: (seq<real>, seq<real>) -> real, euclidean: (seq<real>, seq<real>) -> real): seq<Scored> {
    SliceTo(SortDesc(Qualifying(items, vector, o, cosine, euclidean)), LimitOf(o))
  }

  /** `item.vectorType || "unknown"`. */
  function TypeKey(item: VectorItem): string {
    if Truthy(item.vectorType) then item.vectorType.value else UnknownType
  }

  /** A count for one key, in a record kept in insertion order. */
  datatype Count = Count(key: string, n: nat)

  /** `acc[type] = (acc[type] || 0) + 1`. */
  function Bump(acc: seq<Count>, key: string): (r: seq<Count>)
    ensures |r| == |acc| || |r| == |acc| + 1
  {
    if acc == [] then [Count(key, 1)]
    else if acc[0].key == key then [Count(key, acc[0].n + 1)] + acc[1..]
    else [acc[0]] + Bump(acc[1..], key)
  }

  /** The `reduce` of `getStats` over the rows in order. */
  function ByType(rows: seq<VectorItem>): seq<Count> {
    if rows == [] then [] else Bump(ByType(rows[..|rows| - 1]), TypeKey(rows[|rows| - 1]))
  }

  function Total(counts: seq<Count>): nat {
    if counts == [] then 0 else counts[0].n + Total(counts[1..])
  }

  /** The count recorded for `key`, 0 when it has none. */
  function CountOf(counts: seq<Count>, key: string): nat {
    if counts == [] then 0 else if counts[0].key == key then counts[0].n else CountOf(counts[1..], key)
  }

  predicate DistinctKeys(counts: seq<Count>) {
    forall i, j :: 0 <= i < j < |counts| ==> counts[i].key != counts[j].key
  }

  /** The number of rows of a type key. */
  function RowsOfType(rows: seq<VectorItem>, key: string): nat {
    |Filter(rows, (r: VectorItem) => TypeKey(r) == key)|
  }

  class VectorTable {
    var rows: seq<VectorItem>

    /** The primary key holds. */
    predicate Valid()
      reads this
    {
      DistinctIds(rows)
    }

    constructor ()
      ensures rows == [] && Valid()
    {
      rows := [];
    }

    /** `createBatch`: the insert fails as a whole when an id is taken; otherwise the new rows are read back. */
    method CreateBatch(items: seq<NewItem>, timestamp: int) returns (r: Result<seq<VectorItem>, string>)
      requires Valid()
      modifies this
      ensures Valid()
      ensures IdsOf(WithIds(items, timestamp)) * IdsOf(old(rows)) != {} ==> r == Err(DuplicateId) && rows == old(rows)
      ensures IdsOf(WithIds(items, timestamp)) * IdsOf(old(rows)) == {} ==>
        r == Ok(WithIds(items, timestamp)) && rows == old(rows) + WithIds(items, timestamp)
    {
      var batch := WithIds(items, timestamp);
      var ids := IdsOf(batch);
      if ids * IdsOf(rows) != {} {
        return Err(DuplicateId);
      }
      BatchIdsConsecutive(items, timestamp);
      AppendDistinct(rows, batch);
      var keep := (x: VectorItem) => x.id in ids;
      ReadBack(rows, batch, ids, keep);
      rows := rows + batch;
      r := Ok(Filter(rows, keep));
    }

    /** `delete`: false, and nothing deleted, when no row has the id. */
    method Delete(id: int) returns (deleted: bool)
      requires Valid()
      modifies this
      ensures Valid()
      ensures deleted <==> id in IdsOf(old(rows))
      ensures rows == Filter(old(rows), (x: VectorItem) => x.id != id)
      ensures !deleted ==> rows == old(rows)
      ensures id !in IdsOf(rows)
    {
      if id !in IdsOf(rows) {
        FilterAll(rows, (x: VectorItem) => x.id != id);
        return false;
      }
      FilterDistinct(rows, (x: VectorItem) => x.id != id);
      rows := Filter(rows, (x: VectorItem) => x.id != id);
      deleted := true;
    }

    /** `deleteBatch`: false, and nothing deleted, when no row has any of the ids. */
    method DeleteBatch(ids: seq<int>) returns (deleted: bool)
      requires Valid()
      modifies this
      ensures Valid()
      ensures deleted <==> exists x :: x in old(rows) && x.id in ids
      ensures rows == Filter(old(rows), (x: VectorItem) => x.id !in ids)
      ensures !deleted ==> rows == old(rows)
    {
      var found := Filter(rows, (x: VectorItem) => x.id in ids);
      if |found| == 0 {
        FilterAll(rows, (x: VectorItem) => x.id !in ids);
        return false;
      }
      assert found[0] in found;
      FilterDistinct(rows, (x: VectorItem) => x.id !in ids);
      rows := Filter(rows, (x: VectorItem) => x.id !in ids);
      deleted := true;
    }

    /** `findSimilar`. */
    method FindSimilar(vector: seq<real>, options: SearchOptions,
                       cosine: (seq<real>, seq<real>) -> real, euclidean: (seq<real>, seq<real>) -> real)
      returns (results: seq<Scored>)
      ensures results == Similar(Selected(rows, options.vectorType), vector, options, cosine, euclidean)
    {
      var items := Selected(rows, options.vectorType);
      results := Similar(items, vector, options, cosine, euclidean);
    }

    /** `getStats`: the argument is accepted and not used. */
    method GetStats(vectorType: Option<string>) returns (total: nat, byType: seq<Count>)
      ensures total == |rows| && byType == ByType(rows)
    {
      total := |rows|;
      byType := ByType(rows);
    }
  }

  /** Filtering distributes over concatenation. */
  lemma {:induction false} FilterAppend<T(!new)>(a: seq<T>, b: seq<T>, keep: T -> bool)
    ensures Filter(a + b, keep) == Filter(a, keep) + Filter(b, keep)
  {
    if a == [] {
      assert a + b == b;
    } else {
      var ab := a + b;
      assert ab[0] == a[0] && ab[1..] == a[1..] + b;
      FilterAppend(a[1..], b, keep);
      FilterCons(ab, keep);
      FilterCons(a, keep);
    }
  }

  /** One step of `Filter`: the first element if it is kept, then the rest filtered. */
  lemma FilterCons<T(!new)>(s: seq<T>, keep: T -> bool)
    requires s != []
    ensures Filter(s, keep) == (if keep(s[0]) then [s[0]] else []) + Filter(s[1..], keep)
  {
    if !keep(s[0]) {
      assert [] + Filter(s[1..], keep) == Filter(s[1..], keep);
    }
  }

  lemma {:induction false} FilterNone<T(!new)>(s: seq<T>, keep: T -> bool)
    requires forall x :: x in s ==> !keep(x)
    ensures Filter(s, keep) == []
  {
    if s != [] {
      assert s[0] in s;
      FilterNone(s[1..], keep);
    }
  }

  lemma {:induction false} FilterAll<T(!new)>(s: seq<T>, keep: T -> bool)
    requires forall x :: x in s ==> keep(x)
    ensures Filter(s, keep) == s
  {
    if s != [] {
      assert s[0] in s;
      FilterAll(s[1..], keep);
      assert s == [s[0]] + s[1..];
    }
  }

  lemma {:induction false} FilterDistinct(s: seq<VectorItem>, keep: VectorItem -> bool)
    requires DistinctIds(s)
    ensures DistinctIds(Filter(s, keep))
  {
    if s != [] {
      var rest := Filter(s[1..], keep);
      FilterDistinct(s[1..], keep);
      if keep(s[0]) {
        forall j | 0 <= j < |rest|
          ensures rest[j].id != s[0].id
        {
          assert rest[j] in s[1..];
        }
      }
    }
  }

  lemma AppendDistinct(a: seq<VectorItem>, b: seq<VectorItem>)
    requires DistinctIds(a) && DistinctIds(b) && IdsOf(a) * IdsOf(b) == {}
    ensures DistinctIds(a + b)
  {
    forall i, j | 0 <= i < j < |a + b|
      ensures (a + b)[i].id != (a + b)[j].id
    {
      if j < |a| {
        assert (a + b)[i] == a[i] && (a + b)[j] == a[j];
      } else if |a| <= i {
        assert (a + b)[i] == b[i - |a|] && (a + b)[j] == b[j - |a|];
      } else {
        assert (a + b)[i] == a[i] && (a + b)[j] == b[j - |a|];
        assert a[i] in a && b[j - |a|] in b;
        assert a[i].id in IdsOf(a) && b[j - |a|].id in IdsOf(b);
        assert a[i].id !in IdsOf(a) * IdsOf(b);
      }
    }
  }

  /** The ids of one batch are consecutive from the timestamp, hence distinct. */
  lemma BatchIdsConsecutive(items: seq<NewItem>, timestamp: int)
    ensures forall i :: 0 <= i < |items| ==> WithIds(items, timestamp)[i].id == timestamp + i
    ensures forall k :: k in IdsOf(WithIds(items, timestamp)) <==> timestamp <= k < timestamp + |items|
    ensures DistinctIds(WithIds(items, timestamp))
  {
    var rows := WithIds(items, timestamp);
    forall k | timestamp <= k < timestamp + |items|
      ensures k in IdsOf(rows)
    {
      assert rows[k - timestamp] in rows;
    }
  }

  /** Reading a batch back by its ids gives exactly the batch, when no older row has one of them. */
  lemma ReadBack(before: seq<VectorItem>, batch: seq<VectorItem>, ids: set<int>, keep: VectorItem -> bool)
    requires forall x :: keep(x) <==> x.id in ids
    requires ids == IdsOf(batch) && ids * IdsOf(before) == {}
    ensures Filter(before + batch, keep) == batch
  {
    FilterAppend(before, batch, keep);
    forall x | x in before
      ensures !keep(x)
    {
      assert x.id in IdsOf(before);
      assert x.id !in ids * IdsOf(before);
    }
    FilterNone(before, keep);
    forall x | x in batch
      ensures keep(x)
    {
      assert x.id in IdsOf(batch);
    }
    FilterAll(batch, keep);
  }

  lemma {:induction false} InsertSorted(x: Scored, s: seq<Scored>)
    requires SortedDesc(s)
    ensures SortedDesc(Insert(x, s))
  {
    if s != [] && x.similarity < s[0].similarity {
      InsertSorted(x, s[1..]);
      var r := Insert(x, s[1..]);
      forall j | 0 <= j < |r|
        ensures s[0].similarity >= r[j].similarity
      {
        assert r[j] in multiset(r);
        assert r[j] == x || r[j] in s[1..];
      }
    }
  }

  /** The sort orders by decreasing similarity and keeps every element. */
  lemma SortDescSpec(s: seq<Scored>)
    ensures SortedDesc(SortDesc(s))
    ensures multiset(SortDesc(s)) == multiset(s)
  {
    SortDescSorted(s);
    SortDescPermutes(s);
  }

  /** The sort orders by decreasing similarity. */
  lemma {:induction false} SortDescSorted(s: seq<Scored>)
    ensures SortedDesc(SortDesc(s))
  {
    if s != [] {
      SortDescSorted(s[1..]);
      InsertSorted(s[0], SortDesc(s[1..]));
    }
  }

  /** The sort keeps every element, as often as it occurs. */
  lemma {:induction false} SortDescPermutes(s: seq<Scored>)
    ensures multiset(SortDesc(s)) == multiset(s)
  {
    if s != [] {
      SortDescPermutes(s[1..]);
      assert multiset(s) == multiset{s[0]} + multiset(s[1..]) by {
        assert s == [s[0]] + s[1..];
      }
    }
  }

  /**
   * What `findSimilar` promises: every result reaches the threshold, the
   * results are ordered most similar first, there are no more than `limit`
   * of them, and each is a selected row with its similarity.
   */
  lemma SimilarSpec(items: seq<VectorItem>, vector: seq<real>, o: SearchOptions,
                    cosine: (seq<real>, seq<real>) -> real, euclidean: (seq<real>, seq<real>) -> real)
    ensures var results := Similar(items, vector, o, cosine, euclidean);
      (forall i :: 0 <= i < |results| ==> results[i].similarity >= ThresholdOf(o))
      && SortedDesc(results)
      && (LimitOf(o) >= 0 ==> |results| <= LimitOf(o))
      && |results| <= |items|
      && multiset(results) <= multiset(ScoreAll(items, vector, MethodOf(o), cosine, euclidean))
  {
    var threshold := ThresholdOf(o);
    var scored := ScoreAll(items, vector, MethodOf(o), cosine, euclidean);
    var kept := Qualifying(items, vector, o, cosine, euclidean);
    assert multiset(kept) <= multiset(scored) && |kept| <= |scored|;
    var sorted := SortDesc(kept);
    SortDescSpec(kept);
    var results := SliceTo(sorted, LimitOf(o));
    SliceSpec(sorted, LimitOf(o));
    assert |sorted| == |kept| by {
      assert |multiset(sorted)| == |multiset(kept)|;
    }
    assert multiset(results) <= multiset(kept);
    forall i | 0 <= i < |results|
      ensures results[i].similarity >= threshold
    {
      assert results[i] in multiset(kept);
      assert results[i] in kept;
    }
  }

  /** With a non-negative limit there are as many results as the limit allows. */
  lemma SimilarCount(items: seq<VectorItem>, vector: seq<real>, o: SearchOptions,
                     cosine: (seq<real>, seq<real>) -> real, euclidean: (seq<real>, seq<real>) -> real)
    ensures var qualifying := Qualifying(items, vector, o, cosine, euclidean);
      var results := Similar(items, vector, o, cosine, euclidean);
      LimitOf(o) >= 0 ==> |results| == if LimitOf(o) < |qualifying| then LimitOf(o) else |qualifying|
  {
    var kept := Qualifying(items, vector, o, cosine, euclidean);
    SortDescPermutes(kept);
    assert |SortDesc(kept)| == |kept| by {
      assert |multiset(SortDesc(kept))| == |multiset(kept)|;
    }
  }

  /**
   * Nothing that qualifies is lost ahead of a result: every qualifying row
   * left out is no more similar than the last result.
   */
  lemma SimilarLeftOut(items: seq<VectorItem>, vector: seq<real>, o: SearchOptions,
                       cosine: (seq<real>, seq<real>) -> real, euclidean: (seq<real>, seq<real>) -> real)
    ensures var qualifying := Qualifying(items, vector, o, cosine, euclidean);
      var results := Similar(items, vector, o, cosine, euclidean);
      multiset(results) <= multiset(qualifying)
      && forall x :: x in multiset(qualifying) - multiset(results) ==>
           results == [] || x.similarity <= results[|results| - 1].similarity
  {
    var kept := Qualifying(items, vector, o, cosine, euclidean);
    var sorted := SortDesc(kept);
    SortDescSorted(kept);
    SortDescPermutes(kept);
    var results := SliceTo(sorted, LimitOf(o));
    assert results == Similar(items, vector, o, cosine, euclidean);
    var n := |results|;
    assert results == sorted[..n];
    PrefixLeavesLessSimilar(sorted, n);
    assert multiset(sorted) == multiset(kept);
    forall x: Scored | x in multiset(kept) - multiset(results)
      ensures results == [] || x.similarity <= results[n - 1].similarity
    {
      assert x in multiset(sorted) - multiset(sorted[..n]);
    }
  }

  /** Of a list sorted most similar first, what a prefix leaves out is no more similar than its last element. */
  lemma PrefixLeavesLessSimilar(sorted: seq<Scored>, n: nat)
    requires SortedDesc(sorted) && n <= |sorted|
    ensures multiset(sorted[..n]) <= multiset(sorted)
    ensures forall x :: x in multiset(sorted) - multiset(sorted[..n]) ==>
              n == 0 || x.similarity <= sorted[..n][n - 1].similarity
  {
    assert sorted == sorted[..n] + sorted[n..];
    assert multiset(sorted) - multiset(sorted[..n]) == multiset(sorted[n..]);
    forall x: Scored | x in multiset(sorted) - multiset(sorted[..n]) && n > 0
      ensures x.similarity <= sorted[..n][n - 1].similarity
    {
      assert x in sorted[n..];
      var j :| 0 <= j < |sorted[n..]| && sorted[n..][j] == x;
      assert sorted[n + j] == x;
    }
  }

  /** A prefix keeps the order and takes nothing that was not there. */
  lemma SliceSpec(s: seq<Scored>, limit: int)
    ensures var r := SliceTo(s, limit);
      multiset(r) <= multiset(s) && (SortedDesc(s) ==> SortedDesc(r))
  {
    var r := SliceTo(s, limit);
    assert s == r + s[|r|..];
  }

  /** With no options, the search is by cosine similarity, with threshold 0.8 and at most 10 results. */
  lemma SimilarDefaults(items: seq<VectorItem>, vector: seq<real>,
                        cosine: (seq<real>, seq<real>) -> real, euclidean: (seq<real>, seq<real>) -> real)
    ensures var o := SearchOptions(None, None, None, None);
      ThresholdOf(o) == 0.8 && LimitOf(o) == 10 && MethodOf(o) == "cosine"
      && |Similar(items, vector, o, cosine, euclidean)| <= 10
      && forall x :: x in Similar(items, vector, o, cosine, euclidean) ==> x.similarity >= 0.8
  {
    SimilarSpec(items, vector, SearchOptions(None, None, None, None), cosine, euclidean);
  }

  /** A type filter restricts the results to rows of that type. */
  lemma SelectedOfType(rows: seq<VectorItem>, t: string)
    requires t != ""
    ensures forall r :: r in Selected(rows, Some(t)) ==> r in rows && r.vectorType == Some(t)
  {
  }

  /** A negative limit drops that many from the end instead of bounding the count. */
  lemma NegativeLimit(s: seq<Scored>, n: int)
    requires -|s| <= n < 0
    ensures SliceTo(s, n) == s[..|s| + n]
  {
  }

  lemma {:induction false} BumpTotal(acc: seq<Count>, key: string)
    ensures Total(Bump(acc, key)) == Total(acc) + 1
  {
    if acc != [] && acc[0].key != key {
      BumpTotal(acc[1..], key);
    }
  }

  lemma {:induction false} BumpCount(acc: seq<Count>, key: string, k: string)
    ensures CountOf(Bump(acc, key), k) == CountOf(acc, k) + (if k == key then 1 else 0)
  {
    if acc != [] && acc[0].key != key {
      BumpCount(acc[1..], key, k);
    }
  }

  lemma {:induction false} BumpKeys(acc: seq<Count>, key: string)
    requires DistinctKeys(acc)
    ensures DistinctKeys(Bump(acc, key))
    ensures forall c :: c in Bump(acc, key) ==> c.key == key || exists d :: d in acc && d.key == c.key
  {
    if acc == [] {
    } else if acc[0].key == key {
      var r := Bump(acc, key);
      assert forall j :: 0 <= j < |r| ==> r[j].key == acc[j].key;
      forall c | c in r
        ensures exists d :: d in acc && d.key == c.key
      {
        var j :| 0 <= j < |r| && r[j] == c;
        assert acc[j] in acc;
      }
    } else {
      var tail := acc[1..];
      assert DistinctKeys(tail) by {
        forall i, j | 0 <= i < j < |tail|
          ensures tail[i].key != tail[j].key
        {
          assert tail[i] == acc[i + 1] && tail[j] == acc[j + 1];
        }
      }
      BumpKeys(tail, key);
      BumpPastKeys(acc, key);
    }
  }

  /** The step of `BumpKeys` past a first count of another key, given the property for the rest. */
  lemma BumpPastKeys(acc: seq<Count>, key: string)
    requires DistinctKeys(acc) && acc != [] && acc[0].key != key
    requires DistinctKeys(Bump(acc[1..], key))
    requires forall c :: c in Bump(acc[1..], key) ==> c.key == key || exists d :: d in acc[1..] && d.key == c.key
    ensures DistinctKeys(Bump(acc, key))
    ensures forall c :: c in Bump(acc, key) ==> c.key == key || exists d :: d in acc && d.key == c.key
  {
    var tail := acc[1..];
    var r := Bump(tail, key);
    forall j | 0 <= j < |r|
      ensures r[j].key != acc[0].key
    {
      assert r[j] in r;
      if r[j].key != key {
        var d :| d in tail && d.key == r[j].key;
        var i :| 0 <= i < |tail| && tail[i] == d;
        assert acc[i + 1] == d;
      }
    }
    ConsDistinct(acc[0], r);
    assert Bump(acc, key) == [acc[0]] + r;
    forall c | c in [acc[0]] + r
      ensures c.key == key || exists d :: d in acc && d.key == c.key
    {
      if c == acc[0] {
        assert acc[0] in acc;
      } else {
        assert c in r;
        if c.key != key {
          var d :| d in tail && d.key == c.key;
          assert d in acc;
        }
      }
    }
  }

  /** A count whose key is in none of `r` can be put in front of it. */
  lemma ConsDistinct(x: Count, r: seq<Count>)
    requires DistinctKeys(r)
    requires forall j :: 0 <= j < |r| ==> r[j].key != x.key
    ensures DistinctKeys([x] + r)
  {
    var s := [x] + r;
    forall i, j | 0 <= i < j < |s|
      ensures s[i].key != s[j].key
    {
      assert s[j] == r[j - 1];
      if i > 0 {
        assert s[i] == r[i - 1];
      }
    }
  }

  lemma FilterLast(rows: seq<VectorItem>, keep: VectorItem -> bool)
    requires rows != []
    ensures |Filter(rows, keep)| == |Filter(rows[..|rows| - 1], keep)| + (if keep(rows[|rows| - 1]) then 1 else 0)
  {
    var n := |rows| - 1;
    var init, last := rows[..n], [rows[n]];
    assert rows == init + last;
    FilterAppend(init, last, keep);
    assert Filter(last, keep) == (if keep(rows[n]) then [rows[n]] else []) by {
      FilterCons(last, keep);
      assert last[1..] == [];
    }
    assert |Filter(rows, keep)| == |Filter(init, keep)| + |Filter(last, keep)|;
  }

  /**
   * What `getStats` promises: the counts add up to the total, every key is
   * counted once, and each key counts the rows of that type, a missing or
   * empty type counting as "unknown".
   */
  lemma {:induction false} StatsSpec(rows: seq<VectorItem>, key: string)
    ensures Total(ByType(rows)) == |rows|
    ensures DistinctKeys(ByType(rows))
    ensures CountOf(ByType(rows), key) == RowsOfType(rows, key)
  {
    if rows != [] {
      var n := |rows| - 1;
      StatsSpec(rows[..n], key);
      BumpTotal(ByType(rows[..n]), TypeKey(rows[n]));
      BumpKeys(ByType(rows[..n]), TypeKey(rows[n]));
      BumpCount(ByType(rows[..n]), TypeKey(rows[n]), key);
      FilterLast(rows, (r: VectorItem) => TypeKey(r) == key);
    }
  }

  /** A row whose type is missing, empty or literally "unknown" is counted under "unknown". */
  lemma UnknownMerged(id1: int, id2: int, id3: int, v: seq<real>)
    ensures var rows := [VectorItem(id1, None, v, None, None), VectorItem(id2, None, v, None, Some("")),
                         VectorItem(id3, None, v, None, Some(UnknownType))];
      ByType(rows) == [Count(UnknownType, 3)]
  {
    var rows := [VectorItem(id1, None, v, None, None), VectorItem(id2, None, v, None, Some("")),
                 VectorItem(id3, None, v, None, Some(UnknownType))];
    assert rows[..2][..1] == rows[..1];
    assert rows[..1][..0] == [];
    assert ByType(rows[..1]) == [Count(UnknownType, 1)];
    assert ByType(rows[..2]) == Bump([Count(UnknownType, 1)], UnknownType) == [Count(UnknownType, 2)];
    assert ByType(rows) == Bump([Count(UnknownType, 2)], UnknownType);
  }
}
