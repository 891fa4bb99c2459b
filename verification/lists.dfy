/** The list operations the screens apply to their state arrays: `filter`,
    removal and replacement by id, `findIndex`/`find`, and the page slice of
    a paginated table. Records are keyed by a function `key` (their `id`). */
module Lists {
  import opened Common

  function Min(a: int, b: int): int { if a <= b then a else b }
  function Max(a: int, b: int): int { if a >= b then a else b }

  // ---------------------------------------------------------------- filter

  /** `Array.prototype.filter(keep)`. */
  function Filter<T>(s: seq<T>, keep: T -> bool): (r: seq<T>)
    ensures |r| <= |s|
    ensures forall i :: 0 <= i < |r| ==> r[i] in s && keep(r[i])
    ensures forall i :: 0 <= i < |s| && keep(s[i]) ==> s[i] in r
  {
    if s == [] then []
    else if keep(s[0]) then [s[0]] + Filter(s[1..], keep)
    else Filter(s[1..], keep)
  }

  /** Filtering distributes over concatenation: the kept entries stay in
      their original relative order. */
  lemma {:induction false} FilterConcat<T>(a: seq<T>, b: seq<T>, keep: T -> bool)
    ensures Filter(a + b, keep) == Filter(a, keep) + Filter(b, keep)
  {
    if a == [] {
      assert a + b == b;
    } else {
      assert (a + b)[0] == a[0];
      assert (a + b)[1..] == a[1..] + b;
      FilterConcat(a[1..], b, keep);
    }
  }

  /** A filter that every entry passes keeps the whole list. */
  lemma {:induction false} FilterKeepsAll<T>(s: seq<T>, keep: T -> bool)
    requires forall i :: 0 <= i < |s| ==> keep(s[i])
    ensures Filter(s, keep) == s
  {
    if s != [] {
      FilterKeepsAll(s[1..], keep);
    }
  }

  /** A filter no entry passes leaves nothing. */
  lemma {:induction false} FilterKeepsNone<T>(s: seq<T>, keep: T -> bool)
    requires forall i :: 0 <= i < |s| ==> !keep(s[i])
    ensures Filter(s, keep) == []
  {
    if s != [] {
      FilterKeepsNone(s[1..], keep);
    }
  }

  /** Filtering twice by the same test is filtering once. */
  lemma FilterIdempotent<T>(s: seq<T>, keep: T -> bool)
    ensures Filter(Filter(s, keep), keep) == Filter(s, keep)
  {
    FilterKeepsAll(Filter(s, keep), keep);
  }

  /** Two tests that agree on every entry filter alike. */
  lemma {:induction false} FilterSameTest<T>(s: seq<T>, keep: T -> bool, keep2: T -> bool)
    requires forall i :: 0 <= i < |s| ==> keep(s[i]) == keep2(s[i])
    ensures Filter(s, keep) == Filter(s, keep2)
  {
    if |s| > 0 {
      FilterSameTest(s[1..], keep, keep2);
    }
  }

  // ------------------------------------------------------- removal by id

  /** `list.filter((x) => x.id !== k)`: drops every entry whose id is `k`. */
  function RemoveById<T, K(==)>(s: seq<T>, key: T -> K, k: K): (r: seq<T>)
    ensures forall i :: 0 <= i < |r| ==> r[i] in s && key(r[i]) != k
    ensures forall i :: 0 <= i < |s| && key(s[i]) != k ==> s[i] in r
  {
    Filter(s, x => key(x) != k)
  }

  /** Removal keeps the remaining entries in their relative order: it
      distributes over any split of the list. */
  lemma RemoveByIdKeepsOrder<T, K>(a: seq<T>, b: seq<T>, key: T -> K, k: K)
    ensures RemoveById(a + b, key, k) == RemoveById(a, key, k) + RemoveById(b, key, k)
  {
    FilterConcat(a, b, x => key(x) != k);
  }

  /** Removing an id twice is removing it once. */
  lemma RemoveByIdIdempotent<T, K>(s: seq<T>, key: T -> K, k: K)
    ensures RemoveById(RemoveById(s, key, k), key, k) == RemoveById(s, key, k)
  {
    FilterIdempotent(s, x => key(x) != k);
  }

  /** Removing an id no entry has changes nothing. */
  lemma RemoveByIdAbsent<T, K>(s: seq<T>, key: T -> K, k: K)
    requires forall i :: 0 <= i < |s| ==> key(s[i]) != k
    ensures RemoveById(s, key, k) == s
  {
    FilterKeepsAll(s, x => key(x) != k);
  }

  /** Removal shortens the list exactly when some entry has the id. */
  lemma RemoveByIdShrinks<T, K>(s: seq<T>, key: T -> K, k: K)
    ensures |RemoveById(s, key, k)| < |s| <==> exists i :: 0 <= i < |s| && key(s[i]) == k
  {
    if exists i :: 0 <= i < |s| && key(s[i]) == k {
      var i :| 0 <= i < |s| && key(s[i]) == k;
      assert s == s[..i] + [s[i]] + s[i + 1..];
      FilterConcat(s[..i] + [s[i]], s[i + 1..], x => key(x) != k);
      FilterConcat(s[..i], [s[i]], x => key(x) != k);
      assert Filter([s[i]], x => key(x) != k) == [];
    } else {
      RemoveByIdAbsent(s, key, k);
    }
  }

  // --------------------------------------------------- replacement by id

  /** `list.map((p) => (p.id === x.id ? x : p))`: every entry with x's id
      becomes x; the others stay as they are. */
  function ReplaceById<T, K(==)>(s: seq<T>, key: T -> K, x: T): (r: seq<T>)
    ensures |r| == |s|
    ensures forall i :: 0 <= i < |s| ==> key(r[i]) == key(s[i])
    ensures forall i :: 0 <= i < |s| && key(s[i]) != key(x) ==> r[i] == s[i]
    ensures forall i :: 0 <= i < |s| && key(s[i]) == key(x) ==> r[i] == x
  {
    seq(|s|, i requires 0 <= i < |s| => if key(s[i]) == key(x) then x else s[i])
  }

  /** Replacing by an id no entry has changes nothing. */
  lemma ReplaceByIdAbsent<T, K>(s: seq<T>, key: T -> K, x: T)
    requires forall i :: 0 <= i < |s| ==> key(s[i]) != key(x)
    ensures ReplaceById(s, key, x) == s
  {
  }

  /** Replacing twice by the same record is replacing once. */
  lemma ReplaceByIdIdempotent<T, K>(s: seq<T>, key: T -> K, x: T)
    ensures ReplaceById(ReplaceById(s, key, x), key, x) == ReplaceById(s, key, x)
  {
  }

  /** The record is present afterwards exactly when some entry had its id. */
  lemma ReplaceByIdPresent<T, K>(s: seq<T>, key: T -> K, x: T)
    ensures x in ReplaceById(s, key, x) <==> (x in s || exists i :: 0 <= i < |s| && key(s[i]) == key(x))
  {
    var r := ReplaceById(s, key, x);
    if x in s {
      var i :| 0 <= i < |s| && s[i] == x;
      assert r[i] == x;
    }
    if exists i :: 0 <= i < |s| && key(s[i]) == key(x) {
      var i :| 0 <= i < |s| && key(s[i]) == key(x);
      assert r[i] == x;
    }
  }

  // -------------------------------------------------------- find by id

  /** `list.findIndex((p) => p.id === k)`: the first position holding id
      `k`, or -1 when there is none. */
  function FirstIndex<T, K(==)>(s: seq<T>, key: T -> K, k: K): (r: int)
    ensures -1 <= r < |s|
    ensures r == -1 <==> forall i :: 0 <= i < |s| ==> key(s[i]) != k
    ensures r >= 0 ==> key(s[r]) == k && forall j :: 0 <= j < r ==> key(s[j]) != k
  {
    if s == [] then -1
    else if key(s[0]) == k then 0
    else
      var r := FirstIndex(s[1..], key, k);
      if r == -1 then -1 else r + 1
  }

  /** Position `j` holds the first entry with id `k`. */
  predicate FirstWithId<T, K(==)>(s: seq<T>, key: T -> K, k: K, j: int)
  {
    0 <= j < |s| && key(s[j]) == k && forall m :: 0 <= m < j ==> key(s[m]) != k
  }

  /** `list.find((p) => p.id === k)`: the first entry holding id `k`, or
      `undefined` (None) when there is none. */
  function FindById<T, K(==)>(s: seq<T>, key: T -> K, k: K): (r: Option<T>)
    ensures r.None? <==> forall i :: 0 <= i < |s| ==> key(s[i]) != k
    ensures r.Some? ==> exists j :: FirstWithId(s, key, k, j) && s[j] == r.value
  {
    var i := FirstIndex(s, key, k);
    if i == -1 then None else assert FirstWithId(s, key, k, i); Some(s[i])
  }

  /** The slice reducer's update: the first entry with x's id becomes x. */
  function UpdateFirstById<T, K(==)>(s: seq<T>, key: T -> K, x: T): (r: seq<T>)
    ensures |r| == |s|
    ensures forall i :: 0 <= i < |s| && i != FirstIndex(s, key, key(x)) ==> r[i] == s[i]
    ensures FirstIndex(s, key, key(x)) >= 0 ==> r[FirstIndex(s, key, key(x))] == x
  {
    var index := FirstIndex(s, key, key(x));
    if index != -1 then s[index := x] else s
  }

  /** Updating by an id no entry has changes nothing. */
  lemma UpdateFirstByIdAbsent<T, K>(s: seq<T>, key: T -> K, x: T)
    requires forall i :: 0 <= i < |s| ==> key(s[i]) != key(x)
    ensures UpdateFirstById(s, key, x) == s
  {
  }

  /** Ids that occur at most once in the list. */
  predicate UniqueKeys<T, K(==)>(s: seq<T>, key: T -> K)
  {
    forall i, j :: 0 <= i < |s| && 0 <= j < |s| && key(s[i]) == key(s[j]) ==> i == j
  }

  /** With unique ids, updating the first match is the same as replacing
      every match. */
  lemma UpdateFirstIsReplaceWhenUnique<T, K>(s: seq<T>, key: T -> K, x: T)
    requires UniqueKeys(s, key)
    ensures UpdateFirstById(s, key, x) == ReplaceById(s, key, x)
  {
    var u, r := UpdateFirstById(s, key, x), ReplaceById(s, key, x);
    var f := FirstIndex(s, key, key(x));
    forall i | 0 <= i < |s| ensures u[i] == r[i] {
      if key(s[i]) == key(x) {
        assert f >= 0 && key(s[f]) == key(s[i]);
      }
    }
  }

  // ------------------------------------------------------ positional edits

  /** `list.filter((_, i) => i !== index)`: drops the entry at `index`. */
  function RemoveAt<T>(s: seq<T>, index: int): (r: seq<T>)
    ensures 0 <= index < |s| ==> |r| == |s| - 1
    ensures 0 <= index < |s| ==> forall j :: 0 <= j < index ==> r[j] == s[j]
    ensures 0 <= index < |s| ==> forall j :: index <= j < |r| ==> r[j] == s[j + 1]
    ensures !(0 <= index < |s|) ==> r == s
  {
    if 0 <= index < |s| then s[..index] + s[index + 1..] else s
  }

  // ------------------------------------------------------------ pagination

  /** `Array.prototype.slice(start, end)`, negative arguments counting from the end. */
  function JsSlice<T>(s: seq<T>, start: int, end: int): seq<T>
  {
    var n := |s|;
    var from := if start < 0 then Max(n + start, 0) else Min(start, n);
    var to := if end < 0 then Max(n + end, 0) else Min(end, n);
    if from < to then s[from..to] else []
  }

  /** The rows of page `page` (1-based): `slice(page * perPage - perPage, page * perPage)`. */
  function Page<T>(s: seq<T>, page: int, perPage: nat): seq<T>
  {
    JsSlice(s, page * perPage - perPage, page * perPage)
  }

  /** `Math.ceil(n / perPage)`. */
  function TotalPages(n: nat, perPage: nat): nat
    requires perPage > 0
  {
    (n + perPage - 1) / perPage
  }

  /** `(k - 1) * n` is one `n` less than `k * n`. */
  lemma MulStep(k: int, n: int)
    ensures (k - 1) * n == k * n - n
  {
  }

  /** Multiplying by a non-negative number keeps the order. */
  lemma {:induction false} MulMono(a: int, b: int, n: nat)
    requires a <= b
    ensures a * n <= b * n
    decreases b - a
  {
    if a < b {
      MulMono(a, b - 1, n);
      MulStep(b, n);
    }
  }

  /** TotalPages is the least number of pages of `perPage` rows holding `n` rows. */
  lemma TotalPagesIsCeiling(n: nat, perPage: nat)
    requires perPage > 0
    ensures TotalPages(n, perPage) * perPage >= n
    ensures TotalPages(n, perPage) == 0 || (TotalPages(n, perPage) - 1) * perPage < n
  {
    var t := TotalPages(n, perPage);
    var m := n + perPage - 1;
    assert m == t * perPage + m % perPage;
    assert 0 <= m % perPage < perPage;
    MulStep(t, perPage);
  }

  /** For pages from 1 on, a page is the window [(page-1)*perPage, page*perPage) clipped to the list. */
  lemma PageWindow<T>(s: seq<T>, page: int, perPage: nat)
    requires page >= 1
    ensures Page(s, page, perPage) == s[Min((page - 1) * perPage, |s|)..Min(page * perPage, |s|)]
    ensures |Page(s, page, perPage)| <= perPage
  {
    MulStep(page, perPage);
    MulMono(0, page - 1, perPage);
  }

  /** A page past the last one is empty. */
  lemma PagePastEnd<T>(s: seq<T>, page: int, perPage: nat)
    requires perPage > 0 && page > TotalPages(|s|, perPage)
    ensures Page(s, page, perPage) == []
  {
    TotalPagesIsCeiling(|s|, perPage);
    MulMono(TotalPages(|s|, perPage), page - 1, perPage);
    PageWindow(s, page, perPage);
  }

  /** A page before the last one ends inside the list. */
  lemma PageBeforeLastEnds(n: nat, perPage: nat, page: int)
    requires perPage > 0 && 1 <= page < TotalPages(n, perPage)
    ensures page * perPage < n
  {
    TotalPagesIsCeiling(n, perPage);
    MulMono(page, TotalPages(n, perPage) - 1, perPage);
  }

  /** Every page before the last one is full. */
  lemma PageFull<T>(s: seq<T>, page: int, perPage: nat)
    requires perPage > 0 && 1 <= page < TotalPages(|s|, perPage)
    ensures |Page(s, page, perPage)| == perPage
  {
    PageBeforeLastEnds(|s|, perPage, page);
    MulStep(page, perPage);
    MulMono(0, page - 1, perPage);
    var lo, hi := (page - 1) * perPage, page * perPage;
    assert 0 <= lo && lo + perPage == hi && hi < |s|;
    assert Page(s, page, perPage) == s[lo..hi];
  }

  /** Pages 1..count laid end to end. */
  function PagesUpTo<T>(s: seq<T>, perPage: nat, count: nat): seq<T>
  {
    if count == 0 then [] else PagesUpTo(s, perPage, count - 1) + Page(s, count, perPage)
  }

  /** A prefix followed by the next slice is the longer prefix. */
  lemma PrefixThenSlice<T>(s: seq<T>, a: int, b: int)
    requires 0 <= a <= b <= |s|
    ensures s[..a] + s[a..b] == s[..b]
  {
  }

  /** The first `count` pages, read in turn, are the list's prefix of
      `count * perPage` rows. */
  lemma {:induction false} PagesUpToPrefix<T>(s: seq<T>, perPage: nat, count: nat)
    ensures PagesUpTo(s, perPage, count) == s[..Min(count * perPage, |s|)]
  {
    if count > 0 {
      PagesUpToPrefix(s, perPage, count - 1);
      PageWindow(s, count, perPage);
      MulStep(count, perPage);
      MulMono(0, count - 1, perPage);
      PrefixThenSlice(s, Min((count - 1) * perPage, |s|), Min(count * perPage, |s|));
    }
  }

  /** Pages 1..TotalPages, in order, put back together give exactly the list:
      the pages partition it. */
  lemma PagesPartition<T>(s: seq<T>, perPage: nat)
    requires perPage > 0
    ensures PagesUpTo(s, perPage, TotalPages(|s|, perPage)) == s
  {
    TotalPagesIsCeiling(|s|, perPage);
    PagesUpToPrefix(s, perPage, TotalPages(|s|, perPage));
  }
}
