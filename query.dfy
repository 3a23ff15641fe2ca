/**
 * The list-query pipeline the list routes share: a chain of optional filters
 * over `Object.values(store)`, a stable descending sort by a date key (the
 * engine's `Array.prototype.sort` is stable), and the page slice
 * `[(page-1)*limit, (page-1)*limit+limit)` with its pagination metadata.
 */
module Query {
  import opened Wrappers
  import opened MockData

  // ------------------------------------------------------------------ filter

  /** `s.filter(p)`. */
  function Filter<T(!new)>(s: seq<T>, p: T -> bool): (r: seq<T>)
    ensures |r| <= |s|
    ensures forall x :: x in r <==> x in s && p(x)
    ensures multiset(r) <= multiset(s)
  {
    if s == [] then []
    else if p(s[0]) then
      assert s == [s[0]] + s[1..];
      [s[0]] + Filter(s[1..], p)
    else
      assert s == [s[0]] + s[1..];
      Filter(s[1..], p)
  }

  /** `if (enabled) s = s.filter(p)`: one optional step of a filter chain. */
  function Step<T(!new)>(s: seq<T>, enabled: bool, p: T -> bool): seq<T> {
    if enabled then Filter(s, p) else s
  }

  /** An optional step keeps exactly the elements accepted, or all of them when it is disabled. */
  lemma StepMembers<T(!new)>(s: seq<T>, enabled: bool, p: T -> bool)
    ensures forall x :: x in Step(s, enabled, p) <==> x in s && (enabled ==> p(x))
  {
  }

  /** The conjunction of two predicates. */
  function And<T>(p: T -> bool, q: T -> bool): T -> bool {
    x => p(x) && q(x)
  }

  /** The predicate an optional step applies: accepted, or the step is disabled. */
  function When<T>(enabled: bool, p: T -> bool): T -> bool {
    x => !enabled || p(x)
  }

  /** Two filters in a row are one filter by the conjunction. */
  lemma {:induction false} FilterFuse<T(!new)>(s: seq<T>, p: T -> bool, q: T -> bool)
    ensures Filter(Filter(s, p), q) == Filter(s, And(p, q))
  {
    if s != [] {
      FilterFuse(s[1..], p, q);
    }
  }

  /** Filtering by a predicate that every element meets keeps the sequence. */
  lemma {:induction false} FilterKeepsAll<T(!new)>(s: seq<T>, p: T -> bool)
    requires forall x :: x in s ==> p(x)
    ensures Filter(s, p) == s
  {
    if s != [] {
      assert forall x :: x in s[1..] ==> x in s;
      FilterKeepsAll(s[1..], p);
    }
  }

  /** Filtering by a predicate no element meets leaves nothing. */
  lemma {:induction false} FilterKeepsNone<T(!new)>(s: seq<T>, p: T -> bool)
    requires forall x :: x in s ==> !p(x)
    ensures Filter(s, p) == []
  {
    if s != [] {
      assert forall x :: x in s[1..] ==> x in s;
      FilterKeepsNone(s[1..], p);
    }
  }

  /** Filtering depends only on which elements the predicate accepts. */
  lemma {:induction false} FilterExtensional<T(!new)>(s: seq<T>, p: T -> bool, q: T -> bool)
    requires forall x :: x in s ==> (p(x) <==> q(x))
    ensures Filter(s, p) == Filter(s, q)
  {
    if s != [] {
      assert forall x :: x in s[1..] ==> x in s;
      FilterExtensional(s[1..], p, q);
    }
  }

  /** Two filters commute: the result, order included, does not depend on which runs first. */
  lemma FilterCommutes<T(!new)>(s: seq<T>, p: T -> bool, q: T -> bool)
    ensures Filter(Filter(s, p), q) == Filter(Filter(s, q), p)
  {
    FilterFuse(s, p, q);
    FilterFuse(s, q, p);
    FilterExtensional(s, And(p, q), And(q, p));
  }

  /** An optional step is a filter by "disabled or accepted". */
  lemma StepIsFilter<T(!new)>(s: seq<T>, enabled: bool, p: T -> bool)
    ensures Step(s, enabled, p) == Filter(s, When(enabled, p))
  {
    if !enabled {
      FilterKeepsAll(s, When(enabled, p));
    } else {
      FilterExtensional(s, p, When(enabled, p));
    }
  }

  /** The number of elements that meet `p`, counted one by one. */
  function Count<T>(s: seq<T>, p: T -> bool): (n: nat)
    ensures n <= |s|
  {
    if s == [] then 0 else (if p(s[0]) then 1 else 0) + Count(s[1..], p)
  }

  /** A filter keeps exactly as many elements as meet its predicate. */
  lemma {:induction false} FilterCount<T(!new)>(s: seq<T>, p: T -> bool)
    ensures |Filter(s, p)| == Count(s, p)
  {
    if s != [] {
      FilterCount(s[1..], p);
    }
  }

  /** `s.map(f)`: one image per element, in order. */
  function Map<A, B>(s: seq<A>, f: A -> B): (r: seq<B>)
    ensures |r| == |s| && forall i :: 0 <= i < |s| ==> r[i] == f(s[i])
  {
    seq(|s|, i requires 0 <= i < |s| => f(s[i]))
  }

  // ---------------------------------------------------------------- paging

  /** The page and limit query parameters, defaulting to 1 and 20. */
  datatype PageRequest = PageRequest(page: Option<int>, limit: Option<int>) {
    function Page(): int { page.GetOr(1) }
    function Limit(): int { limit.GetOr(20) }
    predicate InRange() { Page() >= 1 && Limit() >= 1 }
  }

  lemma MulMonotone(a: int, b: int, c: int)
    requires a <= b && c >= 0
    ensures a * c <= b * c
  {
  }

  function StartIndex(page: int, limit: int): (n: nat)
    requires page >= 1 && limit >= 1
  {
    MulMonotone(0, page - 1, limit);
    (page - 1) * limit
  }

  function Min(a: int, b: int): int {
    if a <= b then a else b
  }

  /** `s.slice(startIndex, startIndex + limit)` with `startIndex = (page - 1) * limit`. */
  function Paginate<T>(s: seq<T>, page: int, limit: int): (r: seq<T>)
    requires page >= 1 && limit >= 1
    ensures |r| <= limit
    ensures |r| == 0 <==> StartIndex(page, limit) >= |s|
    ensures StartIndex(page, limit) < |s| ==> |r| == Min(limit, |s| - StartIndex(page, limit))
    ensures forall i :: 0 <= i < |r| ==> StartIndex(page, limit) + i < |s| && r[i] == s[StartIndex(page, limit) + i]
  {
    var start := StartIndex(page, limit);
    var end := start + limit;
    s[Min(start, |s|)..Min(end, |s|)]
  }

  /** A page of a sorted list is sorted, and holds only elements of the list. */
  lemma PageOfSorted<T>(s: seq<T>, key: T -> int, page: int, limit: int)
    requires page >= 1 && limit >= 1
    requires SortedDesc(s, key)
    ensures SortedDesc(Paginate(s, page, limit), key)
    ensures forall x :: x in Paginate(s, page, limit) ==> x in s
  {
    var r := Paginate(s, page, limit);
    var start := StartIndex(page, limit);
    forall i, j | 0 <= i < j < |r| ensures key(r[i]) >= key(r[j]) {
      assert r[i] == s[start + i] && r[j] == s[start + j];
    }
    forall x | x in r ensures x in s {
      var i :| 0 <= i < |r| && r[i] == x;
      assert s[start + i] == x;
    }
  }

  /** A page holds only elements of the list it is cut from. */
  lemma PageWithin<T>(s: seq<T>, page: int, limit: int, x: T)
    requires page >= 1 && limit >= 1 && x in Paginate(s, page, limit)
    ensures x in s
  {
    var r := Paginate(s, page, limit);
    var i :| 0 <= i < |r| && r[i] == x;
    assert s[StartIndex(page, limit) + i] == x;
  }

  /** A page is empty exactly when it lies beyond the pagination's `totalPages`. */
  lemma PageEmptyBeyondLast<T>(s: seq<T>, page: int, limit: int)
    requires page >= 1 && limit >= 1
    ensures |Paginate(s, page, limit)| == 0 <==> page > GeneratePagination(page, limit, |s|).totalPages
  {
    var q := GeneratePagination(page, limit, |s|).totalPages;
    if page - 1 >= q {
      MulMonotone(q, page - 1, limit);
    } else {
      MulMonotone(page - 1, q - 1, limit);
      assert (q - 1) * limit == q * limit - limit;
    }
  }

  /** Every element of the list appears on exactly the page its index falls into. */
  lemma {:induction false} ElementOnItsPage<T>(s: seq<T>, i: nat, limit: int)
    requires i < |s| && limit >= 1
    ensures var page := i / limit + 1;
      && StartIndex(page, limit) <= i
      && Paginate(s, page, limit)[i - StartIndex(page, limit)] == s[i]
  {
    var page := i / limit + 1;
    assert StartIndex(page, limit) == (i / limit) * limit;
    assert i == (i / limit) * limit + i % limit;
  }

  // ------------------------------------------------------------------- sort

  /** Non-increasing by `key`. */
  predicate SortedDesc<T>(s: seq<T>, key: T -> int) {
    forall i, j :: 0 <= i < j < |s| ==> key(s[i]) >= key(s[j])
  }

  /** Inserts `x` after every element whose key is at least `x`'s: the step of a stable sort. */
  function InsertDesc<T>(s: seq<T>, x: T, key: T -> int): (r: seq<T>)
    ensures |r| == |s| + 1
    decreases |s|
  {
    if s == [] || key(s[|s| - 1]) >= key(x) then s + [x]
    else InsertDesc(s[..|s| - 1], x, key) + [s[|s| - 1]]
  }

  /**
   * `s.sort((a, b) => key(b) - key(a))` under a stable sort: descending by key,
   * elements with equal keys in their original order.
   */
  function SortDesc<T>(s: seq<T>, key: T -> int): (r: seq<T>)
    ensures |r| == |s|
    decreases |s|
  {
    if s == [] then [] else InsertDesc(SortDesc(s[..|s| - 1], key), s[|s| - 1], key)
  }

  lemma {:induction false} InsertDescPermutes<T>(s: seq<T>, x: T, key: T -> int)
    ensures multiset(InsertDesc(s, x, key)) == multiset(s) + multiset{x}
    decreases |s|
  {
    if !(s == [] || key(s[|s| - 1]) >= key(x)) {
      InsertDescPermutes(s[..|s| - 1], x, key);
      assert s == s[..|s| - 1] + [s[|s| - 1]];
    }
  }

  lemma {:induction false} InsertDescSorted<T>(s: seq<T>, x: T, key: T -> int)
    requires SortedDesc(s, key)
    ensures SortedDesc(InsertDesc(s, x, key), key)
    decreases |s|
  {
    if !(s == [] || key(s[|s| - 1]) >= key(x)) {
      var init, last := s[..|s| - 1], s[|s| - 1];
      InsertDescSorted(init, x, key);
      InsertDescPermutes(init, x, key);
      var r := InsertDesc(init, x, key);
      forall y | y in r ensures key(y) >= key(last) {
        assert y in multiset(r);
        if y != x {
          var k :| 0 <= k < |init| && init[k] == y;
          assert s[k] == y;
        }
      }
    }
  }

  /** The sort yields a non-increasing sequence. */
  lemma {:induction false} SortDescSorted<T>(s: seq<T>, key: T -> int)
    ensures SortedDesc(SortDesc(s, key), key)
    decreases |s|
  {
    if s != [] {
      SortDescSorted(s[..|s| - 1], key);
      InsertDescSorted(SortDesc(s[..|s| - 1], key), s[|s| - 1], key);
    }
  }

  /** The sort yields a permutation of its input. */
  lemma {:induction false} SortDescPermutes<T>(s: seq<T>, key: T -> int)
    ensures multiset(SortDesc(s, key)) == multiset(s)
    decreases |s|
  {
    if s != [] {
      SortDescPermutes(s[..|s| - 1], key);
      InsertDescPermutes(SortDesc(s[..|s| - 1], key), s[|s| - 1], key);
      assert s == s[..|s| - 1] + [s[|s| - 1]];
    }
  }

  /** The recursive case of `InsertDesc`: `x` goes before a last element with a smaller key. */
  lemma InsertDescUnfold<T>(p: seq<T>, x: T, key: T -> int)
    requires p != [] && key(p[|p| - 1]) < key(x)
    ensures InsertDesc(p, x, key) == InsertDesc(p[..|p| - 1], x, key) + [p[|p| - 1]]
  {
  }

  /** One more bubbling step of `InsertLast` keeps the insertion it is performing. */
  lemma InsertDescStep<T>(sorted: seq<T>, x: T, key: T -> int, j: nat)
    requires 0 < j <= |sorted| && key(sorted[j - 1]) < key(x)
    ensures InsertDesc(sorted[..j], x, key) + sorted[j..] == InsertDesc(sorted[..j - 1], x, key) + sorted[j - 1..]
  {
    var p := sorted[..j];
    assert p[|p| - 1] == sorted[j - 1];
    assert p[..|p| - 1] == sorted[..j - 1];
    InsertDescUnfold(p, x, key);
    var ins := InsertDesc(sorted[..j - 1], x, key);
    assert InsertDesc(p, x, key) == ins + [sorted[j - 1]];
    assert sorted[j - 1..] == [sorted[j - 1]] + sorted[j..];
    assert ins + [sorted[j - 1]] + sorted[j..] == ins + ([sorted[j - 1]] + sorted[j..]);
  }

  /** Swapping `x` with its left neighbour moves it one place left. */
  lemma SwapLeft<T>(sorted: seq<T>, x: T, rest: seq<T>, j: nat)
    requires 0 < j <= |sorted|
    ensures (sorted[..j] + [x] + sorted[j..] + rest)[j - 1 := x][j := sorted[j - 1]]
         == sorted[..j - 1] + [x] + sorted[j - 1..] + rest
  {
    var u := (sorted[..j] + [x] + sorted[j..] + rest)[j - 1 := x][j := sorted[j - 1]];
    var v := sorted[..j - 1] + [x] + sorted[j - 1..] + rest;
    assert |u| == |v|;
    forall k | 0 <= k < |u| ensures u[k] == v[k] {
      if k < j - 1 {
      } else if k == j - 1 {
      } else if k == j {
      } else if k < |sorted| + 1 {
        assert u[k] == sorted[k - 1];
      } else {
        assert u[k] == rest[k - |sorted| - 1];
      }
    }
  }

  /** Moves `a[i]` left into the sorted prefix `a[..i]`, after every element whose key is at least its own. */
  method InsertLast<T>(a: array<T>, i: nat, key: T -> int)
    requires i < a.Length
    modifies a
    ensures a[..] == InsertDesc(old(a[..i]), old(a[i]), key) + old(a[i + 1..])
  {
    ghost var sorted, rest := a[..i], a[i + 1..];
    var x := a[i];
    var j := i;
    assert sorted[..j] == sorted && sorted[j..] == [];
    assert a[..] == sorted[..j] + [x] + sorted[j..] + rest;
    while j > 0 && key(a[j - 1]) < key(x)
      invariant 0 <= j <= i
      invariant a[..] == sorted[..j] + [x] + sorted[j..] + rest
      invariant InsertDesc(sorted, x, key) == InsertDesc(sorted[..j], x, key) + sorted[j..]
    {
      assert a[j - 1] == sorted[j - 1];
      InsertDescStep(sorted, x, key, j);
      SwapLeft(sorted, x, rest, j);
      ghost var before := a[..];
      a[j - 1], a[j] := a[j], a[j - 1];
      assert a[..] == before[j - 1 := x][j := sorted[j - 1]];
      j := j - 1;
    }
    assert j > 0 ==> a[j - 1] == sorted[j - 1];
  }

  /** Before step i of `SortInPlace`: the sorted prefix, the next element, the untouched rest. */
  lemma SortSplit<T>(input: seq<T>, cur: seq<T>, i: nat, key: T -> int)
    requires i < |input| && cur == SortDesc(input[..i], key) + input[i..]
    ensures cur[..i] == SortDesc(input[..i], key) && cur[i] == input[i] && cur[i + 1..] == input[i + 1..]
    ensures InsertDesc(cur[..i], cur[i], key) == SortDesc(input[..i + 1], key)
  {
    var sorted := SortDesc(input[..i], key);
    assert cur[..i] == sorted;
    assert cur[i..] == input[i..];
    assert cur[i + 1..] == cur[i..][1..];
    assert input[i + 1..] == input[i..][1..];
    assert input[..i + 1][..i] == input[..i];
  }

  /** Sorts `a` in place, descending by `key`, as the stable sort `SortDesc` orders it. */
  method SortInPlace<T>(a: array<T>, key: T -> int)
    modifies a
    ensures a[..] == SortDesc(old(a[..]), key)
  {
    ghost var input := a[..];
    var i := 0;
    while i < a.Length
      invariant 0 <= i <= a.Length
      invariant a[..] == SortDesc(input[..i], key) + input[i..]
    {
      SortSplit(input, a[..], i, key);
      InsertLast(a, i, key);
      i := i + 1;
    }
    assert input[..a.Length] == input;
  }

  /** A sorted copy of `s`: the list is copied into a fresh array and sorted in place. */
  method SortedCopy<T>(s: seq<T>, key: T -> int) returns (r: seq<T>)
    ensures r == SortDesc(s, key)
    ensures SortedDesc(r, key) && multiset(r) == multiset(s)
  {
    var a := new T[|s|](i requires 0 <= i < |s| => s[i]);
    assert a[..] == s;
    SortInPlace(a, key);
    r := a[..];
    SortDescSorted(s, key);
    SortDescPermutes(s, key);
  }
}
