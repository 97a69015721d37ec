/** The document-store operations the routes use, on a collection held as a sequence in
    insertion order: `find(filter)`, `findOne`, `sort({key: -1})`, `limit(n)`, `updateOne`
    and the `$group`/`$sum` count. */
module Query {
  import opened Wrappers

  // ---- find ----------------------------------------------------------------------

  /** `find(filter)` without a sort: the matching documents in stored order. */
  function Filter<T(!new)>(s: seq<T>, p: T -> bool): (r: seq<T>)
    ensures |r| <= |s|
    ensures forall i :: 0 <= i < |r| ==> p(r[i])
    ensures forall x :: x in r <==> x in s && p(x)
  {
    if s == [] then []
    else if p(s[0]) then [s[0]] + Filter(s[1..], p)
    else Filter(s[1..], p)
  }

  /** `r` is obtained from `s` by deleting elements, keeping the order of the rest. */
  ghost predicate SubsequenceOf<T>(r: seq<T>, s: seq<T>)
    decreases |s|
  {
    if r == [] then true
    else if s == [] then false
    else if r[0] == s[0] then SubsequenceOf(r[1..], s[1..])
    else SubsequenceOf(r, s[1..])
  }

  lemma {:induction false} FilterIsSubsequence<T(!new)>(s: seq<T>, p: T -> bool)
    ensures SubsequenceOf(Filter(s, p), s)
  {
    if s != [] {
      FilterIsSubsequence(s[1..], p);
      var rest := Filter(s[1..], p);
      if p(s[0]) {
        assert Filter(s, p) == [s[0]] + rest;
        assert ([s[0]] + rest)[1..] == rest;
      } else {
        // every kept element satisfies p, so the head of `rest` cannot be the skipped s[0]
        assert rest != [] ==> p(rest[0]);
      }
    }
  }

  /** One output per matching document: `find` neither duplicates nor drops a match. */
  lemma {:induction false} FilterMultiplicity<T(!new)>(s: seq<T>, p: T -> bool, x: T)
    ensures multiset(Filter(s, p))[x] == if p(x) then multiset(s)[x] else 0
  {
    if s != [] {
      FilterMultiplicity(s[1..], p, x);
      assert s == [s[0]] + s[1..];
      assert multiset(s) == multiset([s[0]]) + multiset(s[1..]);
      if p(s[0]) {
        assert multiset(Filter(s, p)) == multiset([s[0]]) + multiset(Filter(s[1..], p));
      }
    }
  }

  /** A document inserted at the end is found last, exactly when it matches. */
  lemma {:induction false} FilterSnoc<T(!new)>(s: seq<T>, p: T -> bool, x: T)
    ensures Filter(s + [x], p) == Filter(s, p) + (if p(x) then [x] else [])
  {
    if s == [] {
      assert [x][1..] == [];
    } else {
      assert (s + [x])[1..] == s[1..] + [x];
      FilterSnoc(s[1..], p, x);
    }
  }

  /** Filtering twice is filtering once by the conjunction. */
  lemma {:induction false} FilterFilter<T(!new)>(s: seq<T>, p: T -> bool, q: T -> bool)
    ensures Filter(Filter(s, p), q) == Filter(s, x => p(x) && q(x))
  {
    if s != [] {
      FilterFilter(s[1..], p, q);
      if p(s[0]) {
        assert Filter(s, p) == [s[0]] + Filter(s[1..], p);
        assert ([s[0]] + Filter(s[1..], p))[1..] == Filter(s[1..], p);
      }
    }
  }

  /** Filters with the same verdict on every element of `s` select the same documents. */
  lemma {:induction false} FilterExtensional<T(!new)>(s: seq<T>, p: T -> bool, q: T -> bool)
    requires forall i :: 0 <= i < |s| ==> p(s[i]) == q(s[i])
    ensures Filter(s, p) == Filter(s, q)
  {
    if s != [] {
      FilterExtensional(s[1..], p, q);
    }
  }

  /** The empty filter `{}` returns the whole collection. */
  lemma {:induction false} FilterAll<T(!new)>(s: seq<T>, p: T -> bool)
    requires forall i :: 0 <= i < |s| ==> p(s[i])
    ensures Filter(s, p) == s
  {
    if s != [] {
      FilterAll(s[1..], p);
      assert s == [s[0]] + s[1..];
    }
  }

  // ---- findOne -------------------------------------------------------------------

  /** `findOne(filter)`: the position of the first matching document. */
  function FindFirst<T>(s: seq<T>, p: T -> bool): (r: Option<nat>)
    ensures r.Some? ==> r.value < |s| && p(s[r.value]) && forall j :: 0 <= j < r.value ==> !p(s[j])
    ensures r.None? ==> forall j :: 0 <= j < |s| ==> !p(s[j])
  {
    if s == [] then None
    else if p(s[0]) then Some(0)
    else match FindFirst(s[1..], p)
      case None => None
      case Some(i) => Some(i + 1)
  }

  /** The first match is unique: an index that matches, with no match before it, is the one. */
  lemma FindFirstIs<T>(s: seq<T>, p: T -> bool, i: nat)
    requires i < |s| && p(s[i]) && forall j :: 0 <= j < i ==> !p(s[j])
    ensures FindFirst(s, p) == Some(i)
  {
  }

  /** `findOne(filter)` as a document. */
  function FindOne<T>(s: seq<T>, p: T -> bool): (r: Option<T>)
    ensures r.Some? ==> r.value in s && p(r.value)
    ensures r.None? ==> forall x :: x in s ==> !p(x)
  {
    match FindFirst(s, p)
    case None => None
    case Some(i) => Some(s[i])
  }

  /** `updateOne(filter, {$set: ...})`: the first matching document is replaced by its
      updated form `f(doc)`, every other document is left as it was. */
  function UpdateFirst<T>(s: seq<T>, p: T -> bool, f: T -> T): (r: seq<T>)
    ensures |r| == |s|
    ensures forall i :: 0 <= i < |s| ==> r[i] == if FindFirst(s, p) == Some(i) then f(s[i]) else s[i]
  {
    match FindFirst(s, p)
    case None => s
    case Some(i) => s[i := f(s[i])]
  }

  // ---- sort and limit --------------------------------------------------------------

  ghost predicate SortedDesc<T>(s: seq<T>, key: T -> int) {
    forall i, j :: 0 <= i < j < |s| ==> key(s[i]) >= key(s[j])
  }

  function InsertDesc<T>(x: T, s: seq<T>, key: T -> int): (r: seq<T>)
    ensures |r| == |s| + 1
    ensures multiset(r) == multiset(s) + multiset{x}
  {
    if s == [] || key(x) >= key(s[0]) then
      assert multiset([x] + s) == multiset{x} + multiset(s);
      [x] + s
    else
      var rest := InsertDesc(x, s[1..], key);
      assert s == [s[0]] + s[1..];
      assert multiset([s[0]] + rest) == multiset{s[0]} + multiset(rest);
      [s[0]] + rest
  }

  /** A head no smaller than anything after it keeps a sorted sequence sorted. */
  lemma ConsSorted<T>(h: T, rest: seq<T>, key: T -> int)
    requires SortedDesc(rest, key)
    requires forall k :: 0 <= k < |rest| ==> key(h) >= key(rest[k])
    ensures SortedDesc([h] + rest, key)
  {
    var r := [h] + rest;
    forall i, j | 0 <= i < j < |r| ensures key(r[i]) >= key(r[j]) {
      assert r[j] == rest[j - 1];
      if i > 0 {
        assert r[i] == rest[i - 1];
      }
    }
  }

  /** Inserting a smaller `x` behind the head of a sorted sequence leaves the head the largest. */
  lemma InsertBehindHead<T>(x: T, s: seq<T>, key: T -> int)
    requires SortedDesc(s, key) && s != [] && key(x) < key(s[0])
    ensures forall k :: 0 <= k < |InsertDesc(x, s[1..], key)| ==> key(s[0]) >= key(InsertDesc(x, s[1..], key)[k])
  {
    var rest := InsertDesc(x, s[1..], key);
    forall k | 0 <= k < |rest| ensures key(s[0]) >= key(rest[k]) {
      assert rest[k] in multiset(rest);
      if rest[k] != x {
        assert rest[k] in multiset(s[1..]);
        var j :| 0 <= j < |s[1..]| && s[1..][j] == rest[k];
        assert s[j + 1] == rest[k];
      }
    }
  }

  lemma {:induction false} InsertDescSorted<T>(x: T, s: seq<T>, key: T -> int)
    requires SortedDesc(s, key)
    ensures SortedDesc(InsertDesc(x, s, key), key)
  {
    if s == [] || key(x) >= key(s[0]) {
      ConsSorted(x, s, key);
    } else {
      assert SortedDesc(s[1..], key);
      InsertDescSorted(x, s[1..], key);
      InsertBehindHead(x, s, key);
      ConsSorted(s[0], InsertDesc(x, s[1..], key), key);
    }
  }

  /** `sort({key: -1})`: the same documents, largest key first. */
  function SortDesc<T>(s: seq<T>, key: T -> int): (r: seq<T>)
    ensures |r| == |s|
    ensures SortedDesc(r, key)
    ensures multiset(r) == multiset(s)
  {
    if s == [] then []
    else
      assert s == [s[0]] + s[1..];
      InsertDescSorted(s[0], SortDesc(s[1..], key), key);
      InsertDesc(s[0], SortDesc(s[1..], key), key)
  }

  /** `limit(n)`: the first n documents. */
  function Take<T>(s: seq<T>, n: nat): (r: seq<T>)
    ensures |r| == if |s| <= n then |s| else n
    ensures r == s[..|r|]
  {
    if |s| <= n then s else s[..n]
  }

  lemma TakeSorted<T>(s: seq<T>, n: nat, key: T -> int)
    requires SortedDesc(s, key)
    ensures SortedDesc(Take(s, n), key)
  {
  }

  /** `r` is what `find(filter).sort({key: -1}).limit(n)` may return on `s`: as many matching
      documents as there are, up to n, all of them from `s`, newest first, and no matching
      document left out is newer than one returned. */
  ghost predicate NewestOf<T(!new)>(r: seq<T>, s: seq<T>, p: T -> bool, key: T -> int, n: nat) {
    && |r| == (if |Filter(s, p)| <= n then |Filter(s, p)| else n)
    && SortedDesc(r, key)
    && (forall x :: x in r ==> x in s && p(x))
    && (forall x, y :: x in s && p(x) && x !in r && y in r ==> key(y) >= key(x))
  }

  /** Sorting the matches and keeping the first n returns the newest n matches. */
  lemma NewestMatching<T(!new)>(s: seq<T>, p: T -> bool, key: T -> int, n: nat)
    ensures NewestOf(Take(SortDesc(Filter(s, p), key), n), s, p, key, n)
  {
    var sorted := SortDesc(Filter(s, p), key);
    var r := Take(sorted, n);
    forall x | x in r ensures x in s && p(x) {
      assert x in multiset(sorted);
    }
    forall x, y | x in s && p(x) && x !in r && y in r ensures key(y) >= key(x) {
      assert x in multiset(Filter(s, p));
      TakeLeavesOlder(sorted, key, n, x, y);
    }
  }

  /** In a sequence sorted newest first, what a prefix leaves out is no newer than what it keeps. */
  lemma TakeLeavesOlder<T>(sorted: seq<T>, key: T -> int, n: nat, x: T, y: T)
    requires SortedDesc(sorted, key)
    requires x in multiset(sorted) && x !in Take(sorted, n) && y in Take(sorted, n)
    ensures key(y) >= key(x)
  {
    var r := Take(sorted, n);
    var j :| 0 <= j < |sorted| && sorted[j] == x;
    var i :| 0 <= i < |r| && r[i] == y;
    assert sorted[i] == y;
  }

  // ---- $group / $sum ------------------------------------------------------------------

  function Occurrences<T(==)>(s: seq<T>, x: T): (n: nat)
    ensures n <= |s|
    ensures n == 0 <==> x !in s
  {
    if s == [] then 0 else Occurrences(s[..|s| - 1], x) + (if s[|s| - 1] == x then 1 else 0)
  }

  /** The distinct values of `s`, in order of first occurrence. */
  function Distinct<T(==,!new)>(s: seq<T>): (r: seq<T>)
    ensures forall x :: x in r <==> x in s
    ensures forall i, j :: 0 <= i < j < |r| ==> r[i] != r[j]
  {
    if s == [] then []
    else
      var d := Distinct(s[..|s| - 1]);
      var x := s[|s| - 1];
      assert forall y :: y in s <==> y in s[..|s| - 1] || y == x;
      if x in d then d else d + [x]
  }

  /** `aggregate([{$group: {_id: "$field", count: {$sum: 1}}}])` over the field values. */
  function GroupCount<T(==,!new)>(s: seq<T>): (r: seq<(T, nat)>)
    ensures forall i :: 0 <= i < |r| ==> r[i].1 == Occurrences(s, r[i].0) && r[i].1 >= 1
    ensures forall x :: x in s <==> exists i :: 0 <= i < |r| && r[i].0 == x
    ensures forall i, j :: 0 <= i < j < |r| ==> r[i].0 != r[j].0
  {
    var d := Distinct(s);
    var r := seq(|d|, i requires 0 <= i < |d| => (d[i], Occurrences(s, d[i])));
    assert forall x :: x in d ==> exists i :: 0 <= i < |r| && r[i].0 == x by {
      forall x | x in d ensures exists i :: 0 <= i < |r| && r[i].0 == x {
        var i :| 0 <= i < |d| && d[i] == x;
        assert r[i].0 == x;
      }
    }
    r
  }

  function SumCounts<T>(g: seq<(T, nat)>): nat {
    if g == [] then 0 else SumCounts(g[..|g| - 1]) + g[|g| - 1].1
  }

  function SumOccurrences<T(==)>(keys: seq<T>, s: seq<T>): nat {
    if keys == [] then 0 else SumOccurrences(keys[..|keys| - 1], s) + Occurrences(s, keys[|keys| - 1])
  }

  lemma {:induction false} SumOccurrencesSnoc<T>(keys: seq<T>, s: seq<T>, x: T)
    requires forall i, j :: 0 <= i < j < |keys| ==> keys[i] != keys[j]
    ensures SumOccurrences(keys, s + [x]) == SumOccurrences(keys, s) + (if x in keys then 1 else 0)
  {
    if keys != [] {
      var init := keys[..|keys| - 1];
      var last := keys[|keys| - 1];
      SumOccurrencesSnoc(init, s, x);
      assert (s + [x])[..|s + [x]| - 1] == s;
      assert x in keys <==> x in init || x == last;
      assert forall i :: 0 <= i < |init| ==> init[i] == keys[i] && keys[i] != keys[|keys| - 1];
      assert last !in init;
    }
  }

  lemma {:induction false} SumOccurrencesAppend<T>(keys: seq<T>, s: seq<T>, x: T)
    requires x !in s
    ensures SumOccurrences(keys + [x], s + [x]) == SumOccurrences(keys, s + [x]) + 1
  {
    assert (keys + [x])[..|keys + [x]| - 1] == keys;
    assert (s + [x])[..|s + [x]| - 1] == s;
  }

  /** Every document is counted in exactly one group. */
  lemma {:induction false} DistinctCountsSum<T(!new)>(s: seq<T>)
    ensures SumOccurrences(Distinct(s), s) == |s|
  {
    if s != [] {
      var init := s[..|s| - 1];
      var x := s[|s| - 1];
      assert s == init + [x];
      DistinctCountsSum(init);
      var d := Distinct(init);
      SumOccurrencesSnoc(d, init, x);
      if x !in d {
        SumOccurrencesAppend(d, init, x);
      }
    }
  }

  lemma {:induction false} SumCountsIsSumOccurrences<T>(d: seq<T>, s: seq<T>)
    ensures SumCounts(seq(|d|, i requires 0 <= i < |d| => (d[i], Occurrences(s, d[i])))) == SumOccurrences(d, s)
  {
    if d != [] {
      var g := seq(|d|, i requires 0 <= i < |d| => (d[i], Occurrences(s, d[i])));
      var init := d[..|d| - 1];
      SumCountsIsSumOccurrences(init, s);
      assert g[..|g| - 1] == seq(|init|, i requires 0 <= i < |init| => (init[i], Occurrences(s, init[i])));
    }
  }

  /** The group counts add up to the size of the collection. */
  lemma GroupCountSum<T(!new)>(s: seq<T>)
    ensures SumCounts(GroupCount(s)) == |s|
  {
    SumCountsIsSumOccurrences(Distinct(s), s);
    DistinctCountsSum(s);
  }
}
