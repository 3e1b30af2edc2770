/** The array facilities of the JavaScript runtime the application uses:
    `Array.prototype.filter`, `Array.prototype.sort` (a stable sort, as
    ECMAScript 2019 requires) with a comparator, `Array.from(new Set(xs))`
    (first occurrences, in order), and the default string order of `sort()`
    (character by character). */
module Arrays {

  /** `r` is `s` with some elements left out, the rest in their order. */
  ghost predicate IsSubsequence<T>(r: seq<T>, s: seq<T>)
    decreases |s|
  {
    if r == [] then true
    else if s == [] then false
    else if r[0] == s[0] then IsSubsequence(r[1..], s[1..])
    else IsSubsequence(r, s[1..])
  }

  /** `s.filter(p)` */
  function Filter<T(!new)>(s: seq<T>, p: T -> bool): (r: seq<T>)
    ensures forall x :: x in r <==> x in s && p(x)
    ensures forall k :: 0 <= k < |r| ==> p(r[k])
    ensures |r| <= |s| && IsSubsequence(r, s)
  {
    if s == [] then []
    else
      var rest := Filter(s[1..], p);
      assert s == [s[0]] + s[1..];
      if p(s[0]) then [s[0]] + rest else rest
  }

  /** Filtering twice is filtering once with both conditions. */
  lemma {:induction false} FilterFilter<T(!new)>(s: seq<T>, p: T -> bool, q: T -> bool, pq: T -> bool)
    requires forall x :: pq(x) == (p(x) && q(x))
    ensures Filter(Filter(s, p), q) == Filter(s, pq)
  {
    if s != [] {
      FilterFilter(s[1..], p, q, pq);
    }
  }

  /** Filtering depends only on which elements satisfy the condition. */
  lemma {:induction false} FilterSame<T(!new)>(s: seq<T>, p: T -> bool, q: T -> bool)
    requires forall k :: 0 <= k < |s| ==> p(s[k]) == q(s[k])
    ensures Filter(s, p) == Filter(s, q)
  {
    if s != [] {
      FilterSame(s[1..], p, q);
    }
  }

  /** `le(a, b)` reads "the comparator does not put a after b", that is
      `compare(a, b) <= 0`. A comparator that is consistent gives a total
      preorder. */
  ghost predicate TotalPreorder<T(!new)>(le: (T, T) -> bool) {
    && (forall a, b :: le(a, b) || le(b, a))
    && (forall a, b, c :: le(a, b) && le(b, c) ==> le(a, c))
  }

  predicate Sorted<T>(s: seq<T>, le: (T, T) -> bool) {
    forall i, j :: 0 <= i < j < |s| ==> le(s[i], s[j])
  }

  /** Two elements of `m` that the order cannot tell apart are equal. */
  ghost predicate NoTiesIn<T(!new)>(m: multiset<T>, le: (T, T) -> bool) {
    forall x, y :: x in m && y in m && le(x, y) && le(y, x) ==> x == y
  }

  ghost predicate NoDuplicates<T>(s: seq<T>) {
    forall i, j :: 0 <= i < j < |s| ==> s[i] != s[j]
  }

  /** Places `x` after every element of the sorted `s` that does not compare
      greater than it, so earlier equal elements stay in front. */
  function Insert<T>(x: T, s: seq<T>, le: (T, T) -> bool): (r: seq<T>)
    ensures multiset(r) == multiset(s) + multiset{x}
  {
    if s == [] then [x]
    else if !le(s[0], x) then [x] + s
    else
      assert s == [s[0]] + s[1..];
      [s[0]] + Insert(x, s[1..], le)
  }

  /** Stable insertion sort: the input is taken in order and each element is
      inserted behind its equals. */
  function Sort<T>(s: seq<T>, le: (T, T) -> bool): (r: seq<T>)
    ensures multiset(r) == multiset(s)
  {
    if s == [] then []
    else
      assert s == s[..|s| - 1] + [s[|s| - 1]];
      Insert(s[|s| - 1], Sort(s[..|s| - 1], le), le)
  }

  lemma {:induction false} InsertSorted<T(!new)>(x: T, s: seq<T>, le: (T, T) -> bool)
    requires TotalPreorder(le) && Sorted(s, le)
    ensures Sorted(Insert(x, s, le), le)
  {
    if s != [] && le(s[0], x) {
      InsertSorted(x, s[1..], le);
      var r := Insert(x, s[1..], le);
      forall k | 0 <= k < |r| ensures le(s[0], r[k]) {
        assert r[k] in multiset(r);
        if r[k] != x {
          assert r[k] in multiset(s[1..]);
          var j :| 0 <= j < |s[1..]| && s[1..][j] == r[k];
          assert s[j + 1] == r[k];
        }
      }
    }
  }

  /** The result of `sort` is a permutation of its input (see the ensures of
      Sort) whose elements are in comparator order. */
  lemma {:induction false} SortSorted<T(!new)>(s: seq<T>, le: (T, T) -> bool)
    requires TotalPreorder(le)
    ensures Sorted(Sort(s, le), le)
  {
    if s != [] {
      SortSorted(s[..|s| - 1], le);
      InsertSorted(s[|s| - 1], Sort(s[..|s| - 1], le), le);
    }
  }

  /** A sorted arrangement is unique when the order has no ties among the
      elements: two sorted permutations of one multiset are equal. */
  lemma {:induction false} SortedUnique<T(!new)>(a: seq<T>, b: seq<T>, le: (T, T) -> bool)
    requires multiset(a) == multiset(b)
    requires Sorted(a, le) && Sorted(b, le)
    requires NoTiesIn(multiset(a), le)
    ensures a == b
  {
    if a != [] {
      assert |b| == |a| by { assert |multiset(a)| == |multiset(b)|; }
      SortedHeads(a, b, le);
      var a', b' := a[1..], b[1..];
      MultisetTail(a);
      MultisetTail(b);
      SortedTail(a, le);
      SortedTail(b, le);
      NoTiesSub(multiset(a), multiset(a'), le);
      assert multiset(a') == multiset(b');
      SortedUnique(a', b', le);
      assert a == [a[0]] + a' && b == [b[0]] + b';
    }
  }

  lemma NoTiesSub<T(!new)>(m: multiset<T>, m': multiset<T>, le: (T, T) -> bool)
    requires m' <= m && NoTiesIn(m, le)
    ensures NoTiesIn(m', le)
  {
  }

  lemma MultisetTail<T>(s: seq<T>)
    requires s != []
    ensures multiset(s) == multiset{s[0]} + multiset(s[1..])
  {
    assert s == [s[0]] + s[1..];
  }

  lemma SortedTail<T>(s: seq<T>, le: (T, T) -> bool)
    requires s != [] && Sorted(s, le)
    ensures Sorted(s[1..], le)
  {
    var t := s[1..];
    forall i, j | 0 <= i < j < |t| ensures le(t[i], t[j]) {
      assert t[i] == s[i + 1] && t[j] == s[j + 1];
    }
  }

  lemma SortedHeads<T(!new)>(a: seq<T>, b: seq<T>, le: (T, T) -> bool)
    requires a != [] && multiset(a) == multiset(b)
    requires Sorted(a, le) && Sorted(b, le)
    requires NoTiesIn(multiset(a), le)
    ensures b != [] && a[0] == b[0]
  {
    var x := a[0];
    assert x in multiset(b);
    var y := b[0];
    assert y in multiset(a);
    var i :| 0 <= i < |b| && b[i] == x;
    var j :| 0 <= j < |a| && a[j] == y;
    if i > 0 && j > 0 {
      assert le(b[0], b[i]) && le(a[0], a[j]);
      assert x in multiset(a);
    }
  }

  /** `Filter` without its contract, for reasoning about the shape of the
      result alone. */
  function Kept<T>(s: seq<T>, p: T -> bool): seq<T> {
    if s == [] then [] else (if p(s[0]) then [s[0]] else []) + Kept(s[1..], p)
  }

  lemma {:induction false} FilterIsKept<T(!new)>(s: seq<T>, p: T -> bool)
    ensures Filter(s, p) == Kept(s, p)
  {
    if s != [] {
      FilterIsKept(s[1..], p);
    }
  }

  lemma {:induction false} KeptAppend<T>(a: seq<T>, b: seq<T>, p: T -> bool)
    ensures Kept(a + b, p) == Kept(a, p) + Kept(b, p)
  {
    if a == [] {
      assert a + b == b;
    } else {
      var t, h := a[1..], if p(a[0]) then [a[0]] else [];
      assert (a + b)[0] == a[0] && (a + b)[1..] == t + b;
      assert Kept(a + b, p) == h + Kept(t + b, p);
      KeptAppend(t, b, p);
      assert h + (Kept(t, p) + Kept(b, p)) == (h + Kept(t, p)) + Kept(b, p);
    }
  }

  /** Filtering a concatenation filters each part. */
  lemma FilterAppend<T(!new)>(a: seq<T>, b: seq<T>, p: T -> bool)
    ensures Filter(a + b, p) == Filter(a, p) + Filter(b, p)
  {
    FilterIsKept(a + b, p);
    FilterIsKept(a, p);
    FilterIsKept(b, p);
    KeptAppend(a, b, p);
  }

  /** The elements the order cannot tell apart from `k`. */
  function Tied<T>(le: (T, T) -> bool, k: T): T -> bool {
    x => le(x, k) && le(k, x)
  }

  /** Inserting into a sorted sequence puts the new element behind every
      element tied with it and in front of none. */
  lemma {:induction false} InsertBehindTies<T(!new)>(x: T, s: seq<T>, le: (T, T) -> bool, k: T)
    requires TotalPreorder(le) && Sorted(s, le)
    ensures Filter(Insert(x, s, le), Tied(le, k)) == Filter(s, Tied(le, k)) + Filter([x], Tied(le, k))
  {
    var q := Tied(le, k);
    if s == [] {
    } else if !le(s[0], x) {
      assert ([x] + s)[1..] == s;
      if q(x) {
        forall y | y in s ensures !q(y) {
          var j :| 0 <= j < |s| && s[j] == y;
          assert le(s[0], y) by {
            if j > 0 { assert le(s[0], s[j]); }
          }
        }
      }
    } else {
      SortedTail(s, le);
      InsertBehindTies(x, s[1..], le, k);
      var i := Insert(x, s[1..], le);
      assert ([s[0]] + i)[1..] == i;
      assert s == [s[0]] + s[1..];
    }
  }

  /** `sort` is stable: the elements tied with any `k` come out in the order
      they went in. */
  lemma {:induction false} SortStable<T(!new)>(s: seq<T>, le: (T, T) -> bool, k: T)
    requires TotalPreorder(le)
    ensures Filter(Sort(s, le), Tied(le, k)) == Filter(s, Tied(le, k))
  {
    if s != [] {
      var init, x, q := s[..|s| - 1], s[|s| - 1], Tied(le, k);
      assert s == init + [x];
      var sorted := Sort(init, le);
      assert Sort(s, le) == Insert(x, sorted, le);
      SortStable(init, le, k);
      SortSorted(init, le);
      InsertBehindTies(x, sorted, le, k);
      assert Filter(Sort(s, le), q) == Filter(init, q) + Filter([x], q);
      FilterAppend(init, [x], q);
    }
  }

  function Reverse<T>(s: seq<T>): (r: seq<T>)
    ensures |r| == |s| && forall k :: 0 <= k < |s| ==> r[k] == s[|s| - 1 - k]
    ensures multiset(r) == multiset(s)
  {
    if s == [] then []
    else
      assert s == [s[0]] + s[1..];
      Reverse(s[1..]) + [s[0]]
  }

  /** Sorting with the reversed comparator gives the reversed result when
      there are no ties. */
  lemma SortReversed<T(!new)>(s: seq<T>, le: (T, T) -> bool, ge: (T, T) -> bool)
    requires TotalPreorder(le) && TotalPreorder(ge)
    requires forall a, b :: ge(a, b) <==> le(b, a)
    requires NoTiesIn(multiset(s), le)
    ensures Sort(s, ge) == Reverse(Sort(s, le))
  {
    var up := Sort(s, le);
    SortSorted(s, le);
    SortSorted(s, ge);
    var down := Reverse(up);
    assert Sorted(down, ge) by {
      forall i, j | 0 <= i < j < |down| ensures ge(down[i], down[j]) {
        assert le(up[|up| - 1 - j], up[|up| - 1 - i]);
      }
    }
    SortedUnique(Sort(s, ge), down, ge);
  }

  /** `Array.from(new Set(s))`: each value once, at its first occurrence. */
  function Dedup<T(==,!new)>(s: seq<T>): (r: seq<T>)
    ensures forall x :: x in r <==> x in s
    ensures NoDuplicates(r)
  {
    if s == [] then []
    else
      var d := Dedup(s[..|s| - 1]);
      assert s == s[..|s| - 1] + [s[|s| - 1]];
      if s[|s| - 1] in d then d else d + [s[|s| - 1]]
  }

  lemma {:induction false} SortKeepsNoDuplicates<T>(s: seq<T>, le: (T, T) -> bool)
    requires NoDuplicates(s)
    ensures NoDuplicates(Sort(s, le))
  {
    if s != [] {
      var init, x := s[..|s| - 1], s[|s| - 1];
      SortKeepsNoDuplicates(init, le);
      assert x !in multiset(init);
      InsertKeepsNoDuplicates(x, Sort(init, le), le);
    }
  }

  lemma {:induction false} InsertKeepsNoDuplicates<T>(x: T, s: seq<T>, le: (T, T) -> bool)
    requires NoDuplicates(s) && x !in s
    ensures NoDuplicates(Insert(x, s, le))
  {
    if s != [] && le(s[0], x) {
      InsertKeepsNoDuplicates(x, s[1..], le);
      var r := Insert(x, s[1..], le);
      forall k | 0 <= k < |r| ensures r[k] != s[0] {
        assert r[k] in multiset(r);
        assert s[0] !in multiset(s[1..]);
      }
    }
  }

  /** `Array.from(new Set(s)).sort(compare)` */
  function SortDistinct<T(==,!new)>(s: seq<T>, le: (T, T) -> bool): seq<T>
  {
    Sort(Dedup(s), le)
  }

  /** The sorted distinct values hold each value of the input exactly once, in
      strictly increasing order when the order has no ties. */
  lemma SortDistinctStrict<T(!new)>(s: seq<T>, le: (T, T) -> bool)
    requires TotalPreorder(le)
    requires forall a, b :: le(a, b) && le(b, a) ==> a == b
    ensures forall x :: x in SortDistinct(s, le) <==> x in s
    ensures NoDuplicates(SortDistinct(s, le))
    ensures forall i, j :: 0 <= i < j < |SortDistinct(s, le)| ==>
              le(SortDistinct(s, le)[i], SortDistinct(s, le)[j])
              && !le(SortDistinct(s, le)[j], SortDistinct(s, le)[i])
  {
    var d := Dedup(s);
    var r := Sort(d, le);
    forall x ensures x in r <==> x in s {
      assert x in r <==> x in multiset(r);
    }
    SortSorted(d, le);
    SortKeepsNoDuplicates(d, le);
  }

  /** The default order of `sort()` on strings: character by character, a
      proper prefix first. */
  predicate StringLe(a: string, b: string) {
    if a == [] then true
    else if b == [] then false
    else if a[0] != b[0] then a[0] < b[0]
    else StringLe(a[1..], b[1..])
  }

  lemma {:induction false} StringLeTotal(a: string, b: string)
    ensures StringLe(a, b) || StringLe(b, a)
  {
    if a != [] && b != [] && a[0] == b[0] {
      StringLeTotal(a[1..], b[1..]);
    }
  }

  lemma {:induction false} StringLeTransitive(a: string, b: string, c: string)
    requires StringLe(a, b) && StringLe(b, c)
    ensures StringLe(a, c)
  {
    if a != [] && b != [] && c != [] && a[0] == b[0] == c[0] {
      StringLeTransitive(a[1..], b[1..], c[1..]);
    }
  }

  lemma {:induction false} StringLeAntisymmetric(a: string, b: string)
    requires StringLe(a, b) && StringLe(b, a)
    ensures a == b
  {
    if a != [] && b != [] {
      StringLeAntisymmetric(a[1..], b[1..]);
      assert a == [a[0]] + a[1..] && b == [b[0]] + b[1..];
    }
  }

  lemma StringOrder()
    ensures TotalPreorder(StringLe)
    ensures forall a, b :: StringLe(a, b) && StringLe(b, a) ==> a == b
  {
    forall a, b ensures StringLe(a, b) || StringLe(b, a) {
      StringLeTotal(a, b);
    }
    forall a, b, c | StringLe(a, b) && StringLe(b, c) ensures StringLe(a, c) {
      StringLeTransitive(a, b, c);
    }
    forall a, b | StringLe(a, b) && StringLe(b, a) ensures a == b {
      StringLeAntisymmetric(a, b);
    }
  }

  /** Position `i` of `Array.prototype.slice` resolved against length `n`:
      a negative index counts from the end, and the result is clamped to
      the bounds. */
  function SliceIndex(i: int, n: nat): (r: nat)
    ensures r <= n
    ensures 0 <= i <= n ==> r == i
    ensures i > n ==> r == n
  {
    if i < 0 then (if n + i < 0 then 0 else n + i)
    else if i > n then n
    else i
  }

  function Min(a: int, b: int): int {
    if a <= b then a else b
  }

  /** `s.slice(start, end)` */
  function Slice<T>(s: seq<T>, start: int, end: int): (r: seq<T>)
    ensures forall x :: x in r ==> x in s
    ensures start <= end ==> |r| <= end - start
    ensures 0 <= start <= end ==> r == s[Min(start, |s|)..Min(end, |s|)]
  {
    var a, b := SliceIndex(start, |s|), SliceIndex(end, |s|);
    if a < b then s[a..b] else []
  }

  /** The strings of `s` are in strictly increasing `sort()` order. */
  predicate StrictlyAscending(s: seq<string>) {
    forall i, j :: 0 <= i < j < |s| ==> StringLe(s[i], s[j]) && s[i] != s[j]
  }
}
