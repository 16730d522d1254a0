/**
 * The JavaScript array idioms the assistant is built from: `filter`, `slice(0, n)`,
 * the "keep the first of each key" filter `filter((x, i, self) => i === self.findIndex(...))`
 * (and `[...new Set(xs)]`, its special case), and the stable `Array.prototype.sort`
 * with a descending numeric comparator.
 */
module Seqs {

  /** `s.filter(p)` */
  function Filter<T>(s: seq<T>, p: T -> bool): (r: seq<T>)
    ensures |r| <= |s|
    ensures forall k :: 0 <= k < |r| ==> p(r[k])
  {
    if s == [] then [] else (if p(s[0]) then [s[0]] else []) + Filter(s[1..], p)
  }

  /** Exactly the elements that satisfy `p` are kept. */
  lemma {:induction false} FilterMembers<T>(s: seq<T>, p: T -> bool, x: T)
    ensures x in Filter(s, p) <==> x in s && p(x)
  {
    if s != [] {
      FilterMembers(s[1..], p, x);
      assert x in s <==> x == s[0] || x in s[1..];
    }
  }

  lemma {:induction false} FilterConcat<T>(a: seq<T>, b: seq<T>, p: T -> bool)
    ensures Filter(a + b, p) == Filter(a, p) + Filter(b, p)
  {
    if a == [] {
      assert a + b == b;
    } else {
      var t, h := a[1..], if p(a[0]) then [a[0]] else [];
      FilterConcat(t, b, p);
      assert (a + b)[0] == a[0];
      assert (a + b)[1..] == t + b;
      assert Filter(a + b, p) == h + Filter(t + b, p);
      assert Filter(a, p) == h + Filter(t, p);
      assert h + (Filter(t, p) + Filter(b, p)) == (h + Filter(t, p)) + Filter(b, p);
    }
  }

  lemma FilterSnoc<T>(a: seq<T>, x: T, p: T -> bool)
    ensures Filter(a + [x], p) == Filter(a, p) + (if p(x) then [x] else [])
  {
    FilterConcat(a, [x], p);
  }

  /** A filter that keeps everything is the identity. */
  lemma {:induction false} FilterAll<T>(s: seq<T>, p: T -> bool)
    requires forall k :: 0 <= k < |s| ==> p(s[k])
    ensures Filter(s, p) == s
  {
    if s != [] {
      FilterAll(s[1..], p);
    }
  }

  /** A filter that keeps nothing is empty. */
  lemma {:induction false} FilterNone<T>(s: seq<T>, p: T -> bool)
    requires forall k :: 0 <= k < |s| ==> !p(s[k])
    ensures Filter(s, p) == []
  {
    if s != [] {
      FilterNone(s[1..], p);
    }
  }

  /** Filtering a list without duplicates leaves one without duplicates. */
  lemma {:induction false} FilterDistinct<T>(s: seq<T>, p: T -> bool)
    requires forall i, j :: 0 <= i < j < |s| ==> s[i] != s[j]
    ensures forall i, j :: 0 <= i < j < |Filter(s, p)| ==> Filter(s, p)[i] != Filter(s, p)[j]
  {
    if s != [] {
      FilterDistinct(s[1..], p);
      FilterMembers(s[1..], p, s[0]);
      assert s[0] !in s[1..];
    }
  }

  /** `a` is an initial segment of `b`. */
  predicate IsPrefix<T(==)>(a: seq<T>, b: seq<T>) {
    |a| <= |b| && b[..|a|] == a
  }

  /** The kept elements of a prefix are a prefix of the kept elements. */
  lemma FilterOfPrefix<T>(s: seq<T>, n: nat, p: T -> bool)
    requires n <= |s|
    ensures IsPrefix(Filter(s[..n], p), Filter(s, p))
  {
    assert s == s[..n] + s[n..];
    FilterConcat(s[..n], s[n..], p);
  }

  /** `r` is obtained from `s` by deleting elements; what is left keeps its order. */
  predicate IsSubseq<T(==)>(r: seq<T>, s: seq<T>)
    decreases |s|
  {
    r == [] || (s != [] && ((r[0] == s[0] && IsSubseq(r[1..], s[1..])) || IsSubseq(r, s[1..])))
  }

  lemma {:induction false} FilterIsSubseq<T>(s: seq<T>, p: T -> bool)
    ensures IsSubseq(Filter(s, p), s)
  {
    if s != [] {
      FilterIsSubseq(s[1..], p);
      var r := Filter(s, p);
      if p(s[0]) {
        assert r[0] == s[0];
        assert r[1..] == Filter(s[1..], p);
      } else {
        assert r == Filter(s[1..], p);
      }
    }
  }

  lemma {:induction false} SubseqRefl<T>(s: seq<T>)
    ensures IsSubseq(s, s)
  {
    if s != [] {
      SubseqRefl(s[1..]);
    }
  }

  lemma {:induction false} SubseqTrans<T>(a: seq<T>, b: seq<T>, c: seq<T>)
    requires IsSubseq(a, b) && IsSubseq(b, c)
    ensures IsSubseq(a, c)
    decreases |c|
  {
    if a != [] {
      assert b != [] && c != [];
      if b[0] == c[0] && IsSubseq(b[1..], c[1..]) {
        if a[0] == b[0] && IsSubseq(a[1..], b[1..]) {
          SubseqTrans(a[1..], b[1..], c[1..]);
        } else {
          SubseqTrans(a, b[1..], c[1..]);
        }
      } else {
        SubseqTrans(a, b, c[1..]);
      }
    }
  }

  /** Deleting one more element at the end of the host keeps a subsequence one. */
  lemma {:induction false} SubseqSnocRight<T>(r: seq<T>, s: seq<T>, x: T)
    requires IsSubseq(r, s)
    ensures IsSubseq(r, s + [x])
    decreases |s|
  {
    if r != [] {
      assert (s + [x])[1..] == s[1..] + [x];
      if r[0] == s[0] && IsSubseq(r[1..], s[1..]) {
        SubseqSnocRight(r[1..], s[1..], x);
      } else {
        SubseqSnocRight(r, s[1..], x);
      }
    }
  }

  /** The same element appended to both sides keeps a subsequence one. */
  lemma {:induction false} SubseqSnocBoth<T>(r: seq<T>, s: seq<T>, x: T)
    requires IsSubseq(r, s)
    ensures IsSubseq(r + [x], s + [x])
    decreases |s|
  {
    if r == [] {
      if s == [] {
        assert IsSubseq<T>([], []);
      } else {
        assert r + [x] == [x];
        SubseqSnocBothEmpty(s, x);
      }
    } else {
      assert (s + [x])[1..] == s[1..] + [x];
      assert (r + [x])[1..] == r[1..] + [x];
      if r[0] == s[0] && IsSubseq(r[1..], s[1..]) {
        SubseqSnocBoth(r[1..], s[1..], x);
      } else {
        SubseqSnocBoth(r, s[1..], x);
      }
    }
  }

  lemma SubseqEmptyLeft<T>(s: seq<T>)
    ensures IsSubseq([], s)
  {
  }

  lemma {:induction false} SubseqSnocBothEmpty<T>(s: seq<T>, x: T)
    ensures IsSubseq([x], s + [x])
    decreases |s|
  {
    if s == [] {
      assert IsSubseq<T>([], []);
    } else {
      assert (s + [x])[1..] == s[1..] + [x];
      SubseqSnocBothEmpty(s[1..], x);
    }
  }

  /** A subsequence takes its elements from its host. */
  lemma {:induction false} SubseqMembers<T>(r: seq<T>, s: seq<T>)
    requires IsSubseq(r, s)
    ensures forall x :: x in r ==> x in s
    decreases |s|
  {
    if r != [] {
      if r[0] == s[0] && IsSubseq(r[1..], s[1..]) {
        SubseqMembers(r[1..], s[1..]);
        assert forall x :: x in r ==> x == r[0] || x in r[1..];
      } else {
        SubseqMembers(r, s[1..]);
      }
    }
  }

  /** Applying a function elementwise to both keeps the relation. */
  lemma {:induction false} SubseqMap<T, U>(r: seq<T>, s: seq<T>, f: T -> U)
    requires IsSubseq(r, s)
    ensures IsSubseq(Map(r, f), Map(s, f))
    decreases |s|
  {
    if r != [] {
      assert Map(s, f)[1..] == Map(s[1..], f);
      assert Map(r, f)[1..] == Map(r[1..], f);
      if r[0] == s[0] && IsSubseq(r[1..], s[1..]) {
        SubseqMap(r[1..], s[1..], f);
      } else {
        SubseqMap(r, s[1..], f);
      }
    }
  }

  /** `s.map(f)` */
  function Map<T, U>(s: seq<T>, f: T -> U): (r: seq<U>)
    ensures |r| == |s| && forall k :: 0 <= k < |s| ==> r[k] == f(s[k])
  {
    seq(|s|, k requires 0 <= k < |s| => f(s[k]))
  }

  /** `s.filter(p).map(f)` holds exactly the images of the elements that satisfy `p`. */
  lemma FilterMapMembers<T, U>(s: seq<T>, p: T -> bool, f: T -> U, x: U)
    ensures x in Map(Filter(s, p), f) <==> exists y :: y in s && p(y) && f(y) == x
  {
    var hits := Filter(s, p);
    var m := Map(hits, f);
    if x in m {
      var k :| 0 <= k < |m| && m[k] == x;
      FilterMembers(s, p, hits[k]);
    }
    if exists y :: y in s && p(y) && f(y) == x {
      var y :| y in s && p(y) && f(y) == x;
      FilterMembers(s, p, y);
      var k :| 0 <= k < |hits| && hits[k] == y;
      assert m[k] == x;
    }
  }

  lemma MapConcat<T, U>(a: seq<T>, b: seq<T>, f: T -> U)
    ensures Map(a + b, f) == Map(a, f) + Map(b, f)
  {
  }

  lemma MapPair<T, U>(a: T, b: T, f: T -> U)
    ensures Map([a, b], f) == [f(a), f(b)]
  {
  }

  /** The results of `f` on each element in turn, concatenated: a loop that pushes per item. */
  function FlatMap<T, U>(s: seq<T>, f: T -> seq<U>): seq<U> {
    if s == [] then [] else FlatMap(s[..|s| - 1], f) + f(s[|s| - 1])
  }

  lemma FlatMapSnoc<T, U>(s: seq<T>, p: nat, f: T -> seq<U>)
    requires p < |s|
    ensures FlatMap(s[..p + 1], f) == FlatMap(s[..p], f) + f(s[p])
  {
    assert s[..p + 1][..p] == s[..p];
  }

  /** Something is produced iff some element produced it. */
  lemma {:induction false} FlatMapMembers<T, U>(s: seq<T>, f: T -> seq<U>, x: U)
    ensures x in FlatMap(s, f) <==> exists k :: 0 <= k < |s| && x in f(s[k])
    decreases |s|
  {
    if s != [] {
      var n := |s| - 1;
      var init := s[..n];
      FlatMapMembers(init, f, x);
      assert forall k :: 0 <= k < n ==> init[k] == s[k];
    }
  }

  /** What holds of every produced element of every item holds of the result. */
  lemma {:induction false} FlatMapAll<T, U>(s: seq<T>, f: T -> seq<U>, p: U -> bool)
    requires forall k, i :: 0 <= k < |s| && 0 <= i < |f(s[k])| ==> p(f(s[k])[i])
    ensures forall i :: 0 <= i < |FlatMap(s, f)| ==> p(FlatMap(s, f)[i])
    decreases |s|
  {
    if s != [] {
      var n := |s| - 1;
      var init := s[..n];
      assert forall k :: 0 <= k < n ==> init[k] == s[k];
      FlatMapAll(init, f, p);
      var r := FlatMap(s, f);
      assert r == FlatMap(init, f) + f(s[n]);
      forall i | 0 <= i < |r| ensures p(r[i]) {
        if i >= |FlatMap(init, f)| {
          assert r[i] == f(s[n])[i - |FlatMap(init, f)|];
        }
      }
    }
  }

  /** `s.slice(0, n)` */
  function Take<T>(s: seq<T>, n: nat): (r: seq<T>)
    ensures |r| == if |s| <= n then |s| else n
    ensures r == s[..|r|]
  {
    if |s| <= n then s else s[..n]
  }

  lemma {:induction false} TakeIsSubseq<T>(s: seq<T>, n: nat)
    ensures IsSubseq(Take(s, n), s)
    decreases |s|
  {
    if |s| > n {
      if n == 0 {
      } else {
        assert Take(s, n)[1..] == Take(s[1..], n - 1);
        TakeIsSubseq(s[1..], n - 1);
      }
    } else {
      SubseqRefl(s);
    }
  }

  /** Some element of `s` has key `k`. */
  predicate KeyOccurs<T, K(==)>(s: seq<T>, key: T -> K, k: K) {
    exists i :: 0 <= i < |s| && key(s[i]) == k
  }

  /**
   * `s.filter((x, i, self) => i === self.findIndex(y => key(y) === key(x)))`:
   * an element is kept when no earlier element has its key.
   */
  function UniqueBy<T, K(==)>(s: seq<T>, key: T -> K): (r: seq<T>)
    ensures |r| <= |s|
    decreases |s|
  {
    if s == [] then []
    else
      var init := s[..|s| - 1];
      UniqueBy(init, key) + (if KeyOccurs(init, key, key(s[|s| - 1])) then [] else [s[|s| - 1]])
  }

  lemma UniqueBySnoc<T, K>(s: seq<T>, x: T, key: T -> K)
    ensures UniqueBy(s + [x], key) == UniqueBy(s, key) + (if KeyOccurs(s, key, key(x)) then [] else [x])
  {
    assert (s + [x])[..|s + [x]| - 1] == s;
  }

  /** No two kept elements share a key. */
  lemma {:induction false} UniqueByDistinct<T, K>(s: seq<T>, key: T -> K)
    ensures forall i, j :: 0 <= i < j < |UniqueBy(s, key)| ==> key(UniqueBy(s, key)[i]) != key(UniqueBy(s, key)[j])
    decreases |s|
  {
    if s != [] {
      var init := s[..|s| - 1];
      var x := s[|s| - 1];
      UniqueByDistinct(init, key);
      UniqueByFrom(init, key);
      var u := UniqueBy(init, key);
      if !KeyOccurs(init, key, key(x)) {
        var r := u + [x];
        forall i, j | 0 <= i < j < |r| ensures key(r[i]) != key(r[j]) {
          if j == |u| {
            assert KeyOccurs(init, key, key(u[i]));
          }
        }
      }
    }
  }

  /** Every kept element's key occurs in the input (it is one of the input's elements). */
  lemma {:induction false} UniqueByFrom<T, K>(s: seq<T>, key: T -> K)
    ensures forall j :: 0 <= j < |UniqueBy(s, key)| ==> KeyOccurs(s, key, key(UniqueBy(s, key)[j]))
    decreases |s|
  {
    if s != [] {
      var init := s[..|s| - 1];
      UniqueByFrom(init, key);
      var u := UniqueBy(init, key);
      var r := UniqueBy(s, key);
      forall j | 0 <= j < |r| ensures KeyOccurs(s, key, key(r[j])) {
        if j < |u| {
          assert r[j] == u[j];
          var i :| 0 <= i < |init| && key(init[i]) == key(u[j]);
          assert s[i] == init[i];
        } else {
          assert r[j] == s[|s| - 1];
        }
      }
    }
  }

  /** Nothing is lost: every key of the input is the key of some kept element. */
  lemma {:induction false} UniqueByCovers<T, K>(s: seq<T>, key: T -> K)
    ensures forall i :: 0 <= i < |s| ==> KeyOccurs(UniqueBy(s, key), key, key(s[i]))
    decreases |s|
  {
    if s != [] {
      var init := s[..|s| - 1];
      var x := s[|s| - 1];
      UniqueByCovers(init, key);
      var u := UniqueBy(init, key);
      var r := UniqueBy(s, key);
      assert forall j :: 0 <= j < |u| ==> r[j] == u[j];
      forall i | 0 <= i < |s| ensures KeyOccurs(r, key, key(s[i])) {
        if i < |s| - 1 {
          assert key(s[i]) == key(init[i]);
          var j :| 0 <= j < |u| && key(u[j]) == key(init[i]);
          assert r[j] == u[j];
        } else if KeyOccurs(init, key, key(x)) {
          var k :| 0 <= k < |init| && key(init[k]) == key(x);
          var j :| 0 <= j < |u| && key(u[j]) == key(init[k]);
          assert r[j] == u[j];
        } else {
          assert r[|u|] == x;
        }
      }
    }
  }

  /** The kept elements appear in the input in the same relative order. */
  lemma {:induction false} UniqueByIsSubseq<T, K>(s: seq<T>, key: T -> K)
    ensures IsSubseq(UniqueBy(s, key), s)
    decreases |s|
  {
    if s != [] {
      var init := s[..|s| - 1];
      assert s == init + [s[|s| - 1]];
      UniqueByIsSubseq(init, key);
      UniqueBySnoc(init, s[|s| - 1], key);
      if KeyOccurs(init, key, key(s[|s| - 1])) {
        assert UniqueBy(s, key) == UniqueBy(init, key) + [] == UniqueBy(init, key);
        SubseqSnocRight(UniqueBy(init, key), init, s[|s| - 1]);
      } else {
        SubseqSnocBoth(UniqueBy(init, key), init, s[|s| - 1]);
      }
    }
  }

  /** Each kept element is, in the input, the first one with its key. */
  lemma {:induction false} UniqueByKeepsFirst<T, K>(s: seq<T>, key: T -> K, j: nat)
    requires j < |UniqueBy(s, key)|
    ensures exists i :: 0 <= i < |s| && s[i] == UniqueBy(s, key)[j] && !KeyOccurs(s[..i], key, key(s[i]))
    decreases |s|
  {
    var init := s[..|s| - 1];
    var u := UniqueBy(init, key);
    if j < |u| {
      UniqueByKeepsFirst(init, key, j);
      var i :| 0 <= i < |init| && init[i] == u[j] && !KeyOccurs(init[..i], key, key(init[i]));
      assert s[..i] == init[..i];
      assert s[i] == init[i];
      assert UniqueBy(s, key)[j] == u[j];
    } else {
      var i := |s| - 1;
      assert s[..i] == init;
    }
  }

  /** Keys are unique already: nothing is dropped. */
  lemma {:induction false} UniqueByOfDistinct<T, K>(s: seq<T>, key: T -> K)
    requires forall i, j :: 0 <= i < j < |s| ==> key(s[i]) != key(s[j])
    ensures UniqueBy(s, key) == s
    decreases |s|
  {
    if s != [] {
      var init := s[..|s| - 1];
      UniqueByOfDistinct(init, key);
      assert !KeyOccurs(init, key, key(s[|s| - 1]));
    }
  }

  /** The identity key, for `[...new Set(xs)]`. */
  function Id<T>(x: T): T { x }

  /**
   * `[...new Set(xs)]`: the first occurrence of every value, in order. UniqueSpec
   * gives its contract: no duplicates, nothing lost, order kept.
   */
  function Unique<T(==)>(s: seq<T>): seq<T> {
    UniqueBy(s, Id)
  }

  ghost predicate NoDuplicates<T>(s: seq<T>) {
    forall i, j :: 0 <= i < j < |s| ==> s[i] != s[j]
  }

  lemma UniqueSpec<T>(s: seq<T>)
    ensures NoDuplicates(Unique(s))
    ensures forall x :: x in Unique(s) <==> x in s
    ensures IsSubseq(Unique(s), s)
  {
    UniqueByIsSubseq(s, Id);
    UniqueByDistinct(s, Id);
    UniqueByCovers(s, Id);
    UniqueByFrom(s, Id);
    var u := Unique(s);
    forall x | x in s ensures x in u {
      var i :| 0 <= i < |s| && s[i] == x;
      assert KeyOccurs(u, Id, Id(s[i]));
    }
    forall x | x in u ensures x in s {
      var i :| 0 <= i < |u| && u[i] == x;
      assert KeyOccurs(s, Id, Id(u[i]));
    }
  }

  /** The predicate "not an element of `a`". */
  function NotIn<T(==)>(a: seq<T>): T -> bool {
    x => x !in a
  }

  lemma KeyOccursId<T>(s: seq<T>, y: T)
    ensures KeyOccurs(s, Id, Id(y)) <==> y in s
  {
    if y in s {
      var i :| 0 <= i < |s| && s[i] == y;
      assert Id(s[i]) == Id(y);
    }
  }

  /**
   * First occurrence wins across a concatenation: the first part's distinct values,
   * then those of the second part's distinct values that the first part does not hold.
   */
  lemma {:induction false} UniqueConcat<T>(a: seq<T>, b: seq<T>)
    ensures Unique(a + b) == Unique(a) + Filter(Unique(b), NotIn(a))
    decreases |b|
  {
    if b == [] {
      assert a + b == a;
    } else {
      var b', y := b[..|b| - 1], b[|b| - 1];
      var tail: seq<T> := if y in b' then [] else [y];
      calc {
        Unique(a + b);
        == { assert a + b == (a + b') + [y]; UniqueSnoc(a + b', y); }
        Unique(a + b') + (if y in a + b' then [] else [y]);
        == { UniqueConcat(a, b'); }
        Unique(a) + Filter(Unique(b'), NotIn(a)) + (if y in a + b' then [] else [y]);
        == { FilterConcat(Unique(b'), tail, NotIn(a)); }
        Unique(a) + Filter(Unique(b') + tail, NotIn(a));
        == { assert b == b' + [y]; UniqueSnoc(b', y); }
        Unique(a) + Filter(Unique(b), NotIn(a));
      }
    }
  }

  lemma UniqueSnoc<T>(s: seq<T>, y: T)
    ensures Unique(s + [y]) == Unique(s) + (if y in s then [] else [y])
  {
    UniqueBySnoc(s, y, Id);
    KeyOccursId(s, y);
  }

  /** Non-increasing by `key`. */
  predicate SortedDesc<T>(s: seq<T>, key: T -> int) {
    forall i, j :: 0 <= i < j < |s| ==> key(s[i]) >= key(s[j])
  }

  /** Insert `x` in front of the first element whose key is not larger. */
  function InsertDesc<T>(x: T, s: seq<T>, key: T -> int): (r: seq<T>)
    ensures |r| == |s| + 1
  {
    if s == [] || key(x) >= key(s[0]) then [x] + s
    else [s[0]] + InsertDesc(x, s[1..], key)
  }

  lemma {:induction false} InsertDescPerm<T>(x: T, s: seq<T>, key: T -> int)
    ensures multiset(InsertDesc(x, s, key)) == multiset(s) + multiset{x}
  {
    if !(s == [] || key(x) >= key(s[0])) {
      InsertDescPerm(x, s[1..], key);
      assert s == [s[0]] + s[1..];
    }
  }

  /** Every key in `s` is at most `b`. */
  predicate KeysAtMost<T>(s: seq<T>, key: T -> int, b: int) {
    forall k :: 0 <= k < |s| ==> key(s[k]) <= b
  }

  lemma {:induction false} InsertDescAtMost<T>(x: T, s: seq<T>, key: T -> int, b: int)
    requires key(x) <= b && KeysAtMost(s, key, b)
    ensures KeysAtMost(InsertDesc(x, s, key), key, b)
  {
    if !(s == [] || key(x) >= key(s[0])) {
      InsertDescAtMost(x, s[1..], key, b);
      var r := InsertDesc(x, s, key);
      forall k | 0 <= k < |r| ensures key(r[k]) <= b {
        if k > 0 {
          assert r[k] == InsertDesc(x, s[1..], key)[k - 1];
        }
      }
    }
  }

  lemma {:induction false} InsertDescSorted<T>(x: T, s: seq<T>, key: T -> int)
    requires SortedDesc(s, key)
    ensures SortedDesc(InsertDesc(x, s, key), key)
  {
    if !(s == [] || key(x) >= key(s[0])) {
      InsertDescSorted(x, s[1..], key);
      assert KeysAtMost(s[1..], key, key(s[0])) by {
        forall k | 0 <= k < |s[1..]| ensures key(s[1..][k]) <= key(s[0]) {
          assert s[1..][k] == s[k + 1];
        }
      }
      InsertDescAtMost(x, s[1..], key, key(s[0]));
      var rest := InsertDesc(x, s[1..], key);
      var r := [s[0]] + rest;
      forall i, j | 0 <= i < j < |r| ensures key(r[i]) >= key(r[j]) {
        assert r[j] == rest[j - 1];
        if i > 0 {
          assert r[i] == rest[i - 1];
        }
      }
    }
  }

  /**
   * `s.sort((a, b) => key(b) - key(a))` with the stable sort of ECMAScript 2019:
   * insertion sort that puts an element before every later one of equal key.
   */
  function SortDesc<T>(s: seq<T>, key: T -> int): (r: seq<T>)
    ensures |r| == |s|
  {
    if s == [] then [] else InsertDesc(s[0], SortDesc(s[1..], key), key)
  }

  /** The result is ordered and a permutation of the input. */
  lemma {:induction false} SortDescSpec<T>(s: seq<T>, key: T -> int)
    ensures SortedDesc(SortDesc(s, key), key)
    ensures multiset(SortDesc(s, key)) == multiset(s)
  {
    if s != [] {
      SortDescSpec(s[1..], key);
      InsertDescSorted(s[0], SortDesc(s[1..], key), key);
      InsertDescPerm(s[0], SortDesc(s[1..], key), key);
      assert s == [s[0]] + s[1..];
    }
  }

  /** The predicate "has key `v`". */
  function KeyIs<T>(key: T -> int, v: int): T -> bool {
    x => key(x) == v
  }

  lemma {:induction false} InsertDescStable<T>(x: T, s: seq<T>, key: T -> int, v: int)
    ensures Filter(InsertDesc(x, s, key), KeyIs(key, v)) == Filter([x] + s, KeyIs(key, v))
  {
    var p := KeyIs(key, v);
    if !(s == [] || key(x) >= key(s[0])) {
      var y, t := s[0], s[1..];
      InsertDescStable(x, t, key, v);
      var rest := InsertDesc(x, t, key);
      var hx, hy := if p(x) then [x] else [], if p(y) then [y] else [];
      assert InsertDesc(x, s, key) == [y] + rest;
      assert ([y] + rest)[1..] == rest;
      assert ([x] + t)[1..] == t;
      assert ([x] + s)[1..] == s;
      assert Filter([y] + rest, p) == hy + Filter(rest, p);
      assert Filter([x] + t, p) == hx + Filter(t, p);
      assert Filter([x] + s, p) == hx + Filter(s, p);
      assert Filter(s, p) == hy + Filter(t, p);
      if p(x) {
        assert !p(y);
      }
      assert hy + hx == hx + hy;
    }
  }

  /** Stability: the elements of any one key keep their original relative order. */
  lemma {:induction false} SortDescStable<T>(s: seq<T>, key: T -> int, v: int)
    ensures Filter(SortDesc(s, key), KeyIs(key, v)) == Filter(s, KeyIs(key, v))
  {
    if s != [] {
      var sorted := SortDesc(s[1..], key);
      SortDescStable(s[1..], key, v);
      InsertDescStable(s[0], sorted, key, v);
      assert ([s[0]] + sorted)[1..] == sorted;
      assert s[1..] == ([s[0]] + s[1..])[1..];
    }
  }

  /** An input already in order is left as it is. */
  lemma {:induction false} SortDescOfSorted<T>(s: seq<T>, key: T -> int)
    requires SortedDesc(s, key)
    ensures SortDesc(s, key) == s
  {
    if s != [] {
      SortDescOfSorted(s[1..], key);
    }
  }

  /** Cutting a key-sorted sequence after `n`: nothing after the cut has a larger key than anything before it. */
  lemma SortedCut<T>(s: seq<T>, n: nat, key: T -> int)
    requires SortedDesc(s, key) && n <= |s|
    ensures forall x, k :: x in multiset(s[n..]) && 0 <= k < n ==> key(x) <= key(s[k])
  {
    forall x, k | x in multiset(s[n..]) && 0 <= k < n ensures key(x) <= key(s[k]) {
      var i :| 0 <= i < |s[n..]| && s[n..][i] == x;
      assert s[n + i] == x;
    }
  }

  /** The first `n` after a descending sort are a top `n` of the input. */
  lemma TopOfSorted<T>(s: seq<T>, n: nat, key: T -> int)
    ensures var r := Take(SortDesc(s, key), n);
      multiset(r) <= multiset(s)
      && forall x, k :: x in multiset(s) - multiset(r) && 0 <= k < |r| ==> key(x) <= key(r[k])
  {
    var sorted := SortDesc(s, key);
    var r := Take(sorted, n);
    SortDescSpec(s, key);
    assert sorted == r + sorted[|r|..];
    assert multiset(s) == multiset(r) + multiset(sorted[|r|..]);
    SortedCut(sorted, |r|, key);
  }
}
