/**
 * The `Array.prototype` operations the pages apply to their lists:
 * `filter`, `find`, `slice(0, n)`, `reduce` as a sum, and reversal.
 * Each is a pure function on `seq`, so "the original array is not
 * mutated" holds by construction.
 */
module Seqs {
  import opened Wrappers

  // ---------------------------------------------------------------- filter

  /** The elements of `s` from index `k` on that satisfy `p`, in their order. */
  function FilterFrom<T>(s: seq<T>, p: T -> bool, k: nat): (r: seq<T>)
    requires k <= |s|
    ensures |r| <= |s| - k
    ensures forall i :: 0 <= i < |r| ==> p(r[i]) && r[i] in s[k..]
    ensures forall i :: k <= i < |s| && p(s[i]) ==> s[i] in r
    decreases |s| - k
  {
    if k == |s| then []
    else
      assert s[k..] == [s[k]] + s[k + 1..];
      if p(s[k]) then [s[k]] + FilterFrom(s, p, k + 1) else FilterFrom(s, p, k + 1)
  }

  /** `s.filter(p)`. */
  function Filter<T>(s: seq<T>, p: T -> bool): (r: seq<T>)
    ensures |r| <= |s|
    ensures forall i :: 0 <= i < |r| ==> p(r[i]) && r[i] in s
    ensures forall i :: 0 <= i < |s| && p(s[i]) ==> s[i] in r
  {
    assert s[0..] == s;
    FilterFrom(s, p, 0)
  }

  lemma {:induction false} FilterFromShift<T>(s: seq<T>, p: T -> bool, j: nat, k: nat)
    requires j <= k <= |s|
    ensures FilterFrom(s, p, k) == FilterFrom(s[j..], p, k - j)
    decreases |s| - k
  {
    if k < |s| {
      assert s[j..][k - j] == s[k];
      FilterFromShift(s, p, j, k + 1);
    }
  }

  /** Filtering a non-empty sequence looks at its head, then filters the rest. */
  lemma FilterCons<T>(s: seq<T>, p: T -> bool)
    requires s != []
    ensures Filter(s, p) == (if p(s[0]) then [s[0]] else []) + Filter(s[1..], p)
  {
    FilterFromShift(s, p, 1, 1);
  }

  lemma FilterSingleton<T>(x: T, p: T -> bool)
    ensures Filter([x], p) == if p(x) then [x] else []
  {
    FilterCons([x], p);
  }

  /** Filtering distributes over concatenation. */
  lemma {:induction false} FilterConcat<T>(a: seq<T>, b: seq<T>, p: T -> bool)
    ensures Filter(a + b, p) == Filter(a, p) + Filter(b, p)
    decreases |a|
  {
    if a == [] {
      assert a + b == b;
    } else {
      var head := if p(a[0]) then [a[0]] else [];
      calc {
        Filter(a + b, p);
        { FilterCons(a + b, p); assert (a + b)[0] == a[0] && (a + b)[1..] == a[1..] + b; }
        head + Filter(a[1..] + b, p);
        { FilterConcat(a[1..], b, p); }
        head + (Filter(a[1..], p) + Filter(b, p));
        { FilterCons(a, p); }
        Filter(a, p) + Filter(b, p);
      }
    }
  }

  /** Only the values of the predicate on the elements of `s` matter. */
  lemma {:induction false} FilterExt<T>(s: seq<T>, p: T -> bool, q: T -> bool)
    requires forall i :: 0 <= i < |s| ==> p(s[i]) == q(s[i])
    ensures Filter(s, p) == Filter(s, q)
    decreases |s|
  {
    if s != [] {
      FilterCons(s, p);
      FilterCons(s, q);
      FilterExt(s[1..], p, q);
    }
  }

  /** A predicate true of every element keeps the whole sequence. */
  lemma {:induction false} FilterAll<T>(s: seq<T>, p: T -> bool)
    requires forall i :: 0 <= i < |s| ==> p(s[i])
    ensures Filter(s, p) == s
    decreases |s|
  {
    if s != [] {
      FilterCons(s, p);
      FilterAll(s[1..], p);
    }
  }

  /** Filtering twice by the same predicate is filtering once. */
  lemma {:induction false} FilterNone<T>(s: seq<T>, p: T -> bool)
    requires forall i :: 0 <= i < |s| ==> !p(s[i])
    ensures Filter(s, p) == []
    decreases |s|
  {
    if s != [] {
      FilterCons(s, p);
      FilterNone(s[1..], p);
    }
  }

  lemma {:induction false} FilterIdempotent<T>(s: seq<T>, p: T -> bool)
    ensures Filter(Filter(s, p), p) == Filter(s, p)
  {
    var r := Filter(s, p);
    forall i | 0 <= i < |r| ensures p(r[i]) {
      assert r[i] in r;
    }
    FilterAll(r, p);
  }

  /** Both predicates hold. */
  function And<T>(p: T -> bool, q: T -> bool): T -> bool {
    x => p(x) && q(x)
  }

  /** The predicate does not hold. */
  function Not<T>(p: T -> bool): T -> bool {
    x => !p(x)
  }

  /** Filtering by `p` then by `q` is filtering by both. */
  lemma {:induction false} FilterFilter<T>(s: seq<T>, p: T -> bool, q: T -> bool)
    ensures Filter(Filter(s, p), q) == Filter(s, And(p, q))
    decreases |s|
  {
    var pq := And(p, q);
    if s != [] {
      FilterCons(s, p);
      FilterCons(s, pq);
      FilterFilter(s[1..], p, q);
      if p(s[0]) {
        assert Filter(s, p)[1..] == Filter(s[1..], p);
        FilterCons(Filter(s, p), q);
      } else {
        assert Filter(s, p) == Filter(s[1..], p);
      }
    }
  }

  // ----------------------------------------------------------- subsequence

  /** `r` can be obtained from `s` by deleting elements, keeping the order of the rest. */
  ghost predicate IsSubsequence<T>(r: seq<T>, s: seq<T>)
    decreases |s|
  {
    r == [] || (s != [] && ((r[0] == s[0] && IsSubsequence(r[1..], s[1..])) || IsSubsequence(r, s[1..])))
  }

  lemma {:induction false} SubsequenceRefl<T>(s: seq<T>)
    ensures IsSubsequence(s, s)
    decreases |s|
  {
    if s != [] {
      SubsequenceRefl(s[1..]);
    }
  }

  /** The subsequence order is transitive. */
  lemma {:induction false} SubsequenceTrans<T>(a: seq<T>, b: seq<T>, c: seq<T>)
    requires IsSubsequence(a, b) && IsSubsequence(b, c)
    ensures IsSubsequence(a, c)
    decreases |c|
  {
    if a != [] {
      if b[0] == c[0] && IsSubsequence(b[1..], c[1..]) {
        if a[0] == b[0] && IsSubsequence(a[1..], b[1..]) {
          SubsequenceTrans(a[1..], b[1..], c[1..]);
        } else {
          SubsequenceTrans(a, b[1..], c[1..]);
        }
      } else {
        SubsequenceTrans(a, b, c[1..]);
      }
    }
  }

  /** A subsequence has no more elements, all of them taken from the original. */
  lemma {:induction false} SubsequenceShape<T>(r: seq<T>, s: seq<T>)
    requires IsSubsequence(r, s)
    ensures |r| <= |s|
    ensures multiset(r) <= multiset(s)
    decreases |s|
  {
    if r != [] {
      assert s == [s[0]] + s[1..];
      if r[0] == s[0] && IsSubsequence(r[1..], s[1..]) {
        SubsequenceShape(r[1..], s[1..]);
        assert r == [r[0]] + r[1..];
      } else {
        SubsequenceShape(r, s[1..]);
      }
    }
  }

  /** `filter` keeps an order-preserving subsequence. */
  lemma {:induction false} FilterIsSubsequence<T>(s: seq<T>, p: T -> bool)
    ensures IsSubsequence(Filter(s, p), s)
    decreases |s|
  {
    if s != [] {
      FilterCons(s, p);
      FilterIsSubsequence(s[1..], p);
      var r := Filter(s, p);
      if p(s[0]) {
        assert r[0] == s[0] && r[1..] == Filter(s[1..], p);
      } else {
        assert r == Filter(s[1..], p);
      }
    }
  }

  /**
   * Reference characterisation of `filter`, independent of how it walks the
   * array: an order-preserving subsequence holding every occurrence of the
   * elements that satisfy `p` and none of the others.
   */
  lemma {:induction false} FilterSpec<T>(s: seq<T>, p: T -> bool)
    ensures IsSubsequence(Filter(s, p), s)
    ensures forall x :: multiset(Filter(s, p))[x] == if p(x) then multiset(s)[x] else 0
    decreases |s|
  {
    FilterIsSubsequence(s, p);
    if s != [] {
      FilterCons(s, p);
      FilterSpec(s[1..], p);
      assert s == [s[0]] + s[1..];
      assert multiset(s) == multiset{s[0]} + multiset(s[1..]);
    }
  }

  /** A weaker predicate keeps a longer subsequence that contains the shorter one. */
  lemma {:induction false} FilterMono<T>(s: seq<T>, p: T -> bool, q: T -> bool)
    requires forall i :: 0 <= i < |s| ==> p(s[i]) ==> q(s[i])
    ensures IsSubsequence(Filter(s, p), Filter(s, q))
    decreases |s|
  {
    if s != [] {
      FilterCons(s, p);
      FilterCons(s, q);
      FilterMono(s[1..], p, q);
      var rp, rq := Filter(s, p), Filter(s, q);
      if p(s[0]) {
        assert rp[0] == rq[0] && rp[1..] == Filter(s[1..], p) && rq[1..] == Filter(s[1..], q);
      } else if q(s[0]) {
        assert rp == Filter(s[1..], p);
        assert rq[1..] == Filter(s[1..], q);
      } else {
        assert rp == Filter(s[1..], p);
        assert rq == Filter(s[1..], q);
      }
    }
  }

  /** The elements a filter keeps, counted: the head when it passes, then those of the tail. */
  lemma FilterConsMultiset<T>(s: seq<T>, p: T -> bool)
    requires s != []
    ensures multiset(Filter(s, p)) == (if p(s[0]) then multiset{s[0]} else multiset{}) + multiset(Filter(s[1..], p))
  {
    FilterCons(s, p);
  }

  /**
   * Three predicates of which every value satisfies exactly one split a
   * sequence: the three filters together hold each element as often as it.
   */
  lemma {:induction false} FilterSplitsThreeWays<T>(s: seq<T>, p: T -> bool, q: T -> bool, r: T -> bool)
    requires forall x :: (p(x) && !q(x) && !r(x)) || (!p(x) && q(x) && !r(x)) || (!p(x) && !q(x) && r(x))
    ensures multiset(Filter(s, p)) + multiset(Filter(s, q)) + multiset(Filter(s, r)) == multiset(s)
    decreases |s|
  {
    if s != [] {
      var x, t := s[0], s[1..];
      FilterSplitsThreeWays(t, p, q, r);
      FilterConsMultiset(s, p);
      FilterConsMultiset(s, q);
      FilterConsMultiset(s, r);
      assert s == [x] + t;
      assert multiset(s) == multiset{x} + multiset(t);
      var a, b, c := multiset(Filter(t, p)), multiset(Filter(t, q)), multiset(Filter(t, r));
      if p(x) {
        assert multiset(Filter(s, p)) + multiset(Filter(s, q)) + multiset(Filter(s, r)) == (multiset{x} + a) + b + c;
      } else if q(x) {
        assert multiset(Filter(s, p)) + multiset(Filter(s, q)) + multiset(Filter(s, r)) == a + (multiset{x} + b) + c;
      } else {
        assert multiset(Filter(s, p)) + multiset(Filter(s, q)) + multiset(Filter(s, r)) == a + b + (multiset{x} + c);
      }
    }
  }

  /** A predicate and its negation split a sequence: their filters' lengths add up. */
  lemma {:induction false} FilterPartition<T>(s: seq<T>, p: T -> bool)
    ensures |Filter(s, p)| + |Filter(s, Not(p))| == |s|
    decreases |s|
  {
    if s != [] {
      FilterCons(s, p);
      FilterCons(s, Not(p));
      FilterPartition(s[1..], p);
    }
  }

  // ------------------------------------------------------------------- map

  /** `s.map(x => p(x) ? f(x) : x)`: `f` applied to the elements satisfying `p`. */
  function MapWhere<T>(s: seq<T>, p: T -> bool, f: T -> T): (r: seq<T>)
    ensures |r| == |s|
    ensures forall i :: 0 <= i < |s| && !p(s[i]) ==> r[i] == s[i]
    ensures forall i :: 0 <= i < |s| && p(s[i]) ==> r[i] == f(s[i])
  {
    seq(|s|, i requires 0 <= i < |s| => if p(s[i]) then f(s[i]) else s[i])
  }

  /**
   * When `f` keeps `p` true, mapping the elements selected by `p` and then
   * removing them is removing them.
   */
  lemma {:induction false} RemoveAfterMapWhere<T>(s: seq<T>, p: T -> bool, f: T -> T)
    requires forall i :: 0 <= i < |s| && p(s[i]) ==> p(f(s[i]))
    ensures Filter(MapWhere(s, p, f), Not(p)) == Filter(s, Not(p))
    decreases |s|
  {
    if s != [] {
      var m := MapWhere(s, p, f);
      assert m[1..] == MapWhere(s[1..], p, f);
      FilterCons(m, Not(p));
      FilterCons(s, Not(p));
      RemoveAfterMapWhere(s[1..], p, f);
    }
  }

  // ------------------------------------------------------ short literals

  /** `[x]` when `b` holds, else nothing. */
  function Sel<T>(x: T, b: bool): (r: seq<T>)
    ensures r == [] <==> !b
    ensures b ==> r == [x]
  {
    if b then [x] else []
  }

  /** Filtering an element in front of a list keeps it exactly when it passes. */
  lemma FilterPrepend<T>(x: T, s: seq<T>, p: T -> bool)
    ensures Filter([x] + s, p) == Sel(x, p(x)) + Filter(s, p)
  {
    FilterCons([x] + s, p);
    assert ([x] + s)[1..] == s;
  }

  /** Filtering two elements keeps each one that passes, in order. */
  lemma FilterPair<T>(b: T, c: T, p: T -> bool)
    ensures Filter([b, c], p) == Sel(b, p(b)) + Sel(c, p(c))
  {
    FilterSingleton(c, p);
    FilterPrepend(b, [c], p);
    assert [b] + [c] == [b, c];
  }

  /** Filtering three elements keeps each one that passes, in order. */
  lemma FilterThree<T>(a: T, b: T, c: T, p: T -> bool)
    ensures Filter([a, b, c], p) == Sel(a, p(a)) + Sel(b, p(b)) + Sel(c, p(c))
  {
    FilterPair(b, c, p);
    FilterPrepend(a, [b, c], p);
    assert [a] + [b, c] == [a, b, c];
  }

  /** A filter over four consecutive parts is the four filters joined. */
  lemma Assemble<T>(s: seq<T>, p: T -> bool, a: seq<T>, b: seq<T>, c: seq<T>, d: seq<T>, r: seq<T>)
    requires s == a + b + c + d
    requires r == Filter(a, p) + Filter(b, p) + Filter(c, p) + Filter(d, p)
    ensures Filter(s, p) == r
  {
    FilterConcat(a + b + c, d, p);
    FilterConcat(a + b, c, p);
    FilterConcat(a, b, p);
  }

  // ------------------------------------------------------------------ find

  /** The first element from index `k` on that satisfies `p`, if any. */
  function FindFrom<T>(s: seq<T>, p: T -> bool, k: nat): (r: Option<T>)
    requires k <= |s|
    ensures r.None? <==> forall i :: k <= i < |s| ==> !p(s[i])
    ensures r.Some? ==> exists i :: k <= i < |s| && s[i] == r.value && p(s[i]) &&
                                    forall j :: k <= j < i ==> !p(s[j])
    decreases |s| - k
  {
    if k == |s| then None
    else if p(s[k]) then Some(s[k])
    else FindFrom(s, p, k + 1)
  }

  /** `s.find(p)`. */
  function Find<T>(s: seq<T>, p: T -> bool): (r: Option<T>)
    ensures r.None? <==> forall i :: 0 <= i < |s| ==> !p(s[i])
    ensures r.Some? ==> exists i :: 0 <= i < |s| && s[i] == r.value && p(s[i]) &&
                                    forall j :: 0 <= j < i ==> !p(s[j])
  {
    FindFrom(s, p, 0)
  }

  /** `find` agrees with the head of `filter`. */
  lemma {:induction false} FindIsFirstOfFilter<T>(s: seq<T>, p: T -> bool)
    ensures Find(s, p) == if Filter(s, p) == [] then None else Some(Filter(s, p)[0])
    decreases |s|
  {
    if s != [] {
      FilterCons(s, p);
      if !p(s[0]) {
        FindIsFirstOfFilter(s[1..], p);
        FindFromShift(s, p, 1, 1);
      }
    } else {
      assert FindFrom(s, p, 0) == None;
    }
  }

  lemma {:induction false} FindFromShift<T>(s: seq<T>, p: T -> bool, j: nat, k: nat)
    requires j <= k <= |s|
    ensures FindFrom(s, p, k) == FindFrom(s[j..], p, k - j)
    decreases |s| - k
  {
    if k < |s| {
      assert s[j..][k - j] == s[k];
      FindFromShift(s, p, j, k + 1);
    }
  }

  // ------------------------------------------------------------ take, sum

  /** `s.slice(0, n)`. */
  function Take<T>(s: seq<T>, n: nat): (r: seq<T>)
    ensures |r| == if |s| < n then |s| else n
    ensures forall i :: 0 <= i < |r| ==> r[i] == s[i]
  {
    if |s| < n then s else s[..n]
  }

  /** `s.reduce((sum, x) => sum + f(x), 0)` over integers, from index `k`. */
  function SumIntFrom<T>(s: seq<T>, f: T -> int, k: nat): int
    requires k <= |s|
    decreases |s| - k
  {
    if k == |s| then 0 else f(s[k]) + SumIntFrom(s, f, k + 1)
  }

  function SumInt<T>(s: seq<T>, f: T -> int): int {
    SumIntFrom(s, f, 0)
  }

  /** `s.reduce((sum, x) => sum + f(x), 0)` over exact decimals, from index `k`. */
  function SumRealFrom<T>(s: seq<T>, f: T -> real, k: nat): real
    requires k <= |s|
    decreases |s| - k
  {
    if k == |s| then 0.0 else f(s[k]) + SumRealFrom(s, f, k + 1)
  }

  function SumReal<T>(s: seq<T>, f: T -> real): real {
    SumRealFrom(s, f, 0)
  }

  /** A sum of terms each at most `c` is at most `c` times the count. */
  lemma {:induction false} SumIntFromBound<T>(s: seq<T>, f: T -> int, c: int, k: nat)
    requires k <= |s|
    requires forall i :: k <= i < |s| ==> f(s[i]) <= c
    ensures SumIntFrom(s, f, k) <= c * (|s| - k)
    decreases |s| - k
  {
    if k < |s| {
      SumIntFromBound(s, f, c, k + 1);
    }
  }

  lemma SumIntBound<T>(s: seq<T>, f: T -> int, c: int)
    requires forall i :: 0 <= i < |s| ==> f(s[i]) <= c
    ensures SumInt(s, f) <= c * |s|
  {
    SumIntFromBound(s, f, c, 0);
  }

  /** A sum of non-negative terms is non-negative. */
  lemma {:induction false} SumRealFromNonNegative<T>(s: seq<T>, f: T -> real, k: nat)
    requires k <= |s|
    requires forall i :: k <= i < |s| ==> 0.0 <= f(s[i])
    ensures 0.0 <= SumRealFrom(s, f, k)
    decreases |s| - k
  {
    if k < |s| {
      SumRealFromNonNegative(s, f, k + 1);
    }
  }

  lemma {:induction false} SumRealFromShift<T>(s: seq<T>, f: T -> real, k: nat)
    requires 1 <= k <= |s|
    ensures SumRealFrom(s, f, k) == SumRealFrom(s[1..], f, k - 1)
    decreases |s| - k
  {
    if k < |s| {
      SumRealFromShift(s, f, k + 1);
    }
  }

  /** The sum is the first term plus the sum of the rest. */
  lemma SumRealCons<T>(s: seq<T>, f: T -> real)
    requires s != []
    ensures SumReal(s, f) == f(s[0]) + SumReal(s[1..], f)
  {
    SumRealFromShift(s, f, 1);
  }

  /** Splitting a list by any predicate splits its sum. */
  lemma {:induction false} SumRealSplit<T>(s: seq<T>, f: T -> real, p: T -> bool)
    ensures SumReal(s, f) == SumReal(Filter(s, p), f) + SumReal(Filter(s, Not(p)), f)
    decreases |s|
  {
    if s != [] {
      SumRealSplit(s[1..], f, p);
      SumRealCons(s, f);
      FilterCons(s, p);
      FilterCons(s, Not(p));
      if p(s[0]) {
        assert Filter(s, p) == [s[0]] + Filter(s[1..], p);
        assert Filter(s, Not(p)) == Filter(s[1..], Not(p));
        SumRealCons(Filter(s, p), f);
        assert Filter(s, p)[1..] == Filter(s[1..], p);
      } else {
        assert Filter(s, p) == Filter(s[1..], p);
        assert Filter(s, Not(p)) == [s[0]] + Filter(s[1..], Not(p));
        SumRealCons(Filter(s, Not(p)), f);
        assert Filter(s, Not(p))[1..] == Filter(s[1..], Not(p));
      }
    }
  }

  // --------------------------------------------------------------- reverse

  function Reverse<T>(s: seq<T>): (r: seq<T>)
    ensures |r| == |s|
    ensures forall i :: 0 <= i < |s| ==> r[i] == s[|s| - 1 - i]
  {
    seq(|s|, i requires 0 <= i < |s| => s[|s| - 1 - i])
  }
}
