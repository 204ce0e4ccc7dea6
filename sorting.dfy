/**
 * `Array.prototype.sort` with a comparator, as a stable insertion sort.
 *
 * `after(a, b)` says that the comparator is positive on `(a, b)`: `a`
 * belongs after `b`. Section 22.1.3.27 of ECMA-262, 10th edition (2019),
 * requires the sort to be stable: elements the comparator calls equal keep
 * their relative order. The result is then determined by the input and a
 * comparator that is a strict weak order, which is what `Sort` computes.
 */
module Sorting {
  import opened Seqs

  /** The comparator is consistent: asymmetric, and not-after is transitive. */
  ghost predicate StrictWeakOrder<T(!new)>(after: (T, T) -> bool) {
    (forall a, b :: after(a, b) ==> !after(b, a)) &&
    (forall a, b, c :: !after(a, b) && !after(b, c) ==> !after(a, c))
  }

  /** The elements the comparator calls equal to `c`. */
  function TieClass<T>(after: (T, T) -> bool, c: T): T -> bool {
    y => !after(c, y) && !after(y, c)
  }

  /** No element is placed before one it belongs after. */
  ghost predicate Sorted<T>(after: (T, T) -> bool, s: seq<T>) {
    forall i, j :: 0 <= i < j < |s| ==> !after(s[i], s[j])
  }

  /** Insert `x` at the end of `t`, then move it left past the elements it belongs before. */
  function Insert<T>(after: (T, T) -> bool, x: T, t: seq<T>): (r: seq<T>)
    ensures |r| == |t| + 1
    decreases |t|
  {
    if t == [] then [x]
    else if after(t[|t| - 1], x) then Insert(after, x, t[..|t| - 1]) + [t[|t| - 1]]
    else t + [x]
  }

  /** Insertion sort: each element in turn inserted into the sorted prefix before it. */
  function Sort<T>(after: (T, T) -> bool, s: seq<T>): (r: seq<T>)
    ensures |r| == |s|
    decreases |s|
  {
    if s == [] then [] else Insert(after, s[|s| - 1], Sort(after, s[..|s| - 1]))
  }

  lemma {:induction false} InsertPerm<T>(after: (T, T) -> bool, x: T, t: seq<T>)
    ensures multiset(Insert(after, x, t)) == multiset(t) + multiset{x}
    decreases |t|
  {
    if t != [] {
      var init, last := t[..|t| - 1], t[|t| - 1];
      assert t == init + [last];
      if after(last, x) {
        InsertPerm(after, x, init);
      }
    }
  }

  lemma {:induction false} InsertSorted<T(!new)>(after: (T, T) -> bool, x: T, t: seq<T>)
    requires StrictWeakOrder(after)
    requires Sorted(after, t)
    ensures Sorted(after, Insert(after, x, t))
    decreases |t|
  {
    if t != [] {
      var init, last := t[..|t| - 1], t[|t| - 1];
      if after(last, x) {
        InsertSorted(after, x, init);
        InsertPerm(after, x, init);
        var u := Insert(after, x, init);
        forall i | 0 <= i < |u| ensures !after(u[i], last) {
          assert u[i] in multiset(u);
          if u[i] != x {
            assert u[i] in multiset(init);
            var m :| 0 <= m < |init| && init[m] == u[i];
            assert t[m] == u[i];
          }
        }
        assert Sorted(after, u + [last]) by {
          forall i, j | 0 <= i < j < |u| + 1 ensures !after((u + [last])[i], (u + [last])[j]) {
            if j == |u| {
              assert (u + [last])[i] == u[i];
            } else {
              assert (u + [last])[i] == u[i] && (u + [last])[j] == u[j];
            }
          }
        }
      } else {
        forall i | 0 <= i < |t| ensures !after(t[i], x) {
          if i < |t| - 1 {
            assert !after(t[i], last);
          }
        }
      }
    }
  }

  /** Inserting before elements that all belong after `x` puts `x` in front. */
  lemma {:induction false} InsertFront<T>(after: (T, T) -> bool, x: T, u: seq<T>)
    requires forall i :: 0 <= i < |u| ==> after(u[i], x)
    ensures Insert(after, x, u) == [x] + u
    decreases |u|
  {
    if u != [] {
      var init, last := u[..|u| - 1], u[|u| - 1];
      InsertFront(after, x, init);
      assert [x] + init + [last] == [x] + u;
    }
  }

  /** The sorted copy is ordered by the comparator and is a permutation of its input. */
  lemma {:induction false} SortSpec<T(!new)>(after: (T, T) -> bool, s: seq<T>)
    requires StrictWeakOrder(after)
    ensures Sorted(after, Sort(after, s))
    ensures multiset(Sort(after, s)) == multiset(s)
    decreases |s|
  {
    if s != [] {
      var init, last := s[..|s| - 1], s[|s| - 1];
      SortSpec(after, init);
      InsertSorted(after, last, Sort(after, init));
      InsertPerm(after, last, Sort(after, init));
      assert s == init + [last];
    }
  }

  /** An input that is already in order comes back unchanged. */
  lemma {:induction false} SortIdentity<T>(after: (T, T) -> bool, s: seq<T>)
    requires Sorted(after, s)
    ensures Sort(after, s) == s
    decreases |s|
  {
    if s != [] {
      var init, last := s[..|s| - 1], s[|s| - 1];
      assert Sorted(after, init);
      SortIdentity(after, init);
      assert s == init + [last];
    }
  }

  /** An input whose every element belongs after every later one comes back reversed. */
  lemma {:induction false} SortReverses<T>(after: (T, T) -> bool, s: seq<T>)
    requires forall i, j :: 0 <= i < j < |s| ==> after(s[i], s[j])
    ensures Sort(after, s) == Reverse(s)
    decreases |s|
  {
    if s != [] {
      var init, last := s[..|s| - 1], s[|s| - 1];
      SortReverses(after, init);
      var r := Reverse(init);
      forall i | 0 <= i < |r| ensures after(r[i], last) {
        assert r[i] == s[|init| - 1 - i];
      }
      InsertFront(after, last, r);
      assert [last] + r == Reverse(s);
    }
  }

  /** Inserting keeps the elements that tie with `c` in order, with `x` last among them. */
  lemma {:induction false} InsertKeepsTies<T(!new)>(after: (T, T) -> bool, c: T, x: T, t: seq<T>)
    requires StrictWeakOrder(after)
    ensures Filter(Insert(after, x, t), TieClass(after, c)) ==
            Filter(t, TieClass(after, c)) + Filter([x], TieClass(after, c))
    decreases |t|
  {
    var p := TieClass(after, c);
    if t == [] {
      FilterSingleton(x, p);
    } else {
      var init, last := t[..|t| - 1], t[|t| - 1];
      assert t == init + [last];
      if after(last, x) {
        FilterSingleton(x, p);
        FilterSingleton(last, p);
        assert !(p(x) && p(last));
        calc {
          Filter(Insert(after, x, t), p);
          Filter(Insert(after, x, init) + [last], p);
          { FilterConcat(Insert(after, x, init), [last], p); }
          Filter(Insert(after, x, init), p) + Filter([last], p);
          { InsertKeepsTies(after, c, x, init); }
          Filter(init, p) + Filter([x], p) + Filter([last], p);
          Filter(init, p) + Filter([last], p) + Filter([x], p);
          { FilterConcat(init, [last], p); }
          Filter(t, p) + Filter([x], p);
        }
      } else {
        FilterConcat(t, [x], p);
      }
    }
  }

  /**
   * The sort is stable: the elements that tie with any `c` appear in the
   * sorted copy in the order they had in the input.
   */
  lemma {:induction false} SortStable<T(!new)>(after: (T, T) -> bool, c: T, s: seq<T>)
    requires StrictWeakOrder(after)
    ensures Filter(Sort(after, s), TieClass(after, c)) == Filter(s, TieClass(after, c))
    decreases |s|
  {
    if s != [] {
      var init, last := s[..|s| - 1], s[|s| - 1];
      SortStable(after, c, init);
      InsertKeepsTies(after, c, last, Sort(after, init));
      assert s == init + [last];
      FilterConcat(init, [last], TieClass(after, c));
    }
  }

  /** One more step of moving `x` left past `t[j - 1]`. */
  lemma InsertUnfold<T>(after: (T, T) -> bool, x: T, t: seq<T>, j: nat, i: nat)
    requires 0 < j <= i <= |t| && after(t[j - 1], x)
    ensures Insert(after, x, t[..j]) + t[j..i] == Insert(after, x, t[..j - 1]) + t[j - 1..i]
  {
    assert t[..j][..j - 1] == t[..j - 1];
    assert t[j - 1..i] == [t[j - 1]] + t[j..i];
  }

  /** Where `x` stops moving. */
  lemma InsertStop<T>(after: (T, T) -> bool, x: T, t: seq<T>, j: nat)
    requires j <= |t| && (j == 0 || !after(t[j - 1], x))
    ensures Insert(after, x, t[..j]) == t[..j] + [x]
  {
  }

  lemma SortPrefix<T>(after: (T, T) -> bool, s: seq<T>, i: nat)
    requires i < |s|
    ensures Sort(after, s[..i + 1]) == Insert(after, s[i], Sort(after, s[..i]))
  {
    assert s[..i + 1][..i] == s[..i];
  }

  /** Moves `a[i]` left past the elements of the sorted `a[..i]` it belongs before. */
  method InsertInPlace<T>(a: array<T>, i: nat, after: (T, T) -> bool)
    requires i < a.Length
    modifies a
    ensures a[..i + 1] == Insert(after, old(a[i]), old(a[..i]))
    ensures a[i + 1..] == old(a[i + 1..])
  {
    var x := a[i];
    ghost var t := a[..i];
    var j := i;
    assert t[..j] == t && t[j..i] == [];
    while j > 0 && after(a[j - 1], x)
      invariant 0 <= j <= i
      invariant a[..j] == t[..j]
      invariant a[j + 1..i + 1] == t[j..i]
      invariant a[i + 1..] == old(a[i + 1..])
      invariant Insert(after, x, t) == Insert(after, x, t[..j]) + t[j..i]
    {
      InsertUnfold(after, x, t, j, i);
      label L:
      a[j] := a[j - 1];
      assert a[j + 1..i + 1] == old@L(a[j + 1..i + 1]);
      j := j - 1;
    }
    InsertStop(after, x, t, j);
    a[j] := x;
    assert a[..i + 1] == a[..j] + [a[j]] + a[j + 1..i + 1];
  }

  /** `[...s].sort(comparator)`: sorts a fresh array, leaving `s` as it was. */
  method SortedCopy<T>(s: seq<T>, after: (T, T) -> bool) returns (r: seq<T>)
    ensures r == Sort(after, s)
  {
    var a := new T[|s|](i requires 0 <= i < |s| => s[i]);
    var i := 0;
    while i < a.Length
      invariant 0 <= i <= a.Length
      invariant a[..i] == Sort(after, s[..i])
      invariant a[i..] == s[i..]
    {
      assert a[i] == s[i];
      InsertInPlace(a, i, after);
      SortPrefix(after, s, i);
      i := i + 1;
    }
    assert s[..a.Length] == s;
    r := a[..];
  }
}
