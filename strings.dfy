/**
 * The few string operations the pages use: `toLowerCase`, `includes`,
 * `startsWith`, the `\s` class of a regular expression, and an order on
 * strings standing in for both `localeCompare` and the comparison of
 * ISO `YYYY-MM-DD` dates.
 *
 * Lower-casing and whitespace are the ASCII ones; the order is the plain
 * lexicographic order on characters.
 */
module Strings {

  predicate IsUpper(c: char) {
    'A' <= c <= 'Z'
  }

  /** ASCII `toLowerCase` of one character. */
  function ToLower(c: char): (r: char)
    ensures !IsUpper(r)
    ensures IsUpper(c) ==> r as int == c as int + 32
    ensures !IsUpper(c) ==> r == c
  {
    if IsUpper(c) then (c as int + 32) as char else c
  }

  /** `s.toLowerCase()`. */
  function Lower(s: string): string {
    seq(|s|, i requires 0 <= i < |s| => ToLower(s[i]))
  }

  lemma LowerShape(s: string)
    ensures |Lower(s)| == |s|
    ensures forall i :: 0 <= i < |s| ==> !IsUpper(Lower(s)[i])
  {
  }

  /** A string without upper-case letters is its own lower-case form. */
  lemma LowerIdentity(s: string)
    requires forall i :: 0 <= i < |s| ==> !IsUpper(s[i])
    ensures Lower(s) == s
  {
  }

  /** Lower-casing twice is lower-casing once. */
  lemma LowerIdempotent(s: string)
    ensures Lower(Lower(s)) == Lower(s)
  {
    assert forall i :: 0 <= i < |s| ==> ToLower(ToLower(s[i])) == ToLower(s[i]);
  }

  /** `q` occurs in `s` at position `i`. */
  predicate OccursAt(s: string, q: string, i: nat) {
    i + |q| <= |s| && s[i..i + |q|] == q
  }

  /** `q` occurs in `s` at some position `i` or later. */
  predicate IncludesFrom(s: string, q: string, i: nat)
    decreases |s| - i
  {
    i + |q| <= |s| && (OccursAt(s, q, i) || IncludesFrom(s, q, i + 1))
  }

  /** `s.includes(q)`. */
  predicate Includes(s: string, q: string) {
    IncludesFrom(s, q, 0)
  }

  lemma {:induction false} IncludesFromWitness(s: string, q: string, i: nat)
    ensures IncludesFrom(s, q, i) <==> exists j :: i <= j && OccursAt(s, q, j)
    decreases |s| - i
  {
    if i + |q| <= |s| {
      IncludesFromWitness(s, q, i + 1);
    } else {
      forall j | i <= j ensures !OccursAt(s, q, j) {
      }
    }
  }

  /** `includes` searches every position: it holds iff `q` occurs somewhere in `s`. */
  lemma IncludesWitness(s: string, q: string)
    ensures Includes(s, q) <==> exists j :: OccursAt(s, q, j)
  {
    IncludesFromWitness(s, q, 0);
  }

  /** `"".includes` is true of every string, as in JavaScript. */
  lemma IncludesEmpty(s: string)
    ensures Includes(s, "")
  {
    assert OccursAt(s, "", 0);
  }

  /** `x` is never immediately followed by `y` in `s`. */
  predicate AvoidsPair(s: string, x: char, y: char) {
    forall j :: 0 <= j < |s| - 1 ==> !(s[j] == x && s[j + 1] == y)
  }

  /** A string that avoids two adjacent characters of `q` does not include `q`. */
  lemma AvoidsPairExcludes(s: string, q: string, k: nat)
    requires k + 1 < |q| && AvoidsPair(s, q[k], q[k + 1])
    ensures !Includes(s, q)
  {
    IncludesWitness(s, q);
    forall j: nat | OccursAt(s, q, j) ensures false {
    }
  }

  /** Lower-casing works character by character, so it distributes over concatenation. */
  lemma LowerConcat(a: string, b: string)
    ensures Lower(a + b) == Lower(a) + Lower(b)
  {
  }

  /**
   * Two pieces that avoid a pair once lower-cased, the first ending in a
   * space that is not the pair's first character, avoid it when joined.
   */
  lemma AvoidsPairJoin(a: string, b: string, x: char, y: char)
    requires AvoidsPair(Lower(a), x, y) && AvoidsPair(Lower(b), x, y)
    requires a != [] && a[|a| - 1] == ' ' && x != ' '
    ensures AvoidsPair(Lower(a + b), x, y)
  {
    LowerConcat(a, b);
    var la, lb := Lower(a), Lower(b);
    var s := la + lb;
    forall j | 0 <= j < |s| - 1 ensures !(s[j] == x && s[j + 1] == y) {
      if j + 1 < |la| {
        assert s[j] == la[j] && s[j + 1] == la[j + 1];
      } else if j >= |la| {
        assert s[j] == lb[j - |la|] && s[j + 1] == lb[j + 1 - |la|];
      } else {
        assert s[j] == la[|la| - 1] == ' ';
      }
    }
  }

  /** `s.startsWith(p)`. */
  predicate StartsWith(s: string, p: string) {
    |p| <= |s| && s[..|p|] == p
  }

  /** A string differing from `p` at a position of both does not start with `p`. */
  lemma NotStartsWithAt(s: string, p: string, k: nat)
    requires k < |s| && k < |p| && s[k] != p[k]
    ensures !StartsWith(s, p)
  {
    if |p| <= |s| {
      assert s[..|p|][k] == s[k];
    }
  }

  /** A string starts with what it was built from. */
  lemma StartsWithAppend(p: string, s: string)
    ensures StartsWith(p + s, p)
  {
    assert (p + s)[..|p|] == p;
  }

  /** The ASCII members of the `\s` class of a JavaScript regular expression. */
  predicate IsSpace(c: char) {
    c == ' ' || c == '\t' || c == '\n' || c == '\r' || c == '\U{000B}' || c == '\U{000C}'
  }

  predicate NoSpace(s: string) {
    forall i :: 0 <= i < |s| ==> !IsSpace(s[i])
  }

  /** Strict lexicographic order on strings: `a` sorts before `b`. */
  predicate LexLess(a: string, b: string) {
    if |b| == 0 then false
    else if |a| == 0 then true
    else if a[0] != b[0] then a[0] < b[0]
    else LexLess(a[1..], b[1..])
  }

  /** First difference at `k`: the two strings agree before `k` and `a` is smaller there. */
  predicate DiffersFirstAt(a: string, b: string, k: nat) {
    k <= |a| && k < |b| && a[..k] == b[..k] && (k == |a| || a[k] < b[k])
  }

  /** The recursive order agrees with its reference definition by first difference. */
  lemma {:induction false} LexLessWitness(a: string, b: string)
    ensures LexLess(a, b) <==> exists k: nat :: DiffersFirstAt(a, b, k)
  {
    if |b| == 0 {
      assert forall k: nat :: !DiffersFirstAt(a, b, k);
    } else if |a| == 0 {
      assert DiffersFirstAt(a, b, 0);
    } else if a[0] != b[0] {
      if a[0] < b[0] {
        assert DiffersFirstAt(a, b, 0);
      } else {
        forall k: nat | DiffersFirstAt(a, b, k) ensures false {
        }
      }
    } else {
      LexLessWitness(a[1..], b[1..]);
      if LexLess(a, b) {
        var k: nat :| DiffersFirstAt(a[1..], b[1..], k);
        assert a[..k + 1] == [a[0]] + a[1..][..k];
        assert b[..k + 1] == [b[0]] + b[1..][..k];
        assert DiffersFirstAt(a, b, k + 1);
      } else {
        forall k: nat | DiffersFirstAt(a, b, k) ensures false {
          if k == 0 {
          } else {
            assert a[1..][..k - 1] == a[..k][1..];
            assert b[1..][..k - 1] == b[..k][1..];
            assert DiffersFirstAt(a[1..], b[1..], k - 1);
          }
        }
      }
    }
  }

  /** One position of first difference is enough to conclude the order. */
  lemma LexLessAt(a: string, b: string, k: nat)
    requires DiffersFirstAt(a, b, k)
    ensures LexLess(a, b)
  {
    LexLessWitness(a, b);
  }

  lemma {:induction false} LexLessIrreflexive(a: string)
    ensures !LexLess(a, a)
  {
    if |a| > 0 {
      LexLessIrreflexive(a[1..]);
    }
  }

  lemma {:induction false} LexLessTransitive(a: string, b: string, c: string)
    requires LexLess(a, b) && LexLess(b, c)
    ensures LexLess(a, c)
  {
    if |a| > 0 && a[0] == b[0] && b[0] == c[0] {
      LexLessTransitive(a[1..], b[1..], c[1..]);
    }
  }

  /** Any two different strings are ordered one way or the other. */
  lemma {:induction false} LexLessTotal(a: string, b: string)
    ensures a == b || LexLess(a, b) || LexLess(b, a)
  {
    if |a| > 0 && |b| > 0 && a[0] == b[0] {
      LexLessTotal(a[1..], b[1..]);
      if a[1..] == b[1..] {
        assert a == [a[0]] + a[1..] && b == [b[0]] + b[1..];
      }
    }
  }

  lemma LexLessAsymmetric(a: string, b: string)
    requires LexLess(a, b)
    ensures !LexLess(b, a)
  {
    if LexLess(b, a) {
      LexLessTransitive(a, b, a);
      LexLessIrreflexive(a);
    }
  }

  /** Not-greater-than is transitive too: the order is a strict weak order. */
  lemma NotLexLessTransitive(a: string, b: string, c: string)
    requires !LexLess(b, a) && !LexLess(c, b)
    ensures !LexLess(c, a)
  {
    LexLessTotal(a, b);
    LexLessTotal(b, c);
    if LexLess(c, a) {
      if a == b {
        LexLessAsymmetric(c, b);
      } else if b == c {
        LexLessAsymmetric(c, a);
      } else {
        LexLessTransitive(a, b, c);
        LexLessAsymmetric(a, c);
      }
    }
  }
}
