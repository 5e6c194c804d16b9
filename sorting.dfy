/**
 * The two sorts the viewer relies on: `sorted(items, key=w, reverse=True)`,
 * a stable sort by descending weight, and `sorted(set(names))`, the distinct
 * strings in ascending code-point order.
 */
module Sorting {

  /** `xs` is ordered by non-increasing weight. */
  predicate Descending<T>(xs: seq<T>, w: T -> nat) {
    forall i, j :: 0 <= i < j < |xs| ==> w(xs[i]) >= w(xs[j])
  }

  /** `x` goes after every element at least as heavy, so equal weights keep their input order. */
  function InsertDesc<T>(s: seq<T>, x: T, w: T -> nat): (r: seq<T>)
    ensures |r| == |s| + 1
  {
    if s == [] then [x]
    else if w(s[0]) < w(x) then [x] + s
    else [s[0]] + InsertDesc(s[1..], x, w)
  }

  /** Inserting adds exactly `x`. */
  lemma {:induction false} InsertDescMultiset<T>(s: seq<T>, x: T, w: T -> nat)
    ensures multiset(InsertDesc(s, x, w)) == multiset(s) + multiset{x}
  {
    if s != [] && w(s[0]) >= w(x) {
      InsertDescMultiset(s[1..], x, w);
      assert s == [s[0]] + s[1..];
    }
  }

  /** Inserting keeps a descending list descending. */
  lemma {:induction false} InsertDescDescending<T>(s: seq<T>, x: T, w: T -> nat)
    requires Descending(s, w)
    ensures Descending(InsertDesc(s, x, w), w)
  {
    if s != [] && w(s[0]) >= w(x) {
      var rest := InsertDesc(s[1..], x, w);
      InsertDescDescending(s[1..], x, w);
      InsertDescMultiset(s[1..], x, w);
      assert s == [s[0]] + s[1..];
      forall j | 0 <= j < |rest| ensures w(s[0]) >= w(rest[j]) {
        assert rest[j] in multiset(rest);
        if rest[j] != x {
          assert rest[j] in multiset(s[1..]);
          var k :| 0 <= k < |s[1..]| && s[1..][k] == rest[j];
          assert s[k + 1] == rest[j];
        }
      }
    }
  }

  /** `sorted(xs, key=w, reverse=True)`, as an insertion sort that is stable by construction. */
  function SortDesc<T>(xs: seq<T>, w: T -> nat): (r: seq<T>)
    ensures |r| == |xs|
  {
    if xs == [] then [] else InsertDesc(SortDesc(xs[..|xs| - 1], w), xs[|xs| - 1], w)
  }

  /** The result is ordered by non-increasing weight and holds exactly the input elements. */
  lemma {:induction false} SortDescCorrect<T>(xs: seq<T>, w: T -> nat)
    ensures Descending(SortDesc(xs, w), w)
    ensures multiset(SortDesc(xs, w)) == multiset(xs)
  {
    if xs != [] {
      var n := |xs| - 1;
      SortDescCorrect(xs[..n], w);
      InsertDescMultiset(SortDesc(xs[..n], w), xs[n], w);
      InsertDescDescending(SortDesc(xs[..n], w), xs[n], w);
      assert xs == xs[..n] + [xs[n]];
      assert multiset(xs) == multiset(xs[..n]) + multiset{xs[n]};
    }
  }

  lemma SortDescMembers<T>(xs: seq<T>, w: T -> nat)
    ensures forall x :: x in SortDesc(xs, w) <==> x in xs
  {
    SortDescCorrect(xs, w);
    forall x ensures x in SortDesc(xs, w) <==> x in xs {
      assert x in SortDesc(xs, w) <==> x in multiset(SortDesc(xs, w));
      assert x in xs <==> x in multiset(xs);
    }
  }

  /** The sum of `v` over a list. */
  function Total<T>(xs: seq<T>, v: T -> nat): nat {
    if xs == [] then 0 else v(xs[0]) + Total(xs[1..], v)
  }

  lemma {:induction false} InsertDescTotal<T>(s: seq<T>, x: T, w: T -> nat, v: T -> nat)
    ensures Total(InsertDesc(s, x, w), v) == Total(s, v) + v(x)
  {
    if s != [] && w(s[0]) >= w(x) {
      var r := InsertDesc(s, x, w);
      assert r[1..] == InsertDesc(s[1..], x, w);
      InsertDescTotal(s[1..], x, w, v);
    } else if s != [] {
      assert ([x] + s)[1..] == s;
    }
  }

  lemma {:induction false} TotalAppend<T>(xs: seq<T>, x: T, v: T -> nat)
    ensures Total(xs + [x], v) == Total(xs, v) + v(x)
  {
    if xs != [] {
      assert (xs + [x])[1..] == xs[1..] + [x];
      TotalAppend(xs[1..], x, v);
    }
  }

  /** Sorting moves elements around but keeps any sum over them. */
  lemma {:induction false} SortDescTotal<T>(xs: seq<T>, w: T -> nat, v: T -> nat)
    ensures Total(SortDesc(xs, w), v) == Total(xs, v)
  {
    if xs != [] {
      var n := |xs| - 1;
      SortDescTotal(xs[..n], w, v);
      InsertDescTotal(SortDesc(xs[..n], w), xs[n], w, v);
      assert xs == xs[..n] + [xs[n]];
      TotalAppend(xs[..n], xs[n], v);
    }
  }

  lemma {:induction false} TotalConcat<T>(a: seq<T>, b: seq<T>, v: T -> nat)
    ensures Total(a + b, v) == Total(a, v) + Total(b, v)
  {
    if a != [] {
      assert (a + b)[1..] == a[1..] + b;
      TotalConcat(a[1..], b, v);
    } else {
      assert a + b == b;
    }
  }

  /** Two lists that agree element by element on the summed quantity have the same total. */
  lemma {:induction false} TotalPointwise<A, B>(a: seq<A>, b: seq<B>, va: A -> nat, vb: B -> nat)
    requires |a| == |b| && forall j :: 0 <= j < |a| ==> va(a[j]) == vb(b[j])
    ensures Total(a, va) == Total(b, vb)
  {
    if a != [] {
      assert forall j :: 0 <= j < |a| - 1 ==> a[1..][j] == a[j + 1] && b[1..][j] == b[j + 1];
      TotalPointwise(a[1..], b[1..], va, vb);
    }
  }

  // ----- strings -----

  /** Python's `<` on `str`: lexicographic by code point, a proper prefix first. */
  predicate StrLess(a: string, b: string) {
    if a == [] then b != []
    else if b == [] then false
    else if a[0] != b[0] then a[0] < b[0]
    else StrLess(a[1..], b[1..])
  }

  lemma {:induction false} StrLessIrreflexive(a: string)
    ensures !StrLess(a, a)
  {
    if a != [] {
      StrLessIrreflexive(a[1..]);
    }
  }

  lemma {:induction false} StrLessTransitive(a: string, b: string, c: string)
    requires StrLess(a, b) && StrLess(b, c)
    ensures StrLess(a, c)
  {
    if a != [] && b != [] && c != [] && a[0] == b[0] && b[0] == c[0] {
      StrLessTransitive(a[1..], b[1..], c[1..]);
    }
  }

  lemma {:induction false} StrLessTotal(a: string, b: string)
    requires a != b
    ensures StrLess(a, b) || StrLess(b, a)
  {
    if a != [] && b != [] && a[0] == b[0] {
      assert a == [a[0]] + a[1..] && b == [b[0]] + b[1..];
      StrLessTotal(a[1..], b[1..]);
    }
  }

  /** Strictly increasing, hence duplicate-free. */
  predicate Ascending(xs: seq<string>) {
    forall i, j :: 0 <= i < j < |xs| ==> StrLess(xs[i], xs[j])
  }

  lemma AscendingDistinct(xs: seq<string>, i: nat, j: nat)
    requires Ascending(xs) && i < |xs| && j < |xs| && i != j
    ensures xs[i] != xs[j]
  {
    if i < j {
      StrLessIrreflexive(xs[i]);
    } else {
      StrLessIrreflexive(xs[j]);
    }
  }

  /** Adds `x` to an ascending list unless it is already there. */
  function InsertUnique(s: seq<string>, x: string): (r: seq<string>)
    requires Ascending(s)
    ensures Ascending(r)
    ensures forall y :: y in r <==> y in s || y == x
  {
    if s == [] then [x]
    else if s[0] == x then s
    else if StrLess(x, s[0]) then
      assert Ascending([x] + s) by {
        forall i, j | 0 <= i < j < |[x] + s| ensures StrLess(([x] + s)[i], ([x] + s)[j]) {
          if i == 0 && j > 1 {
            StrLessTransitive(x, s[0], s[j - 1]);
          }
        }
      }
      [x] + s
    else
      StrLessTotal(x, s[0]);
      var rest := InsertUnique(s[1..], x);
      assert forall y :: y in s[1..] ==> StrLess(s[0], y) by {
        forall y | y in s[1..] ensures StrLess(s[0], y) {
          var k :| 0 <= k < |s[1..]| && s[1..][k] == y;
          assert s[k + 1] == y;
        }
      }
      assert Ascending([s[0]] + rest) by {
        forall i, j | 0 <= i < j < |[s[0]] + rest| ensures StrLess(([s[0]] + rest)[i], ([s[0]] + rest)[j]) {
          if i == 0 {
            assert rest[j - 1] in rest;
          } else {
            assert ([s[0]] + rest)[i] == rest[i - 1] && ([s[0]] + rest)[j] == rest[j - 1];
          }
        }
      }
      assert s == [s[0]] + s[1..];
      [s[0]] + rest
  }

  /** `sorted(set(xs))` */
  function SortedUnique(xs: seq<string>): (r: seq<string>)
    ensures Ascending(r)
    ensures forall y :: y in r <==> y in xs
  {
    if xs == [] then []
    else
      var r := InsertUnique(SortedUnique(xs[..|xs| - 1]), xs[|xs| - 1]);
      assert forall y :: y in xs <==> y in xs[..|xs| - 1] || y == xs[|xs| - 1] by {
        assert xs == xs[..|xs| - 1] + [xs[|xs| - 1]];
      }
      r
  }

  /** The position of `x` in a list, assumed present. */
  function IndexOf(xs: seq<string>, x: string): (i: nat)
    requires x in xs
    ensures i < |xs| && xs[i] == x
    ensures forall j :: 0 <= j < i ==> xs[j] != x
  {
    if xs[0] == x then 0 else 1 + IndexOf(xs[1..], x)
  }

  /** On a duplicate-free list, `{v: i for i, v in enumerate(xs)}` inverts indexing both ways. */
  lemma IndexOfInverse(xs: seq<string>, i: nat)
    requires Ascending(xs) && i < |xs|
    ensures IndexOf(xs, xs[i]) == i
  {
    var k := IndexOf(xs, xs[i]);
    if k != i {
      AscendingDistinct(xs, k, i);
    }
  }
}
