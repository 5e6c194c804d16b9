/**
 * Python's insertion-ordered `dict`, as a sequence of key/value pairs.
 * Assigning to an existing key overwrites its value in place; assigning to a
 * new key appends it. Every dictionary the pipeline builds is made with `Set`,
 * so its keys stay distinct. `GroupBy`, `Count` and `IndexBy` are the three
 * ways the source fills a dictionary in a loop: `defaultdict(list)` with
 * append, `Counter` with `+= 1`, and plain assignment keyed by a field.
 */
module Dict {
  import opened Wrappers

  predicate Distinct<T(==)>(s: seq<T>) {
    forall i, j :: 0 <= i < j < |s| ==> s[i] != s[j]
  }

  /** `list(d.keys())` */
  function Keys<K, V>(d: seq<(K, V)>): (ks: seq<K>)
    ensures |ks| == |d|
    ensures forall i :: 0 <= i < |d| ==> ks[i] == d[i].0
  {
    if d == [] then [] else [d[0].0] + Keys(d[1..])
  }

  /** `list(d.values())` */
  function Values<K, V>(d: seq<(K, V)>): (vs: seq<V>)
    ensures |vs| == |d|
    ensures forall i :: 0 <= i < |d| ==> vs[i] == d[i].1
  {
    if d == [] then [] else [d[0].1] + Values(d[1..])
  }

  /** `d.get(k)`: the value stored under `k`, if any. */
  function Get<K(==,!new), V>(d: seq<(K, V)>, k: K): Option<V> {
    if d == [] then None
    else if d[0].0 == k then Some(d[0].1)
    else Get(d[1..], k)
  }

  /** A key has a value exactly when it is one of the keys. */
  lemma {:induction false} GetSome<K(!new), V>(d: seq<(K, V)>, k: K)
    ensures Get(d, k).Some? <==> k in Keys(d)
  {
    if d != [] {
      GetSome(d[1..], k);
      assert Keys(d) == [d[0].0] + Keys(d[1..]);
    }
  }

  /** `d.get(k, default)` */
  function GetOr<K(==,!new), V>(d: seq<(K, V)>, k: K, default: V): V {
    Get(d, k).GetOr(default)
  }

  /** Overwrites the value of every pair whose key is `k`. */
  function Replace<K(==,!new), V>(d: seq<(K, V)>, k: K, v: V): (r: seq<(K, V)>)
    ensures Keys(r) == Keys(d)
  {
    if d == [] then []
    else [if d[0].0 == k then (k, v) else d[0]] + Replace(d[1..], k, v)
  }

  lemma {:induction false} ReplaceGet<K(!new), V>(d: seq<(K, V)>, k: K, v: V, k': K)
    ensures Get(Replace(d, k, v), k') == if k' == k && k in Keys(d) then Some(v) else Get(d, k')
  {
    if d != [] {
      ReplaceGet(d[1..], k, v, k');
      assert Keys(d) == [d[0].0] + Keys(d[1..]);
    }
  }

  lemma {:induction false} AppendGet<K(!new), V>(d: seq<(K, V)>, k: K, v: V, k': K)
    ensures Get(d + [(k, v)], k') == if k' in Keys(d) then Get(d, k') else if k' == k then Some(v) else None
  {
    if d != [] {
      assert (d + [(k, v)])[1..] == d[1..] + [(k, v)];
      AppendGet(d[1..], k, v, k');
      assert Keys(d) == [d[0].0] + Keys(d[1..]);
    }
  }

  /** `d[k] = v` */
  function Set<K(==,!new), V>(d: seq<(K, V)>, k: K, v: V): (r: seq<(K, V)>)
    ensures Keys(r) == if k in Keys(d) then Keys(d) else Keys(d) + [k]
  {
    if k in Keys(d) then Replace(d, k, v)
    else
      assert Keys(d + [(k, v)]) == Keys(d) + [k];
      d + [(k, v)]
  }

  /** Assignment keeps the keys distinct. */
  lemma SetDistinct<K(!new), V>(d: seq<(K, V)>, k: K, v: V)
    requires Distinct(Keys(d))
    ensures Distinct(Keys(Set(d, k, v)))
  {
  }

  /** `d[k] = v` changes the entry of `k` and no other. */
  lemma {:induction false} SetGet<K(!new), V>(d: seq<(K, V)>, k: K, v: V, k': K)
    ensures Get(Set(d, k, v), k') == if k' == k then Some(v) else Get(d, k')
  {
    if k in Keys(d) {
      ReplaceGet(d, k, v, k');
    } else {
      AppendGet(d, k, v, k');
      GetSome(d, k');
    }
  }

  /** Sum of `f` over the values of `d`. */
  function SumOf<K, V>(d: seq<(K, V)>, f: V -> nat): nat {
    if d == [] then 0 else f(d[0].1) + SumOf(d[1..], f)
  }

  lemma {:induction false} SumOfAppend<K(!new), V>(d: seq<(K, V)>, p: (K, V), f: V -> nat)
    ensures SumOf(d + [p], f) == SumOf(d, f) + f(p.1)
  {
    if d != [] {
      assert (d + [p])[1..] == d[1..] + [p];
      SumOfAppend(d[1..], p, f);
    }
  }

  lemma {:induction false} SumOfReplace<K(!new), V>(d: seq<(K, V)>, k: K, v: V, f: V -> nat)
    requires Distinct(Keys(d)) && Get(d, k).Some?
    ensures SumOf(Replace(d, k, v), f) == SumOf(d, f) - f(Get(d, k).value) + f(v)
  {
    GetSome(d, k);
    assert Keys(d) == [d[0].0] + Keys(d[1..]);
    assert Distinct(Keys(d[1..])) by {
      forall i, j | 0 <= i < j < |d[1..]| ensures Keys(d[1..])[i] != Keys(d[1..])[j] {
        assert Keys(d)[i + 1] != Keys(d)[j + 1];
      }
    }
    if d[0].0 == k {
      assert k !in Keys(d[1..]) by {
        forall i | 0 <= i < |d[1..]| ensures Keys(d[1..])[i] != k {
          assert Keys(d)[0] != Keys(d)[i + 1];
        }
      }
      ReplaceKeyAbsent(d[1..], k, v);
    } else {
      GetSome(d[1..], k);
      SumOfReplace(d[1..], k, v, f);
    }
  }

  lemma {:induction false} ReplaceKeyAbsent<K(!new), V>(d: seq<(K, V)>, k: K, v: V)
    requires k !in Keys(d)
    ensures Replace(d, k, v) == d
  {
    if d != [] {
      assert Keys(d) == [d[0].0] + Keys(d[1..]);
      ReplaceKeyAbsent(d[1..], k, v);
    }
  }

  /** How `d[k] = v` changes the sum over the values of a dictionary with distinct keys. */
  lemma {:induction false} SumOfSet<K(!new), V>(d: seq<(K, V)>, k: K, v: V, f: V -> nat)
    requires Distinct(Keys(d))
    ensures SumOf(Set(d, k, v), f) == SumOf(d, f) - (if Get(d, k).Some? then f(Get(d, k).value) else 0) + f(v)
  {
    GetSome(d, k);
    if k in Keys(d) {
      SumOfReplace(d, k, v, f);
    } else {
      SumOfAppend(d, (k, v), f);
    }
  }

  // ----- dictionaries filled by a loop over a list -----

  /** `[x for x in xs if key(x) == k]` */
  function Select<K(==,!new), V>(xs: seq<V>, key: V -> K, k: K): (r: seq<V>)
    ensures |r| <= |xs|
  {
    if xs == [] then []
    else Select(xs[..|xs| - 1], key, k) + (if key(xs[|xs| - 1]) == k then [xs[|xs| - 1]] else [])
  }

  lemma SelectSnoc<K(!new), V>(xs: seq<V>, x: V, key: V -> K, k: K)
    ensures Select(xs + [x], key, k) == Select(xs, key, k) + (if key(x) == k then [x] else [])
  {
    assert (xs + [x])[..|xs|] == xs;
  }

  /** `[x for x in xs if p(x)]` */
  function Filter<V(==,!new)>(xs: seq<V>, p: V -> bool): (r: seq<V>)
    ensures |r| <= |xs|
  {
    if xs == [] then []
    else Filter(xs[..|xs| - 1], p) + (if p(xs[|xs| - 1]) then [xs[|xs| - 1]] else [])
  }

  /** The filtered list holds exactly the elements that pass the test. */
  lemma {:induction false} FilterMember<V(!new)>(xs: seq<V>, p: V -> bool)
    ensures forall x :: x in Filter(xs, p) <==> x in xs && p(x)
  {
    if xs != [] {
      FilterMember(xs[..|xs| - 1], p);
      assert xs == xs[..|xs| - 1] + [xs[|xs| - 1]];
    }
  }

  /** Filtering distributes over concatenation: the kept elements stay in their order. */
  lemma {:induction false} FilterConcat<V(!new)>(xs: seq<V>, ys: seq<V>, p: V -> bool)
    ensures Filter(xs + ys, p) == Filter(xs, p) + Filter(ys, p)
  {
    if ys != [] {
      var n := |ys| - 1;
      var y := ys[n];
      FilterConcat(xs, ys[..n], p);
      assert xs + ys == (xs + ys[..n]) + [y];
      FilterSnoc(xs + ys[..n], y, p);
      FilterSnoc(ys[..n], y, p);
      assert ys == ys[..n] + [y];
    } else {
      assert xs + ys == xs;
    }
  }

  /** A test every element passes keeps the whole list. */
  lemma {:induction false} FilterAll<V(!new)>(xs: seq<V>, p: V -> bool)
    requires forall i :: 0 <= i < |xs| ==> p(xs[i])
    ensures Filter(xs, p) == xs
  {
    if xs != [] {
      var n := |xs| - 1;
      assert forall i :: 0 <= i < n ==> xs[..n][i] == xs[i];
      FilterAll(xs[..n], p);
    }
  }

  predicate ExactlyOne(a: bool, b: bool, c: bool) {
    if a then !b && !c else if b then !c else c
  }

  lemma FilterSnoc<V(!new)>(xs: seq<V>, x: V, p: V -> bool)
    ensures Filter(xs + [x], p) == Filter(xs, p) + (if p(x) then [x] else [])
  {
    assert (xs + [x])[..|xs|] == xs;
  }

  /** When every element satisfies exactly one of three tests, the three selections add up to the whole. */
  lemma {:induction false} FilterPartition3<V(!new)>(xs: seq<V>, p: V -> bool, q: V -> bool, o: V -> bool)
    requires forall i :: 0 <= i < |xs| ==> ExactlyOne(p(xs[i]), q(xs[i]), o(xs[i]))
    ensures |Filter(xs, p)| + |Filter(xs, q)| + |Filter(xs, o)| == |xs|
  {
    if xs != [] {
      var n := |xs| - 1;
      var x := xs[n];
      assert forall i :: 0 <= i < n ==> xs[..n][i] == xs[i];
      FilterPartition3(xs[..n], p, q, o);
      assert |Filter(xs, p)| == |Filter(xs[..n], p)| + (if p(x) then 1 else 0);
      assert |Filter(xs, q)| == |Filter(xs[..n], q)| + (if q(x) then 1 else 0);
      assert |Filter(xs, o)| == |Filter(xs[..n], o)| + (if o(x) then 1 else 0);
      assert ExactlyOne(p(x), q(x), o(x));
    }
  }

  /** A selection of a selection is the selection by both tests. */
  lemma {:induction false} FilterFilter<V(!new)>(xs: seq<V>, p: V -> bool, q: V -> bool, pq: V -> bool)
    requires forall x :: pq(x) == (p(x) && q(x))
    ensures Filter(Filter(xs, p), q) == Filter(xs, pq)
  {
    if xs != [] {
      var n := |xs| - 1;
      FilterFilter(xs[..n], p, q, pq);
      var f := Filter(xs[..n], p);
      if p(xs[n]) {
        assert Filter(xs, p) == f + [xs[n]];
        assert (f + [xs[n]])[..|f|] == f;
      } else {
        assert Filter(xs, p) == f;
      }
    }
  }

  /**
   * `g = defaultdict(list)`, then `g[key(x)].append(x)` for each `x` in `xs`.
   */
  function GroupBy<K(==,!new), V>(xs: seq<V>, key: V -> K): seq<(K, seq<V>)> {
    if xs == [] then []
    else
      var g := GroupBy(xs[..|xs| - 1], key);
      var x := xs[|xs| - 1];
      Set(g, key(x), GetOr(g, key(x), []) + [x])
  }

  /** No key has two groups. */
  lemma {:induction false} GroupByDistinct<K(!new), V>(xs: seq<V>, key: V -> K)
    ensures Distinct(Keys(GroupBy(xs, key)))
  {
    if xs != [] {
      var g := GroupBy(xs[..|xs| - 1], key);
      var x := xs[|xs| - 1];
      GroupByDistinct(xs[..|xs| - 1], key);
      SetDistinct(g, key(x), GetOr(g, key(x), []) + [x]);
    }
  }

  /** Each group holds exactly the elements with its key, in their original order. */
  lemma {:induction false} GroupByGet<K(!new), V>(xs: seq<V>, key: V -> K, k: K)
    ensures Get(GroupBy(xs, key), k) == if Select(xs, key, k) == [] then None else Some(Select(xs, key, k))
  {
    if xs != [] {
      var ys, x := xs[..|xs| - 1], xs[|xs| - 1];
      GroupByGet(ys, key, k);
      var g := GroupBy(ys, key);
      var v := GetOr(g, key(x), []) + [x];
      assert GroupBy(xs, key) == Set(g, key(x), v);
      SetGet(g, key(x), v, k);
      if key(x) == k {
        assert GetOr(g, k, []) == Select(ys, key, k);
        assert Select(xs, key, k) == Select(ys, key, k) + [x];
      } else {
        assert Select(xs, key, k) == Select(ys, key, k);
      }
    }
  }

  /** No group is empty. */
  lemma {:induction false} GroupByNonEmpty<K(!new), V>(xs: seq<V>, key: V -> K, i: nat)
    requires i < |GroupBy(xs, key)|
    ensures GroupBy(xs, key)[i].1 != []
  {
    var g := GroupBy(xs, key);
    var k := g[i].0;
    assert Keys(g)[i] == k;
    GroupByGet(xs, key, k);
    GroupByDistinct(xs, key);
    DistinctGet(g, i);
  }

  lemma {:induction false} DistinctGet<K(!new), V>(d: seq<(K, V)>, i: nat)
    requires Distinct(Keys(d)) && i < |d|
    ensures Get(d, d[i].0) == Some(d[i].1)
  {
    if i > 0 {
      var ks, ks' := Keys(d), Keys(d[1..]);
      assert ks[0] != ks[i];
      assert Distinct(ks') by {
        forall a, b | 0 <= a < b < |ks'| ensures ks'[a] != ks'[b] {
          assert ks'[a] == ks[a + 1] && ks'[b] == ks[b + 1];
        }
      }
      DistinctGet(d[1..], i - 1);
    }
  }

  /** A dict literal `{ks[0]: vs[0], ...}`: the keys paired with the values, in order. */
  function Zip<K, V>(ks: seq<K>, vs: seq<V>): (d: seq<(K, V)>)
    requires |ks| == |vs|
    ensures |d| == |ks| && forall i :: 0 <= i < |d| ==> d[i] == (ks[i], vs[i])
  {
    seq(|ks|, i requires 0 <= i < |ks| => (ks[i], vs[i]))
  }

  /** With distinct keys, each key of a literal reads as its own value. */
  lemma ZipGet<K(!new), V>(ks: seq<K>, vs: seq<V>, j: nat)
    requires |ks| == |vs| && Distinct(ks) && j < |ks|
    ensures Keys(Zip(ks, vs)) == ks
    ensures Get(Zip(ks, vs), ks[j]) == Some(vs[j])
  {
    var d := Zip(ks, vs);
    assert Keys(d) == ks;
    DistinctGet(d, j);
  }

  function Len<V>(s: seq<V>): nat { |s| }

  /** The groups together hold every element once: their sizes add up to `|xs|`. */
  lemma {:induction false} GroupBySizes<K(!new), V>(xs: seq<V>, key: V -> K)
    ensures SumOf(GroupBy(xs, key), Len) == |xs|
  {
    if xs != [] {
      var g := GroupBy(xs[..|xs| - 1], key);
      var x := xs[|xs| - 1];
      GroupBySizes(xs[..|xs| - 1], key);
      GroupByDistinct(xs[..|xs| - 1], key);
      SumOfSet(g, key(x), GetOr(g, key(x), []) + [x], Len);
    }
  }

  function Id(n: nat): nat { n }

  /** `c[k]` on a `Counter`: a missing key counts as 0. */
  function Count<K(==,!new)>(c: seq<(K, nat)>, k: K): nat {
    match Get(c, k)
    case Some(n) => n
    case None => 0
  }

  /** No single count exceeds the total of the counter. */
  lemma {:induction false} CountAtMostSum<K(!new)>(c: seq<(K, nat)>, k: K)
    ensures Count(c, k) <= SumOf(c, Id)
  {
    if c != [] && c[0].0 != k {
      CountAtMostSum(c[1..], k);
    }
  }

  /**
   * `c[k] += n` on a `Counter`: the count of an existing key grows in place,
   * a missing key counts as 0 and is appended.
   */
  function AddTo<K(==,!new)>(c: seq<(K, nat)>, k: K, n: nat): seq<(K, nat)> {
    if c == [] then [(k, n)]
    else if c[0].0 == k then [(k, c[0].1 + n)] + c[1..]
    else [c[0]] + AddTo(c[1..], k, n)
  }

  /** `c[k] += n` keeps the keys and their order, appending `k` when it is new. */
  lemma {:induction false} AddToKeys<K(!new)>(c: seq<(K, nat)>, k: K, n: nat)
    ensures Keys(AddTo(c, k, n)) == if k in Keys(c) then Keys(c) else Keys(c) + [k]
    ensures Distinct(Keys(c)) ==> Distinct(Keys(AddTo(c, k, n)))
  {
    AddToKeyList(c, k, n);
    if Distinct(Keys(c)) && k !in Keys(c) {
      DistinctSnoc(Keys(c), k);
    }
  }

  lemma {:induction false} AddToKeyList<K(!new)>(c: seq<(K, nat)>, k: K, n: nat)
    ensures Keys(AddTo(c, k, n)) == if k in Keys(c) then Keys(c) else Keys(c) + [k]
  {
    if c != [] {
      var r := AddTo(c, k, n);
      assert Keys(c) == [c[0].0] + Keys(c[1..]);
      assert Keys(r) == [r[0].0] + Keys(r[1..]);
      if c[0].0 != k {
        assert r[1..] == AddTo(c[1..], k, n);
        AddToKeyList(c[1..], k, n);
      } else {
        assert r[1..] == c[1..];
      }
    }
  }

  /** Appending a new element keeps a list distinct. */
  lemma DistinctSnoc<T>(s: seq<T>, x: T)
    requires Distinct(s) && x !in s
    ensures Distinct(s + [x])
  {
  }

  /** `c[k] += n` changes the count of `k` and no other. */
  lemma {:induction false} AddToGet<K(!new)>(c: seq<(K, nat)>, k: K, n: nat, k': K)
    ensures Count(AddTo(c, k, n), k) == Count(c, k) + n
    ensures k' != k ==> Get(AddTo(c, k, n), k') == Get(c, k')
  {
    if c != [] && c[0].0 != k {
      AddToGet(c[1..], k, n, k');
      var r := AddTo(c, k, n);
      assert r[0] == c[0] && r[1..] == AddTo(c[1..], k, n);
      assert Get(c, k) == Get(c[1..], k);
      if c[0].0 == k' {
        assert Get(r, k') == Some(c[0].1) == Get(c, k');
      } else {
        assert Get(r, k') == Get(r[1..], k');
        assert Get(c, k') == Get(c[1..], k');
      }
    } else if c != [] {
      var r := AddTo(c, k, n);
      assert r[0] == (k, c[0].1 + n) && r[1..] == c[1..];
      assert Count(c, k) == c[0].1;
      if k' == k {
        assert Get(r, k') == Some(c[0].1 + n);
      } else {
        assert Get(r, k') == Get(r[1..], k');
        assert Get(c, k') == Get(c[1..], k');
      }
    }
  }

  /** Adding `n` to one count adds `n` to the total. */
  lemma {:induction false} AddToSum<K(!new)>(c: seq<(K, nat)>, k: K, n: nat)
    ensures SumOf(AddTo(c, k, n), Id) == SumOf(c, Id) + n
  {
    if c != [] && c[0].0 != k {
      AddToSum(c[1..], k, n);
      assert AddTo(c, k, n)[1..] == AddTo(c[1..], k, n);
    } else if c != [] {
      assert AddTo(c, k, n)[1..] == c[1..];
    } else {
      assert AddTo(c, k, n)[1..] == [];
    }
  }

  /** `c = Counter()`, then `c[key(x)] += 1` for each `x` in `xs`. */
  function CountBy<K(==,!new), V>(xs: seq<V>, key: V -> K): seq<(K, nat)> {
    if xs == [] then []
    else AddTo(CountBy(xs[..|xs| - 1], key), key(xs[|xs| - 1]), 1)
  }

  /** No key is counted twice. */
  lemma {:induction false} CountByDistinct<K(!new), V>(xs: seq<V>, key: V -> K)
    ensures Distinct(Keys(CountBy(xs, key)))
  {
    if xs != [] {
      CountByDistinct(xs[..|xs| - 1], key);
      AddToKeys(CountBy(xs[..|xs| - 1], key), key(xs[|xs| - 1]), 1);
    }
  }

  lemma {:induction false} CountByGet<K(!new), V>(xs: seq<V>, key: V -> K, k: K)
    ensures Count(CountBy(xs, key), k) == |Select(xs, key, k)|
    ensures k in Keys(CountBy(xs, key)) <==> Select(xs, key, k) != []
  {
    if xs != [] {
      var ys, x := xs[..|xs| - 1], xs[|xs| - 1];
      CountByGet(ys, key, k);
      var c := CountBy(ys, key);
      assert CountBy(xs, key) == AddTo(c, key(x), 1);
      AddToGet(c, key(x), 1, k);
      AddToKeys(c, key(x), 1);
      if key(x) == k {
        assert Select(xs, key, k) == Select(ys, key, k) + [x];
      } else {
        assert Select(xs, key, k) == Select(ys, key, k);
        assert Count(AddTo(c, key(x), 1), k) == Count(c, k);
      }
    }
  }

  /** Every stored count is at least 1. */
  lemma {:induction false} CountByPositive<K(!new), V>(xs: seq<V>, key: V -> K, i: nat)
    requires i < |CountBy(xs, key)|
    ensures CountBy(xs, key)[i].1 >= 1
  {
    var c := CountBy(xs, key);
    CountByDistinct(xs, key);
    DistinctGet(c, i);
    CountByGet(xs, key, c[i].0);
    assert Keys(c)[i] == c[i].0;
  }

  /** The counts add up to the number of elements counted. */
  lemma {:induction false} CountByTotal<K(!new), V>(xs: seq<V>, key: V -> K)
    ensures SumOf(CountBy(xs, key), Id) == |xs|
  {
    if xs != [] {
      CountByTotal(xs[..|xs| - 1], key);
      AddToSum(CountBy(xs[..|xs| - 1], key), key(xs[|xs| - 1]), 1);
    }
  }

  lemma CountBySnoc<K(!new), V>(xs: seq<V>, x: V, key: V -> K)
    ensures CountBy(xs + [x], key) == AddTo(CountBy(xs, key), key(x), 1)
  {
    assert (xs + [x])[..|xs|] == xs;
  }

  /** Two tests that agree on every element select the same sub-list. */
  lemma {:induction false} FilterCongruent<V(!new)>(xs: seq<V>, p: V -> bool, q: V -> bool)
    requires forall i :: 0 <= i < |xs| ==> p(xs[i]) == q(xs[i])
    ensures Filter(xs, p) == Filter(xs, q)
  {
    if xs != [] {
      var n := |xs| - 1;
      assert forall i :: 0 <= i < n ==> xs[..n][i] == xs[i];
      FilterCongruent(xs[..n], p, q);
      var x := xs[n];
      assert Filter(xs, p) == Filter(xs[..n], p) + (if p(x) then [x] else []);
      assert Filter(xs, q) == Filter(xs[..n], q) + (if q(x) then [x] else []);
    }
  }

  /** The last element of `xs` whose key is `k`. */
  function LastWith<K(==,!new), V>(xs: seq<V>, key: V -> K, k: K): (r: Option<V>)
    ensures r.Some? ==>
      exists i :: 0 <= i < |xs| && xs[i] == r.value && key(xs[i]) == k && forall j :: i < j < |xs| ==> key(xs[j]) != k
    ensures r.None? ==> forall i :: 0 <= i < |xs| ==> key(xs[i]) != k
  {
    if xs == [] then None
    else if key(xs[|xs| - 1]) == k then Some(xs[|xs| - 1])
    else
      var r := LastWith(xs[..|xs| - 1], key, k);
      assert forall i :: 0 <= i < |xs| - 1 ==> xs[..|xs| - 1][i] == xs[i];
      r
  }

  /** `d = {}`, then `d[key(x)] = x` for each `x` in `xs`. */
  function IndexBy<K(==,!new), V>(xs: seq<V>, key: V -> K): seq<(K, V)> {
    if xs == [] then []
    else Set(IndexBy(xs[..|xs| - 1], key), key(xs[|xs| - 1]), xs[|xs| - 1])
  }

  /** No key is stored twice. */
  lemma {:induction false} IndexByDistinct<K(!new), V>(xs: seq<V>, key: V -> K)
    ensures Distinct(Keys(IndexBy(xs, key)))
  {
    if xs != [] {
      IndexByDistinct(xs[..|xs| - 1], key);
      SetDistinct(IndexBy(xs[..|xs| - 1], key), key(xs[|xs| - 1]), xs[|xs| - 1]);
    }
  }

  /** One more element: the loop step that the fold of `IndexBy` takes last. */
  lemma IndexBySnoc<K(!new), V>(xs: seq<V>, x: V, key: V -> K)
    ensures IndexBy(xs + [x], key) == Set(IndexBy(xs, key), key(x), x)
  {
    assert (xs + [x])[..|xs|] == xs;
  }

  lemma GroupBySnoc<K(!new), V>(xs: seq<V>, x: V, key: V -> K)
    ensures GroupBy(xs + [x], key) == Set(GroupBy(xs, key), key(x), GetOr(GroupBy(xs, key), key(x), []) + [x])
  {
    assert (xs + [x])[..|xs|] == xs;
  }

  /** Every stored value is one of the listed elements. */
  lemma IndexByValues<K(!new), V>(xs: seq<V>, key: V -> K)
    ensures forall i :: 0 <= i < |IndexBy(xs, key)| ==> IndexBy(xs, key)[i].1 in xs
  {
    var d := IndexBy(xs, key);
    IndexByDistinct(xs, key);
    forall i | 0 <= i < |d| ensures d[i].1 in xs {
      DistinctGet(d, i);
      IndexByGet(xs, key, d[i].0);
    }
  }

  /** Every element's key has a group. */
  lemma {:induction false} GroupByKeys<K(!new), V>(xs: seq<V>, key: V -> K)
    ensures forall i :: 0 <= i < |xs| ==> key(xs[i]) in Keys(GroupBy(xs, key))
  {
    if xs != [] {
      var ys := xs[..|xs| - 1];
      GroupByKeys(ys, key);
      assert forall i :: 0 <= i < |ys| ==> xs[i] == ys[i];
    }
  }

  /** Keying by a field keeps the last element with each key: a later duplicate overwrites. */
  lemma {:induction false} IndexByGet<K(!new), V>(xs: seq<V>, key: V -> K, k: K)
    ensures Get(IndexBy(xs, key), k) == LastWith(xs, key, k)
  {
    if xs != [] {
      var ys, x := xs[..|xs| - 1], xs[|xs| - 1];
      IndexByGet(ys, key, k);
      SetGet(IndexBy(ys, key), key(x), x, k);
    }
  }
}
