/** Sums and filters over sequences: the source's `reduce`, `forEach` accumulators and `filter`. */
module Collections {

  /** The sum of `f` over `s`, accumulated left to right like `reduce((acc, x) => acc + f(x), 0)`. */
  function Sum<T>(s: seq<T>, f: T -> real): real
    decreases |s|
  {
    if s == [] then 0.0 else Sum(s[..|s| - 1], f) + f(s[|s| - 1])
  }

  lemma {:induction false} SumConcat<T>(a: seq<T>, b: seq<T>, f: T -> real)
    ensures Sum(a + b, f) == Sum(a, f) + Sum(b, f)
    decreases |b|
  {
    if b == [] {
      assert a + b == a;
    } else {
      assert (a + b)[..|a + b| - 1] == a + b[..|b| - 1];
      SumConcat(a, b[..|b| - 1], f);
    }
  }

  lemma {:induction false} SumSnoc<T>(s: seq<T>, x: T, f: T -> real)
    ensures Sum(s + [x], f) == Sum(s, f) + f(x)
  {
    assert (s + [x])[..|s|] == s;
  }

  lemma {:induction false} SumCons<T>(x: T, s: seq<T>, f: T -> real)
    ensures Sum([x] + s, f) == f(x) + Sum(s, f)
  {
    SumConcat([x], s, f);
    assert [x][..0] == [];
  }

  lemma {:induction false} SumNonNegative<T>(s: seq<T>, f: T -> real)
    requires forall i :: 0 <= i < |s| ==> f(s[i]) >= 0.0
    ensures Sum(s, f) >= 0.0
    decreases |s|
  {
    if s != [] {
      SumNonNegative(s[..|s| - 1], f);
    }
  }

  /** Two sequences that agree element-wise under `f` and `g` have equal sums. */
  lemma {:induction false} SumPointwise<T, U>(s: seq<T>, f: T -> real, t: seq<U>, g: U -> real)
    requires |s| == |t|
    requires forall i :: 0 <= i < |s| ==> f(s[i]) == g(t[i])
    ensures Sum(s, f) == Sum(t, g)
    decreases |s|
  {
    if s != [] {
      SumPointwise(s[..|s| - 1], f, t[..|t| - 1], g);
    }
  }

  /** Replacing the element at `k` changes the sum by the change in that element's term. */
  lemma {:induction false} SumReplace<T>(s: seq<T>, k: nat, x: T, f: T -> real)
    requires k < |s|
    ensures Sum(s[k := x], f) == Sum(s, f) - f(s[k]) + f(x)
  {
    var a, b := s[..k], s[k + 1..];
    assert s == a + [s[k]] + b;
    assert s[k := x] == a + [x] + b;
    SumConcat(a + [s[k]], b, f);
    SumConcat(a + [x], b, f);
    SumSnoc(a, s[k], f);
    SumSnoc(a, x, f);
  }

  /** Removing the element at `k` takes its term out of the sum. */
  lemma {:induction false} SumRemove<T>(s: seq<T>, k: nat, f: T -> real)
    requires k < |s|
    ensures Sum(s[..k] + s[k + 1..], f) == Sum(s, f) - f(s[k])
  {
    var a, b := s[..k], s[k + 1..];
    assert s == a + [s[k]] + b;
    SumConcat(a + [s[k]], b, f);
    SumSnoc(a, s[k], f);
    SumConcat(a, b, f);
  }

  /** A sum of terms that are all `c` times another term is `c` times the other sum. */
  lemma {:induction false} SumScaled<T>(s: seq<T>, f: T -> real, g: T -> real, c: real)
    requires forall i :: 0 <= i < |s| ==> f(s[i]) == c * g(s[i])
    ensures Sum(s, f) == c * Sum(s, g)
    decreases |s|
  {
    if s != [] {
      SumScaled(s[..|s| - 1], f, g, c);
    }
  }

  /** Two sequences whose terms agree up to a factor `c`, element by element, have sums
      that agree up to `c`. */
  lemma {:induction false} SumScaledPointwise<T, U>(s: seq<T>, f: T -> real, t: seq<U>, g: U -> real, c: real)
    requires |s| == |t|
    requires forall i :: 0 <= i < |s| ==> f(s[i]) == c * g(t[i])
    ensures Sum(s, f) == c * Sum(t, g)
    decreases |s|
  {
    if s != [] {
      SumScaledPointwise(s[..|s| - 1], f, t[..|t| - 1], g, c);
    }
  }

  /** The elements of `s` that satisfy `p`, in their original order. */
  function Filter<T(!new)>(s: seq<T>, p: T -> bool): (r: seq<T>)
    ensures |r| <= |s|
    ensures forall x :: x in r <==> x in s && p(x)
    ensures forall i :: 0 <= i < |r| ==> p(r[i])
  {
    if s == [] then []
    else
      assert s == [s[0]] + s[1..];
      if p(s[0]) then [s[0]] + Filter(s[1..], p) else Filter(s[1..], p)
  }

  lemma {:induction false} FilterConcat<T(!new)>(a: seq<T>, b: seq<T>, p: T -> bool)
    ensures Filter(a + b, p) == Filter(a, p) + Filter(b, p)
  {
    if a != [] {
      var rest := Filter(a[1..], p);
      assert (a + b)[0] == a[0];
      assert (a + b)[1..] == a[1..] + b;
      FilterConcat(a[1..], b, p);
      if p(a[0]) {
        assert Filter(a + b, p) == [a[0]] + (rest + Filter(b, p));
        assert Filter(a, p) == [a[0]] + rest;
      } else {
        assert Filter(a + b, p) == rest + Filter(b, p);
      }
    } else {
      assert a + b == b;
    }
  }

  /** Filtering a list with one more element at its end. */
  lemma {:induction false} FilterSnoc<T(!new)>(s: seq<T>, x: T, p: T -> bool)
    ensures Filter(s + [x], p) == Filter(s, p) + (if p(x) then [x] else [])
  {
    FilterConcat(s, [x], p);
    assert [x][1..] == [];
  }

  /** Filtering with a predicate every element satisfies changes nothing. */
  lemma {:induction false} FilterAll<T(!new)>(s: seq<T>, p: T -> bool)
    requires forall i :: 0 <= i < |s| ==> p(s[i])
    ensures Filter(s, p) == s
  {
    if s != [] {
      FilterAll(s[1..], p);
    }
  }

  /** Filters with predicates that agree everywhere give the same list. */
  lemma {:induction false} FilterPointwise<T(!new)>(s: seq<T>, p: T -> bool, q: T -> bool)
    requires forall x :: p(x) == q(x)
    ensures Filter(s, p) == Filter(s, q)
  {
    if s != [] {
      FilterPointwise(s[1..], p, q);
    }
  }

  /** Filtering by `p` and then by `q` is filtering once by their conjunction `pq`. */
  lemma {:induction false} FilterFilter<T(!new)>(s: seq<T>, p: T -> bool, q: T -> bool, pq: T -> bool)
    requires forall x :: pq(x) == (p(x) && q(x))
    ensures Filter(Filter(s, p), q) == Filter(s, pq)
  {
    if s != [] {
      var rest := Filter(s[1..], p);
      FilterFilter(s[1..], p, q, pq);
      if p(s[0]) {
        assert Filter(s, p) == [s[0]] + rest;
        assert ([s[0]] + rest)[1..] == rest;
      }
    }
  }

  /** A filter keeps a sub-multiset of its input. */
  lemma {:induction false} FilterSubMultiset<T(!new)>(s: seq<T>, p: T -> bool)
    ensures multiset(Filter(s, p)) <= multiset(s)
  {
    if s != [] {
      var rest := Filter(s[1..], p);
      FilterSubMultiset(s[1..], p);
      assert s == [s[0]] + s[1..];
      assert multiset(s) == multiset{s[0]} + multiset(s[1..]);
      if p(s[0]) {
        assert Filter(s, p) == [s[0]] + rest;
        assert multiset(Filter(s, p)) == multiset{s[0]} + multiset(rest);
      } else {
        assert Filter(s, p) == rest;
      }
    }
  }

  /** A filter keeps every element that passes as often as it occurs, and drops every
      element that fails. */
  lemma {:induction false} FilterCount<T(!new)>(s: seq<T>, p: T -> bool, x: T)
    ensures multiset(Filter(s, p))[x] == if p(x) then multiset(s)[x] else 0
  {
    if s != [] {
      var rest := Filter(s[1..], p);
      FilterCount(s[1..], p, x);
      assert s == [s[0]] + s[1..];
      assert multiset(s) == multiset{s[0]} + multiset(s[1..]);
      if p(s[0]) {
        assert Filter(s, p) == [s[0]] + rest;
        assert multiset(Filter(s, p)) == multiset{s[0]} + multiset(rest);
      } else {
        assert Filter(s, p) == rest;
      }
    }
  }

  /** Filtering with a predicate no element satisfies leaves nothing. */
  lemma {:induction false} FilterNone<T(!new)>(s: seq<T>, p: T -> bool)
    requires forall i :: 0 <= i < |s| ==> !p(s[i])
    ensures Filter(s, p) == []
  {
    if s != [] {
      FilterNone(s[1..], p);
    }
  }

  /** Lists with the same elements keep the same elements under a filter. */
  lemma {:induction false} FilterSameMultiset<T(!new)>(a: seq<T>, b: seq<T>, p: T -> bool)
    requires multiset(a) == multiset(b)
    ensures multiset(Filter(a, p)) == multiset(Filter(b, p))
    ensures |Filter(a, p)| == |Filter(b, p)|
  {
    forall x
      ensures multiset(Filter(a, p))[x] == multiset(Filter(b, p))[x]
    {
      FilterCount(a, p, x);
      FilterCount(b, p, x);
    }
    assert multiset(Filter(a, p)) == multiset(Filter(b, p));
    assert |multiset(Filter(a, p))| == |Filter(a, p)|;
  }

  /** `list.map(x => x.id === id ? f(x) : x)`, where `key` reads the id. */
  function MapWhereId<T, K(==)>(s: seq<T>, key: T -> K, id: K, f: T -> T): (r: seq<T>)
    ensures |r| == |s|
    ensures forall i :: 0 <= i < |s| ==> r[i] == if key(s[i]) == id then f(s[i]) else s[i]
  {
    if s == [] then []
    else [if key(s[0]) == id then f(s[0]) else s[0]] + MapWhereId(s[1..], key, id, f)
  }

  /** No two elements share a key. */
  predicate UniqueKeys<T, K(==)>(s: seq<T>, key: T -> K) {
    forall i, j :: 0 <= i < j < |s| ==> key(s[i]) != key(s[j])
  }

  /** With unique keys, mapping over the key of position `k` rewrites that position alone. */
  lemma {:induction false} MapWhereIdAt<T, K>(s: seq<T>, key: T -> K, k: nat, f: T -> T)
    requires k < |s| && UniqueKeys(s, key)
    ensures MapWhereId(s, key, key(s[k]), f) == s[k := f(s[k])]
  {
    var r := MapWhereId(s, key, key(s[k]), f);
    forall i | 0 <= i < |s|
      ensures r[i] == s[k := f(s[k])][i]
    {
      if i < k {
        assert key(s[i]) != key(s[k]);
      } else if k < i {
        assert key(s[k]) != key(s[i]);
      }
    }
  }

  /** `f` where `p` holds and 0 elsewhere. */
  function Masked<T>(p: T -> bool, f: T -> real): T -> real {
    (x: T) => if p(x) then f(x) else 0.0
  }

  /** Summing over the filtered list is summing `f` masked by the predicate. */
  lemma {:induction false} SumFilter<T(!new)>(s: seq<T>, p: T -> bool, f: T -> real)
    ensures Sum(Filter(s, p), f) == Sum(s, Masked(p, f))
    decreases |s|
  {
    if s != [] {
      var init, last := s[..|s| - 1], s[|s| - 1];
      assert s == init + [last];
      SumFilter(init, p, f);
      FilterSnoc(init, last, p);
      if p(last) {
        SumSnoc(Filter(init, p), last, f);
      } else {
        assert Filter(init, p) + [] == Filter(init, p);
      }
    }
  }
}
