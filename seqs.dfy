/**
 * The array and string primitives the application is built from, as pure functions:
 * `Array.prototype.filter`, `find`, the stable `sort` with a numeric comparator,
 * `String.prototype.includes`, and the running sum a `forEach` accumulates.
 */
module Seqs {
  import opened Wrappers

  // ---------------------------------------------------------------------------
  // filter

  /** `s.filter(p)`: the elements satisfying `p`, in their original order. */
  function Filter<T>(s: seq<T>, p: T -> bool): (r: seq<T>)
    ensures |r| <= |s|
    ensures forall i :: 0 <= i < |r| ==> r[i] in s && p(r[i])
    ensures forall i :: 0 <= i < |s| && p(s[i]) ==> s[i] in r
  {
    if s == [] then [] else (if p(s[0]) then [s[0]] else []) + Filter(s[1..], p)
  }

  lemma {:induction false} FilterAppend<T>(a: seq<T>, b: seq<T>, p: T -> bool)
    ensures Filter(a + b, p) == Filter(a, p) + Filter(b, p)
  {
    if a == [] {
      assert a + b == b;
    } else {
      assert (a + b)[0] == a[0];
      assert (a + b)[1..] == a[1..] + b;
      FilterAppend(a[1..], b, p);
    }
  }

  /** Filtering a second time with the same predicate removes nothing more. */
  lemma {:induction false} FilterIdempotent<T>(s: seq<T>, p: T -> bool)
    ensures Filter(Filter(s, p), p) == Filter(s, p)
  {
    if s != [] {
      FilterIdempotent(s[1..], p);
      FilterAppend(if p(s[0]) then [s[0]] else [], Filter(s[1..], p), p);
      if p(s[0]) {
        assert Filter([s[0]], p) == [s[0]] by {
          assert [s[0]][1..] == [];
        }
      }
    }
  }

  /** A filter that every element passes returns the sequence itself. */
  lemma {:induction false} FilterKeepsAll<T>(s: seq<T>, p: T -> bool)
    requires forall i :: 0 <= i < |s| ==> p(s[i])
    ensures Filter(s, p) == s
  {
    if s != [] {
      FilterKeepsAll(s[1..], p);
    }
  }

  /** A filter that no element passes returns nothing. */
  lemma {:induction false} FilterKeepsNone<T>(s: seq<T>, p: T -> bool)
    requires forall i :: 0 <= i < |s| ==> !p(s[i])
    ensures Filter(s, p) == []
  {
    if s != [] {
      FilterKeepsNone(s[1..], p);
    }
  }

  /**
   * The filtered elements keep their relative order: each one stands at a position of
   * `s`, and the positions strictly increase.
   */
  lemma {:induction false} FilterKeepsOrder<T>(s: seq<T>, p: T -> bool) returns (idx: seq<nat>)
    ensures |idx| == |Filter(s, p)|
    ensures forall k :: 0 <= k < |idx| ==> idx[k] < |s| && Filter(s, p)[k] == s[idx[k]]
    ensures forall k, l :: 0 <= k < l < |idx| ==> idx[k] < idx[l]
  {
    if s == [] {
      idx := [];
    } else {
      var rest := FilterKeepsOrder(s[1..], p);
      var f := Filter(s[1..], p);
      TailPositions(s, f, rest);
      FilterCons(s, p);
      if p(s[0]) {
        idx := KeptHeadIndices(s, f, rest, Filter(s, p));
      } else {
        idx := DroppedHeadIndices(s, f, rest, Filter(s, p));
      }
    }
  }

  /** One step of the filter: the head, if kept, in front of the filtered tail. */
  lemma FilterCons<T>(s: seq<T>, p: T -> bool)
    requires s != []
    ensures p(s[0]) ==> Filter(s, p) == [s[0]] + Filter(s[1..], p)
    ensures !p(s[0]) ==> Filter(s, p) == Filter(s[1..], p)
  {
  }

  /** The step of `FilterKeepsOrder` when the head is dropped: the tail's positions, moved on. */
  lemma DroppedHeadIndices<T>(s: seq<T>, f: seq<T>, rest: seq<nat>, r: seq<T>) returns (idx: seq<nat>)
    requires |rest| == |f| && r == f
    requires forall k :: 0 <= k < |rest| ==> rest[k] + 1 < |s| && f[k] == s[rest[k] + 1]
    requires forall k, l :: 0 <= k < l < |rest| ==> rest[k] < rest[l]
    ensures |idx| == |r|
    ensures forall k :: 0 <= k < |idx| ==> idx[k] < |s| && r[k] == s[idx[k]]
    ensures forall k, l :: 0 <= k < l < |idx| ==> idx[k] < idx[l]
  {
    idx := Shifted(rest);
  }

  /** Positions in the tail, read in the whole sequence one place on. */
  lemma TailPositions<T>(s: seq<T>, f: seq<T>, rest: seq<nat>)
    requires s != [] && |rest| == |f|
    requires forall k :: 0 <= k < |rest| ==> rest[k] < |s[1..]| && f[k] == s[1..][rest[k]]
    ensures forall k :: 0 <= k < |rest| ==> rest[k] + 1 < |s| && f[k] == s[rest[k] + 1]
  {
  }

  /** The step of `FilterKeepsOrder` when the head is kept: its position in front of the tail's, moved on. */
  lemma KeptHeadIndices<T>(s: seq<T>, f: seq<T>, rest: seq<nat>, r: seq<T>) returns (idx: seq<nat>)
    requires s != [] && |rest| == |f| && r == [s[0]] + f
    requires forall k :: 0 <= k < |rest| ==> rest[k] + 1 < |s| && f[k] == s[rest[k] + 1]
    requires forall k, l :: 0 <= k < l < |rest| ==> rest[k] < rest[l]
    ensures |idx| == |r|
    ensures forall k :: 0 <= k < |idx| ==> idx[k] < |s| && r[k] == s[idx[k]]
    ensures forall k, l :: 0 <= k < l < |idx| ==> idx[k] < idx[l]
  {
    idx := [0] + Shifted(rest);
    forall k | 0 < k < |idx|
      ensures idx[k] == rest[k - 1] + 1 && r[k] == f[k - 1]
    {
    }
  }

  /** Every position moved one place on. */
  function Shifted(xs: seq<nat>): (r: seq<nat>)
    ensures |r| == |xs|
    ensures forall k :: 0 <= k < |r| ==> r[k] == xs[k] + 1
  {
    if xs == [] then [] else [xs[0] + 1] + Shifted(xs[1..])
  }

  /**
   * For permutations `a` and `b`: the head of `a` stands at some position `i` of `b`,
   * and the rest of `a` is a permutation of `b` without that position.
   */
  lemma MatchHead<T>(a: seq<T>, b: seq<T>) returns (i: nat)
    requires a != [] && multiset(a) == multiset(b)
    ensures i < |b| && b[i] == a[0]
    ensures b == (b[..i] + [a[0]]) + b[i + 1..]
    ensures multiset(a[1..]) == multiset(b[..i] + b[i + 1..])
  {
    i := IndexOf(b, a[0]);
    RemoveOne(b, i);
    RemoveHead(a);
  }

  /** A value of the multiset stands at some position. */
  lemma IndexOf<T>(b: seq<T>, x: T) returns (i: nat)
    requires x in multiset(b)
    ensures i < |b| && b[i] == x
  {
    var j :| 0 <= j < |b| && b[j] == x;
    i := j;
  }

  /** Taking out the element at `i` takes exactly one copy of it out of the multiset. */
  lemma RemoveOne<T>(b: seq<T>, i: nat)
    requires i < |b|
    ensures b == (b[..i] + [b[i]]) + b[i + 1..]
    ensures multiset(b[..i] + b[i + 1..]) == multiset(b) - multiset{b[i]}
  {
    assert b == b[..i] + [b[i]] + b[i + 1..];
  }

  lemma RemoveHead<T>(a: seq<T>)
    requires a != []
    ensures multiset(a[1..]) == multiset(a) - multiset{a[0]}
  {
    assert a == [a[0]] + a[1..];
  }

  /** Some element satisfies `p` iff the head does or some element of the tail does. */
  lemma ExistsCons<T>(s: seq<T>, p: T -> bool)
    requires s != []
    ensures (exists i :: 0 <= i < |s| && p(s[i])) <==> p(s[0]) || exists i :: 0 <= i < |s[1..]| && p(s[1..][i])
  {
    if exists i :: 0 <= i < |s[1..]| && p(s[1..][i]) {
      var i :| 0 <= i < |s[1..]| && p(s[1..][i]);
      assert s[i + 1] == s[1..][i];
    }
    if exists i :: 0 <= i < |s| && p(s[i]) {
      var i :| 0 <= i < |s| && p(s[i]);
      if i > 0 {
        assert s[1..][i - 1] == s[i];
      }
    }
  }

  /** Filtering keeps each accepted value as often as it occurs, and no rejected one. */
  lemma {:induction false} FilterCount<T>(s: seq<T>, p: T -> bool, x: T)
    ensures multiset(Filter(s, p))[x] == if p(x) then multiset(s)[x] else 0
  {
    if s != [] {
      FilterCount(s[1..], p, x);
      assert s == [s[0]] + s[1..];
    }
  }

  /** Filtering commutes with reordering: permuted inputs give permuted outputs. */
  lemma {:induction false} FilterPermutation<T>(a: seq<T>, b: seq<T>, p: T -> bool)
    requires multiset(a) == multiset(b)
    ensures multiset(Filter(a, p)) == multiset(Filter(b, p))
    decreases |a|
  {
    if a == [] {
      assert |b| == |multiset(b)| == 0;
    } else {
      var x := a[0];
      var i := MatchHead(a, b);
      var b' := b[..i] + b[i + 1..];
      FilterPermutation(a[1..], b', p);
      var fx := Filter([x], p);
      calc {
        multiset(Filter(a, p));
        { assert a == [x] + a[1..]; FilterAppend([x], a[1..], p); }
        multiset(fx + Filter(a[1..], p));
        multiset(fx) + multiset(Filter(b', p));
        { FilterAppend(b[..i], b[i + 1..], p); }
        multiset(fx) + multiset(Filter(b[..i], p) + Filter(b[i + 1..], p));
        multiset((Filter(b[..i], p) + fx) + Filter(b[i + 1..], p));
        { FilterAppend(b[..i], [x], p); FilterAppend(b[..i] + [x], b[i + 1..], p); }
        multiset(Filter(b, p));
      }
    }
  }

  // ---------------------------------------------------------------------------
  // find

  /** The position of the first element satisfying `p` (`findIndex`), if any. */
  function FindIndex<T>(s: seq<T>, p: T -> bool): (r: Option<nat>)
    ensures r.Some? ==> r.value < |s| && p(s[r.value])
    ensures r.Some? ==> forall j :: 0 <= j < r.value ==> !p(s[j])
    ensures r.None? <==> forall j :: 0 <= j < |s| ==> !p(s[j])
  {
    if s == [] then None
    else if p(s[0]) then Some(0)
    else match FindIndex(s[1..], p)
      case None => None
      case Some(k) => Some(k + 1)
  }

  /** `s.find(p)`: the first element satisfying `p`, or none. */
  function Find<T>(s: seq<T>, p: T -> bool): (r: Option<T>)
    ensures r.None? <==> forall j :: 0 <= j < |s| ==> !p(s[j])
    ensures r.Some? ==> r.value in s && p(r.value)
  {
    match FindIndex(s, p)
    case None => None
    case Some(i) => Some(s[i])
  }

  /** The element `find` returns is the one at the first matching position. */
  lemma FindIsFirst<T>(s: seq<T>, p: T -> bool, i: nat)
    requires i < |s| && p(s[i])
    requires forall j :: 0 <= j < i ==> !p(s[j])
    ensures Find(s, p) == Some(s[i])
  {
  }

  /** Searching `[x] + t` finds `x` when it matches and otherwise searches `t`. */
  lemma FindCons<T>(x: T, t: seq<T>, q: T -> bool)
    ensures Find([x] + t, q) == if q(x) then Some(x) else Find(t, q)
  {
    if q(x) {
      FindIsFirst([x] + t, q, 0);
    } else {
      match FindIndex(t, q)
      case Some(k) =>
        assert ([x] + t)[k + 1] == t[k];
        FindIsFirst([x] + t, q, k + 1);
        FindIsFirst(t, q, k);
      case None =>
        assert forall j :: 0 <= j < |[x] + t| ==> !q(([x] + t)[j]) by {
          forall j | 0 <= j < |[x] + t| ensures !q(([x] + t)[j]) {
            if j > 0 { assert ([x] + t)[j] == t[j - 1]; }
          }
        }
    }
  }

  /** When no element of `b` matches, searching `a + b` is searching `a`. */
  lemma FindAppendMiss<T>(a: seq<T>, b: seq<T>, p: T -> bool)
    requires forall i :: 0 <= i < |b| ==> !p(b[i])
    ensures Find(a + b, p) == Find(a, p)
  {
    match FindIndex(a, p)
    case Some(k) =>
      assert (a + b)[k] == a[k];
      FindIsFirst(a + b, p, k);
      FindIsFirst(a, p, k);
    case None =>
      assert forall j :: 0 <= j < |a + b| ==> !p((a + b)[j]) by {
        forall j | 0 <= j < |a + b| ensures !p((a + b)[j]) {
          if j < |a| { assert (a + b)[j] == a[j]; } else { assert (a + b)[j] == b[j - |a|]; }
        }
      }
  }

  /** Where every match of `q` passes `p`, filtering by `p` first does not change the first match of `q`. */
  lemma {:induction false} FindThroughFilter<T>(s: seq<T>, p: T -> bool, q: T -> bool)
    requires forall i :: 0 <= i < |s| && q(s[i]) ==> p(s[i])
    ensures Find(Filter(s, p), q) == Find(s, q)
  {
    if s != [] {
      assert s == [s[0]] + s[1..];
      FindThroughFilter(s[1..], p, q);
      FindCons(s[0], s[1..], q);
      if p(s[0]) {
        FindCons(s[0], Filter(s[1..], p), q);
      } else {
        assert Filter(s, p) == Filter(s[1..], p);
      }
    }
  }

  // ---------------------------------------------------------------------------
  // sum

  /** The total a `forEach` accumulates when it adds `f(e)` for each element `e`. */
  function Sum<T>(s: seq<T>, f: T -> real): real
  {
    if s == [] then 0.0 else Sum(s[..|s| - 1], f) + f(s[|s| - 1])
  }

  lemma {:induction false} SumAppend<T>(a: seq<T>, b: seq<T>, f: T -> real)
    ensures Sum(a + b, f) == Sum(a, f) + Sum(b, f)
    decreases |b|
  {
    if b == [] {
      assert a + b == a;
    } else {
      assert (a + b)[..|a + b| - 1] == a + b[..|b| - 1];
      assert (a + b)[|a + b| - 1] == b[|b| - 1];
      SumAppend(a, b[..|b| - 1], f);
    }
  }

  /** The accumulated total does not depend on the order of the elements. */
  lemma {:induction false} SumPermutation<T>(a: seq<T>, b: seq<T>, f: T -> real)
    requires multiset(a) == multiset(b)
    ensures Sum(a, f) == Sum(b, f)
    decreases |a|
  {
    if a == [] {
      assert |b| == |multiset(b)| == 0;
    } else {
      var x := a[0];
      var i := MatchHead(a, b);
      var b' := b[..i] + b[i + 1..];
      SumPermutation(a[1..], b', f);
      assert Sum([x], f) == f(x) by {
        assert [x][..0] == [];
      }
      calc {
        Sum(a, f);
        { assert a == [x] + a[1..]; SumAppend([x], a[1..], f); }
        f(x) + Sum(b', f);
        { SumAppend(b[..i], b[i + 1..], f); }
        f(x) + Sum(b[..i], f) + Sum(b[i + 1..], f);
        { SumAppend(b[..i], [x], f); SumAppend(b[..i] + [x], b[i + 1..], f); }
        Sum(b, f);
      }
    }
  }

  /** A total of terms each within [lo, hi] lies within [|s|·lo, |s|·hi]. */
  lemma {:induction false} SumBounds<T>(s: seq<T>, f: T -> real, lo: real, hi: real)
    requires forall i :: 0 <= i < |s| ==> lo <= f(s[i]) <= hi
    ensures |s| as real * lo <= Sum(s, f) <= |s| as real * hi
  {
    if s != [] {
      var n := |s| - 1;
      SumBounds(s[..n], f, lo, hi);
      assert |s| as real * lo == n as real * lo + lo;
      assert |s| as real * hi == n as real * hi + hi;
    }
  }

  /** Termwise `0 <= f <= g` carries over to the totals. */
  lemma {:induction false} SumDominated<T>(s: seq<T>, f: T -> real, g: T -> real)
    requires forall i :: 0 <= i < |s| ==> 0.0 <= f(s[i]) <= g(s[i])
    ensures 0.0 <= Sum(s, f) <= Sum(s, g)
  {
    if s != [] {
      SumDominated(s[..|s| - 1], f, g);
    }
  }

  /** The mean of terms each within [lo, hi] lies within [lo, hi]. */
  lemma MeanBetween<T>(s: seq<T>, f: T -> real, lo: real, hi: real)
    requires s != []
    requires forall i :: 0 <= i < |s| ==> lo <= f(s[i]) <= hi
    ensures lo <= Sum(s, f) / |s| as real <= hi
  {
    var n := |s| as real;
    var x := Sum(s, f);
    SumBounds(s, f, lo, hi);
    assert (x / n) * n == x;
  }

  /** Termwise smaller gives a smaller total. */
  lemma {:induction false} SumMonotone<T>(s: seq<T>, f: T -> real, g: T -> real)
    requires forall i :: 0 <= i < |s| ==> f(s[i]) <= g(s[i])
    ensures Sum(s, f) <= Sum(s, g)
  {
    if s != [] {
      SumMonotone(s[..|s| - 1], f, g);
    }
  }

  // ---------------------------------------------------------------------------
  // sort

  /** Nondecreasing by `key`. */
  ghost predicate SortedBy<T>(s: seq<T>, key: T -> int)
  {
    forall i, j :: 0 <= i < j < |s| ==> key(s[i]) <= key(s[j])
  }

  /** Puts `x` in front of the first element whose key is not smaller, so that equal keys keep their order. */
  function Insert<T>(x: T, t: seq<T>, key: T -> int): (r: seq<T>)
    ensures |r| == |t| + 1
    ensures multiset(r) == multiset(t) + multiset{x}
  {
    if t == [] || key(x) <= key(t[0]) then [x] + t
    else
      assert t == [t[0]] + t[1..];
      [t[0]] + Insert(x, t[1..], key)
  }

  lemma {:induction false} InsertLowerBound<T>(x: T, t: seq<T>, key: T -> int, b: int)
    requires b <= key(x)
    requires forall i :: 0 <= i < |t| ==> b <= key(t[i])
    ensures forall i :: 0 <= i < |Insert(x, t, key)| ==> b <= key(Insert(x, t, key)[i])
  {
    if t != [] && key(t[0]) < key(x) {
      InsertLowerBound(x, t[1..], key, b);
    }
  }

  lemma {:induction false} InsertSorted<T>(x: T, t: seq<T>, key: T -> int)
    requires SortedBy(t, key)
    ensures SortedBy(Insert(x, t, key), key)
  {
    if t != [] && key(t[0]) < key(x) {
      InsertSorted(x, t[1..], key);
      InsertLowerBound(x, t[1..], key, key(t[0]));
    }
  }

  /**
   * `s.slice().sort((a, b) => key(a) - key(b))`: JavaScript's sort is stable, which
   * this insertion sort is as well.
   */
  function SortBy<T>(s: seq<T>, key: T -> int): (r: seq<T>)
    ensures |r| == |s|
    ensures multiset(r) == multiset(s)
    ensures SortedBy(r, key)
  {
    if s == [] then []
    else
      assert s == [s[0]] + s[1..];
      InsertSorted(s[0], SortBy(s[1..], key), key);
      Insert(s[0], SortBy(s[1..], key), key)
  }

  /** The head of the sorted copy of `s` is `s[0]` or the head of the sorted rest, whichever has the smaller key, `s[0]` on a tie. */
  lemma SortByHeadStep<T>(s: seq<T>, key: T -> int)
    requires |s| >= 2
    ensures SortBy(s, key)[0] == if key(s[0]) <= key(SortBy(s[1..], key)[0]) then s[0] else SortBy(s[1..], key)[0]
  {
    assert SortBy(s, key) == Insert(s[0], SortBy(s[1..], key), key);
  }

  /** Prepending `x` to a sequence whose first least element is at `k'` moves that first least element to `x` or to `k' + 1`. */
  lemma FirstLeastCons<T>(x: T, rest: seq<T>, key: T -> int, k': nat) returns (k: nat)
    requires k' < |rest|
    requires forall j :: 0 <= j < |rest| ==> key(rest[k']) <= key(rest[j])
    requires forall j :: 0 <= j < k' ==> key(rest[k']) < key(rest[j])
    ensures k < |[x] + rest| && ([x] + rest)[k] == if key(x) <= key(rest[k']) then x else rest[k']
    ensures forall j :: 0 <= j < |[x] + rest| ==> key(([x] + rest)[k]) <= key(([x] + rest)[j])
    ensures forall j :: 0 <= j < k ==> key(([x] + rest)[k]) < key(([x] + rest)[j])
  {
    var s := [x] + rest;
    assert forall j :: 1 <= j < |s| ==> s[j] == rest[j - 1];
    k := if key(x) <= key(rest[k']) then 0 else k' + 1;
  }

  /**
   * The head of the sorted copy is the FIRST element of `s` with the least key: ties are
   * won by the element that came first.
   */
  lemma {:induction false} SortByHead<T>(s: seq<T>, key: T -> int) returns (k: nat)
    requires s != []
    ensures k < |s| && SortBy(s, key)[0] == s[k]
    ensures forall j :: 0 <= j < |s| ==> key(s[k]) <= key(s[j])
    ensures forall j :: 0 <= j < k ==> key(s[k]) < key(s[j])
  {
    if |s| == 1 {
      assert SortBy(s, key) == Insert(s[0], [], key);
      k := 0;
    } else {
      var rest := s[1..];
      assert s == [s[0]] + rest;
      var k' := SortByHead(rest, key);
      SortByHeadStep(s, key);
      k := FirstLeastCons(s[0], rest, key, k');
    }
  }

  // ---------------------------------------------------------------------------
  // strings

  predicate IsPrefix<T(==)>(p: seq<T>, s: seq<T>)
  {
    |p| <= |s| && s[..|p|] == p
  }

  /** `s.includes(sub)`: `sub` occurs somewhere in `s` as a contiguous piece. */
  predicate Contains<T(==)>(s: seq<T>, sub: seq<T>)
  {
    IsPrefix(sub, s) || (|s| > 0 && Contains(s[1..], sub))
  }

  /** `sub` occurs in `s` at offset `i`. */
  ghost predicate OccursAt<T>(s: seq<T>, sub: seq<T>, i: int)
  {
    0 <= i <= |s| - |sub| && s[i..i + |sub|] == sub
  }

  /** The recursive search finds exactly the occurrences at some offset. */
  lemma {:induction false} ContainsAt<T>(s: seq<T>, sub: seq<T>)
    ensures Contains(s, sub) <==> exists i :: OccursAt(s, sub, i)
  {
    if IsPrefix(sub, s) {
      assert OccursAt(s, sub, 0);
    } else if |s| > 0 {
      ContainsAt(s[1..], sub);
      forall i | OccursAt(s[1..], sub, i) ensures OccursAt(s, sub, i + 1) {
        assert s[1..][i..i + |sub|] == s[i + 1..i + 1 + |sub|];
      }
      forall i | OccursAt(s, sub, i) ensures OccursAt(s[1..], sub, i - 1) {
        assert i != 0;
        assert s[1..][i - 1..i - 1 + |sub|] == s[i..i + |sub|];
      }
    }
  }

  /** Every string contains the empty string. */
  lemma ContainsEmpty<T>(s: seq<T>)
    ensures Contains(s, [])
  {
    assert IsPrefix([], s);
  }

  /** A piece with an element that never appears in `s` does not occur in `s`. */
  lemma ContainsNeedsElem<T>(s: seq<T>, sub: seq<T>, k: nat)
    requires k < |sub| && sub[k] !in s
    ensures !Contains(s, sub)
  {
    forall i | 0 <= i <= |s| - |sub|
      ensures !OccursAt(s, sub, i)
    {
      assert s[i..i + |sub|][k] == s[i + k];
    }
    ContainsAt(s, sub);
  }

  lemma ContainsSelf<T>(s: seq<T>)
    ensures Contains(s, s)
  {
    assert s[..|s|] == s;
  }
}
