// Shared vocabulary: optional values, order-preserving filters and sums over
// query results, stable sorts, and the handful of Python/JavaScript string
// operations the back office relies on (split, join, isdigit, int(), lower()).

module Common {

  datatype Option<T> = None | Some(value: T)

  // ---------------------------------------------------------------------------
  // Order-preserving filter (a queryset `.filter(...)` or a list comprehension)
  // ---------------------------------------------------------------------------

  function Filter<T>(s: seq<T>, keep: T -> bool): (r: seq<T>)
    ensures |r| <= |s|
    ensures forall i :: 0 <= i < |r| ==> keep(r[i]) && r[i] in s
    ensures forall i :: 0 <= i < |s| && keep(s[i]) ==> s[i] in r
  {
    if |s| == 0 then [] else (if keep(s[0]) then [s[0]] else []) + Filter(s[1..], keep)
  }

  /** Membership in a filtered list, element-wise. */
  lemma {:induction false} FilterMembers<T>(s: seq<T>, keep: T -> bool)
    ensures forall x :: x in Filter(s, keep) <==> x in s && keep(x)
  {
    var r := Filter(s, keep);
    forall x | x in r
      ensures x in s && keep(x)
    {
      var i :| 0 <= i < |r| && r[i] == x;
    }
    forall x | x in s && keep(x)
      ensures x in r
    {
      var i :| 0 <= i < |s| && s[i] == x;
    }
  }

  lemma {:induction false} FilterAppend<T>(a: seq<T>, b: seq<T>, keep: T -> bool)
    ensures Filter(a + b, keep) == Filter(a, keep) + Filter(b, keep)
  {
    if |a| == 0 {
      assert a + b == b;
    } else {
      assert (a + b)[1..] == a[1..] + b;
      FilterAppend(a[1..], b, keep);
    }
  }

  /** Filtering twice is filtering once by the conjunction. */
  lemma {:induction false} FilterFilter<T>(s: seq<T>, p: T -> bool, q: T -> bool)
    ensures Filter(Filter(s, p), q) == Filter(s, x => p(x) && q(x))
  {
    if |s| > 0 {
      FilterFilter(s[1..], p, q);
      var head := if p(s[0]) then [s[0]] else [];
      assert Filter(s, p) == head + Filter(s[1..], p);
      FilterAppend(head, Filter(s[1..], p), q);
      if p(s[0]) {
        assert Filter(head, q) == (if q(s[0]) then [s[0]] else []) + Filter([], q);
      }
    }
  }

  /** Filtering with a condition that holds everywhere keeps everything. */
  lemma {:induction false} FilterAll<T>(s: seq<T>, keep: T -> bool)
    requires forall i :: 0 <= i < |s| ==> keep(s[i])
    ensures Filter(s, keep) == s
  {
    if |s| > 0 {
      FilterAll(s[1..], keep);
    }
  }

  /** Filtering with a condition that holds nowhere keeps nothing. */
  lemma {:induction false} FilterNone<T>(s: seq<T>, keep: T -> bool)
    requires forall i :: 0 <= i < |s| ==> !keep(s[i])
    ensures Filter(s, keep) == []
  {
    if |s| > 0 {
      FilterNone(s[1..], keep);
    }
  }

  /** The first element satisfying a condition (a `.get(...)` on a queryset). */
  function Find<T>(s: seq<T>, p: T -> bool): (r: Option<T>)
    ensures r.Some? ==> r.value in s && p(r.value)
    ensures r.None? <==> forall i :: 0 <= i < |s| ==> !p(s[i])
  {
    if |s| == 0 then None else if p(s[0]) then Some(s[0]) else Find(s[1..], p)
  }

  /** Number of elements satisfying a condition. */
  function CountIf<T>(s: seq<T>, p: T -> bool): (n: nat)
    ensures n <= |s|
  {
    |Filter(s, p)|
  }

  /** A filter keeps every copy of a kept element and no copy of the others. */
  lemma {:induction false} FilterCount<T>(s: seq<T>, keep: T -> bool, x: T)
    ensures multiset(Filter(s, keep))[x] == if keep(x) then multiset(s)[x] else 0
  {
    if |s| > 0 {
      FilterCount(s[1..], keep, x);
      assert s == [s[0]] + s[1..];
      assert multiset(s) == multiset{s[0]} + multiset(s[1..]);
    }
  }

  /** `n` copies of `x`. */
  function Repeat<T>(x: T, n: nat): (r: seq<T>)
    ensures |r| == n
    ensures forall i :: 0 <= i < n ==> r[i] == x
  {
    if n == 0 then [] else [x] + Repeat(x, n - 1)
  }

  lemma {:induction false} RepeatCount<T>(x: T, n: nat, y: T)
    ensures multiset(Repeat(x, n))[y] == if y == x then n else 0
  {
    if n > 0 {
      RepeatCount(x, n - 1, y);
      assert multiset(Repeat(x, n)) == multiset{x} + multiset(Repeat(x, n - 1));
    }
  }

  /**
   * A filter across a to-many relation, as SQL joins it: each element comes
   * out once per related row that matches (`copies`), the copies side by
   * side, in the original order.
   */
  function Joined<T>(s: seq<T>, copies: T -> nat): (r: seq<T>)
  {
    if |s| == 0 then [] else Repeat(s[0], copies(s[0])) + Joined(s[1..], copies)
  }

  /** An element occurs in the join as often as in the input times its number of matching rows. */
  lemma {:induction false} JoinedCount<T>(s: seq<T>, copies: T -> nat, x: T)
    ensures multiset(Joined(s, copies))[x] == multiset(s)[x] * copies(x)
  {
    if |s| > 0 {
      var m := multiset(s[1..])[x];
      var c := copies(x);
      JoinedCount(s[1..], copies, x);
      RepeatCount(s[0], copies(s[0]), x);
      assert s == [s[0]] + s[1..];
      assert multiset(s)[x] == (if x == s[0] then 1 else 0) + m;
      assert multiset(Joined(s, copies))[x] == (if x == s[0] then c else 0) + m * c;
      OneMoreTimes(m, c);
    }
  }

  lemma OneMoreTimes(m: nat, c: nat)
    ensures (m + 1) * c == c + m * c
  {
  }

  /** Joining twice gives each element the product of its two row counts. */
  lemma JoinedTwice(m: nat, a: nat, b: nat)
    ensures (m * a) * b == m * (a * b)
  {
  }

  /** The join holds exactly the elements with at least one matching row. */
  lemma {:induction false} JoinedMembers<T>(s: seq<T>, copies: T -> nat)
    ensures forall x :: x in Joined(s, copies) <==> x in s && copies(x) > 0
  {
    forall x
      ensures x in Joined(s, copies) <==> x in s && copies(x) > 0
    {
      JoinedCount(s, copies, x);
      var m := multiset(s)[x];
      assert x in s <==> m > 0;
      assert m * copies(x) > 0 <==> m > 0 && copies(x) > 0;
    }
  }

  /** Without a matching row beyond the first, the join is no longer than the input. */
  lemma {:induction false} JoinedShort<T>(s: seq<T>, copies: T -> nat)
    requires forall i :: 0 <= i < |s| ==> copies(s[i]) <= 1
    ensures |Joined(s, copies)| <= |s|
  {
    if |s| > 0 {
      assert copies(s[0]) <= 1;
      JoinedShort(s[1..], copies);
    }
  }

  /** Joining a list sorted in descending order keeps it sorted. */
  lemma {:induction false} JoinedSortedDesc<T>(s: seq<T>, copies: T -> nat, key: T -> real)
    requires SortedDesc(s, key)
    ensures SortedDesc(Joined(s, copies), key)
  {
    if |s| > 0 {
      var head := Repeat(s[0], copies(s[0]));
      var tail := Joined(s[1..], copies);
      assert SortedDesc(s[1..], key) by {
        forall i | 0 < i < |s[1..]|
          ensures key(s[1..][i - 1]) >= key(s[1..][i])
        {
          assert s[1..][i - 1] == s[i] && s[1..][i] == s[i + 1];
        }
      }
      JoinedSortedDesc(s[1..], copies, key);
      JoinedMembers(s[1..], copies);
      var r := head + tail;
      forall i | 0 < i < |r|
        ensures key(r[i - 1]) >= key(r[i])
      {
        if i < |head| {
          assert r[i - 1] == s[0] && r[i] == s[0];
        } else if i == |head| {
          assert r[i - 1] == s[0];
          assert r[i] == tail[0];
          assert tail[0] in multiset(tail);
          JoinedCount(s[1..], copies, tail[0]);
          assert multiset(s[1..])[tail[0]] != 0;
          assert tail[0] in s[1..];
          var j :| 0 <= j < |s[1..]| && s[1..][j] == tail[0];
          SortedDescPairs(s, key, 0, j + 1);
        } else {
          assert r[i - 1] == tail[i - 1 - |head|] && r[i] == tail[i - |head|];
        }
      }
    }
  }

  // ---------------------------------------------------------------------------
  // Sums (aggregate `Sum(...)`, Python `sum(...)`, JavaScript `reduce`)
  // ---------------------------------------------------------------------------

  function SumOf<T>(s: seq<T>, f: T -> real): real
  {
    if |s| == 0 then 0.0 else f(s[0]) + SumOf(s[1..], f)
  }

  lemma {:induction false} SumAppend<T>(a: seq<T>, b: seq<T>, f: T -> real)
    ensures SumOf(a + b, f) == SumOf(a, f) + SumOf(b, f)
  {
    if |a| == 0 {
      assert a + b == b;
    } else {
      assert (a + b)[1..] == a[1..] + b;
      SumAppend(a[1..], b, f);
    }
  }

  lemma {:induction false} SumNonNegative<T>(s: seq<T>, f: T -> real)
    requires forall i :: 0 <= i < |s| ==> f(s[i]) >= 0.0
    ensures SumOf(s, f) >= 0.0
  {
    if |s| > 0 {
      SumNonNegative(s[1..], f);
    }
  }

  /** Two sums agree when their terms agree position by position. */
  lemma {:induction false} SumPointwise<A, B>(a: seq<A>, f: A -> real, b: seq<B>, g: B -> real)
    requires |a| == |b|
    requires forall i :: 0 <= i < |a| ==> f(a[i]) == g(b[i])
    ensures SumOf(a, f) == SumOf(b, g)
  {
    if |a| > 0 {
      SumPointwise(a[1..], f, b[1..], g);
    }
  }

  /** Dividing every term by the same non-zero amount divides the sum by it. */
  lemma {:induction false} SumScaled<T>(s: seq<T>, f: T -> real, g: T -> real, d: real)
    requires d != 0.0
    requires forall i :: 0 <= i < |s| ==> g(s[i]) == f(s[i]) / d * 100.0
    ensures SumOf(s, g) == SumOf(s, f) / d * 100.0
  {
    if |s| > 0 {
      SumScaled(s[1..], f, g, d);
      assert SumOf(s, g) == f(s[0]) / d * 100.0 + SumOf(s[1..], f) / d * 100.0;
    }
  }

  // ---------------------------------------------------------------------------
  // Grouping (`.values(key).annotate(total=Sum(...))`)
  // ---------------------------------------------------------------------------

  /** The elements whose key is `k`, in order. */
  function WithKey<T, K(==)>(s: seq<T>, key: T -> K, k: K): (r: seq<T>)
    ensures |r| <= |s|
  {
    if |s| == 0 then [] else (if key(s[0]) == k then [s[0]] else []) + WithKey(s[1..], key, k)
  }

  /** The elements with key `k` are exactly those kept. (A lemma rather than a postcondition,
      since the two inclusions together make the solver loop.) */
  lemma {:induction false} WithKeyMembers<T, K>(s: seq<T>, key: T -> K, k: K)
    ensures forall i :: 0 <= i < |WithKey(s, key, k)| ==>
      key(WithKey(s, key, k)[i]) == k && WithKey(s, key, k)[i] in s
    ensures forall i :: 0 <= i < |s| && key(s[i]) == k ==> s[i] in WithKey(s, key, k)
  {
    if |s| > 0 {
      WithKeyMembers(s[1..], key, k);
      WithKeyHead(s[0], s[1..], key, k);
      assert s == [s[0]] + s[1..];
    }
  }

  /** The elements whose key is not `k`, in order; shorter when the first one has key `k`. */
  function WithoutKey<T, K(==)>(s: seq<T>, key: T -> K, k: K): (r: seq<T>)
    ensures |r| <= |s|
    ensures |s| > 0 && key(s[0]) == k ==> |r| < |s|
  {
    if |s| == 0 then [] else (if key(s[0]) != k then [s[0]] else []) + WithoutKey(s[1..], key, k)
  }

  /** Pointwise forms of the above, which keep quantifiers out of the caller's context. */
  lemma {:induction false} WithKeyAt<T, K>(s: seq<T>, key: T -> K, k: K, i: nat)
    requires i < |WithKey(s, key, k)|
    ensures key(WithKey(s, key, k)[i]) == k && WithKey(s, key, k)[i] in s
  {
    WithKeyMembers(s, key, k);
  }

  lemma {:induction false} WithKeyHas<T, K>(s: seq<T>, key: T -> K, k: K, j: nat)
    requires j < |s| && key(s[j]) == k
    ensures s[j] in WithKey(s, key, k) && |WithKey(s, key, k)| > 0
  {
    WithKeyMembers(s, key, k);
  }

  /** The elements with a key other than `k` are exactly those kept. */
  lemma {:induction false} WithoutKeyMembers<T, K>(s: seq<T>, key: T -> K, k: K)
    ensures forall i :: 0 <= i < |WithoutKey(s, key, k)| ==>
      key(WithoutKey(s, key, k)[i]) != k && WithoutKey(s, key, k)[i] in s
    ensures forall i :: 0 <= i < |s| && key(s[i]) != k ==> s[i] in WithoutKey(s, key, k)
  {
    if |s| > 0 {
      WithoutKeyMembers(s[1..], key, k);
      WithKeyCons(s[0], s[1..], key, k);
      assert s == [s[0]] + s[1..];
    }
  }

  lemma {:induction false} WithKeyCons<T, K>(x: T, s: seq<T>, key: T -> K, k: K)
    ensures WithKey([x] + s, key, k) == (if key(x) == k then [x] else []) + WithKey(s, key, k)
    ensures WithoutKey([x] + s, key, k) == (if key(x) != k then [x] else []) + WithoutKey(s, key, k)
  {
    assert ([x] + s)[1..] == s;
  }

  lemma {:induction false} SumSplitByKey<T, K>(s: seq<T>, key: T -> K, k: K, f: T -> real)
    ensures SumOf(s, f) == SumOf(WithKey(s, key, k), f) + SumOf(WithoutKey(s, key, k), f)
  {
    if |s| > 0 {
      SumSplitByKey(s[1..], key, k, f);
      var head := [s[0]];
      assert s == head + s[1..];
      WithKeyCons(s[0], s[1..], key, k);
      if key(s[0]) == k {
        SumAppend(head, WithKey(s[1..], key, k), f);
        assert WithoutKey(s, key, k) == WithoutKey(s[1..], key, k);
      } else {
        SumAppend(head, WithoutKey(s[1..], key, k), f);
        assert WithKey(s, key, k) == WithKey(s[1..], key, k);
      }
    }
  }

  /** Dropping key `k` does not change the elements of any other key. */
  lemma {:induction false} WithKeyWithoutKey<T, K>(s: seq<T>, key: T -> K, k: K, k': K)
    ensures k' != k ==> WithKey(WithoutKey(s, key, k), key, k') == WithKey(s, key, k')
    ensures WithKey(WithoutKey(s, key, k), key, k) == []
  {
    if |s| > 0 {
      WithKeyWithoutKey(s[1..], key, k, k');
      assert s == [s[0]] + s[1..];
      WithKeyCons(s[0], s[1..], key, k);
      WithKeyCons(s[0], s[1..], key, k');
      var rest := WithoutKey(s[1..], key, k);
      if key(s[0]) != k {
        WithKeyCons(s[0], rest, key, k);
        WithKeyCons(s[0], rest, key, k');
      } else {
        assert WithoutKey(s, key, k) == rest;
      }
    }
  }

  /** A key found among the elements without key `k` is another key, found in the whole sequence. */
  lemma {:induction false} WithKeyOfRest<T, K>(s: seq<T>, key: T -> K, k: K, k': K)
    requires |WithKey(WithoutKey(s, key, k), key, k')| > 0
    ensures k' != k && |WithKey(s, key, k')| > 0
  {
    WithKeyWithoutKey(s, key, k, k');
  }

  lemma {:induction false} WithoutKeyHas<T, K>(s: seq<T>, key: T -> K, k: K, j: nat)
    requires j < |s| && key(s[j]) != k
    ensures s[j] in WithoutKey(s, key, k)
  {
    WithoutKeyMembers(s, key, k);
  }

  lemma {:induction false} WithKeyHead<T, K>(x: T, s: seq<T>, key: T -> K, k: K)
    ensures WithKey([x] + s, key, k) == (if key(x) == k then [x] else []) + WithKey(s, key, k)
  {
    assert ([x] + s)[1..] == s;
  }

  lemma {:induction false} WithKeyAppend<T, K>(a: seq<T>, b: seq<T>, key: T -> K, k: K)
    ensures WithKey(a + b, key, k) == WithKey(a, key, k) + WithKey(b, key, k)
  {
    if |a| == 0 {
      assert a + b == b;
    } else {
      var t := a[1..];
      var head := if key(a[0]) == k then [a[0]] else [];
      calc {
        WithKey(a + b, key, k);
        == { assert a + b == [a[0]] + (t + b); WithKeyHead(a[0], t + b, key, k); }
        head + WithKey(t + b, key, k);
        == { WithKeyAppend(t, b, key, k); }
        head + (WithKey(t, key, k) + WithKey(b, key, k));
        == { assert a == [a[0]] + t; WithKeyHead(a[0], t, key, k); }
        WithKey(a, key, k) + WithKey(b, key, k);
      }
    }
  }

  /** The distinct keys in order of first appearance (the insertion order of a dict keyed by them). */
  function DistinctKeys<T, K(==)>(s: seq<T>, key: T -> K): (r: seq<K>)
    ensures |r| <= |s|
    ensures forall i, j :: 0 <= i < j < |r| ==> r[i] != r[j]
  {
    if |s| == 0 then []
    else
      var front := DistinctKeys(s[..|s| - 1], key);
      var k := key(s[|s| - 1]);
      if k in front then front else front + [k]
  }

  /** A key is listed exactly when some element has it. */
  lemma {:induction false} DistinctKeysMember<T, K>(s: seq<T>, key: T -> K, k: K)
    ensures k in DistinctKeys(s, key) <==> |WithKey(s, key, k)| > 0
  {
    if |s| > 0 {
      var front := s[..|s| - 1];
      var x := s[|s| - 1];
      DistinctKeysMember(front, key, k);
      assert s == front + [x];
      WithKeyAppend(front, [x], key, k);
    }
  }

  function GroupTotal<K>(g: (K, real)): real { g.1 }

  /** One (key, summed value) pair per key, in order of the key's first appearance. */
  function GroupTotals<T, K(==)>(s: seq<T>, key: T -> K, f: T -> real): (r: seq<(K, real)>)
    ensures |r| <= |s|
    decreases |s|
  {
    if |s| == 0 then []
    else
      var k := key(s[0]);
      [(k, SumOf(WithKey(s, key, k), f))] + GroupTotals(WithoutKey(s, key, k), key, f)
  }

  /** The group totals add up to the total of all elements. */
  lemma {:induction false} SumGroupTotals<T, K>(s: seq<T>, key: T -> K, f: T -> real)
    ensures SumOf(GroupTotals(s, key, f), GroupTotal) == SumOf(s, f)
    decreases |s|
  {
    if |s| > 0 {
      var k := key(s[0]);
      var rest := WithoutKey(s, key, k);
      SumGroupTotals(rest, key, f);
      SumSplitByKey(s, key, k, f);
      var r := GroupTotals(s, key, f);
      assert r[1..] == GroupTotals(rest, key, f);
    }
  }

  /** The groups after the first are the groups of the elements with another key. */
  lemma {:induction false} GroupTotalsTail<T, K>(s: seq<T>, key: T -> K, f: T -> real, i: nat)
    requires 0 < i < |GroupTotals(s, key, f)|
    ensures GroupTotals(s, key, f)[i] == GroupTotals(WithoutKey(s, key, key(s[0])), key, f)[i - 1]
  {
  }

  /** The group keys alone: each first key, then the keys of the elements with another key.
      Every listed key occurs, and none twice. */
  function GroupKeys<T, K(==)>(s: seq<T>, key: T -> K): (r: seq<K>)
    ensures |r| <= |s|
    ensures forall x :: x in r ==> |WithKey(s, key, x)| > 0
    ensures forall i, j :: 0 <= i < j < |r| ==> r[i] != r[j]
    decreases |s|
  {
    if |s| == 0 then []
    else
      var k := key(s[0]);
      var rest := WithoutKey(s, key, k);
      var tail := GroupKeys(rest, key);
      assert forall x :: x in tail ==> x != k && |WithKey(s, key, x)| > 0 by {
        forall x | x in tail
          ensures x != k && |WithKey(s, key, x)| > 0
        {
          WithKeyOfRest(s, key, k, x);
        }
      }
      WithKeyHas(s, key, k, 0);
      [k] + tail
  }

  /** Group `i` has the `i`-th group key. */
  lemma {:induction false} GroupTotalKeyAt<T, K>(s: seq<T>, key: T -> K, f: T -> real, i: nat)
    requires i < |GroupTotals(s, key, f)|
    ensures i < |GroupKeys(s, key)| && GroupTotals(s, key, f)[i].0 == GroupKeys(s, key)[i]
    decreases |s|
  {
    if i > 0 {
      var rest := WithoutKey(s, key, key(s[0]));
      GroupTotalKeyAt(rest, key, f, i - 1);
    }
  }

  /** There are as many groups as group keys. */
  lemma {:induction false} GroupTotalsKeysLength<T, K>(s: seq<T>, key: T -> K, f: T -> real)
    ensures |GroupTotals(s, key, f)| == |GroupKeys(s, key)|
    decreases |s|
  {
    if |s| > 0 {
      GroupTotalsKeysLength(WithoutKey(s, key, key(s[0])), key, f);
    }
  }

  lemma {:induction false} GroupKeysTail<T, K>(s: seq<T>, key: T -> K, i: nat)
    requires 0 < i < |GroupKeys(s, key)|
    ensures |WithoutKey(s, key, key(s[0]))| < |s|
    ensures |GroupKeys(s, key)| == 1 + |GroupKeys(WithoutKey(s, key, key(s[0])), key)|
    ensures GroupKeys(s, key)[i] == GroupKeys(WithoutKey(s, key, key(s[0])), key)[i - 1]
  {
  }

  lemma {:induction false} GroupKeysNotFirst<T, K>(s: seq<T>, key: T -> K, i: nat)
    requires 0 < i < |GroupKeys(s, key)|
    ensures GroupKeys(s, key)[i] != key(s[0])
  {
    assert GroupKeys(s, key)[0] == key(s[0]);
  }

  lemma {:induction false} GroupKeysCover<T, K>(s: seq<T>, key: T -> K, j: nat)
    requires j < |s|
    ensures exists i :: 0 <= i < |GroupKeys(s, key)| && GroupKeys(s, key)[i] == key(s[j])
    decreases |s|, 1
  {
    if key(s[j]) == key(s[0]) {
      assert GroupKeys(s, key)[0] == key(s[j]);
    } else {
      GroupKeysCoverLater(s, key, j);
    }
  }

  lemma {:induction false} GroupKeysCoverLater<T, K>(s: seq<T>, key: T -> K, j: nat)
    requires j < |s| && key(s[j]) != key(s[0])
    ensures exists i :: 0 <= i < |GroupKeys(s, key)| && GroupKeys(s, key)[i] == key(s[j])
    decreases |s|, 0
  {
    var rest := WithoutKey(s, key, key(s[0]));
    WithoutKeyHas(s, key, key(s[0]), j);
    var m :| 0 <= m < |rest| && rest[m] == s[j];
    GroupKeysCover(rest, key, m);
    var i :| 0 <= i < |GroupKeys(rest, key)| && GroupKeys(rest, key)[i] == key(rest[m]);
    GroupKeysTail(s, key, i + 1);
    assert GroupKeys(s, key)[i + 1] == key(s[j]);
  }

  /** Every group's key is the key of some element. */
  lemma {:induction false} GroupKeyOccurs<T, K>(s: seq<T>, key: T -> K, f: T -> real, i: nat)
    requires i < |GroupTotals(s, key, f)|
    ensures |WithKey(s, key, GroupTotals(s, key, f)[i].0)| > 0
  {
    GroupTotalKeyAt(s, key, f, i);
    assert GroupKeys(s, key)[i] in GroupKeys(s, key);
  }

  /** Later groups never repeat the first element's key. */
  lemma {:induction false} GroupKeyNotFirst<T, K>(s: seq<T>, key: T -> K, f: T -> real, i: nat)
    requires 0 < i < |GroupTotals(s, key, f)|
    ensures GroupTotals(s, key, f)[i].0 != key(s[0])
  {
    GroupTotalKeyAt(s, key, f, i);
    GroupKeysNotFirst(s, key, i);
  }

  /** The group at position `i` sums exactly the elements of its key, of which there is one at least. */
  lemma {:induction false} GroupTotalOfKey<T, K>(s: seq<T>, key: T -> K, f: T -> real, i: nat)
    requires i < |GroupTotals(s, key, f)|
    ensures var g := GroupTotals(s, key, f)[i];
      g.1 == SumOf(WithKey(s, key, g.0), f) && |WithKey(s, key, g.0)| > 0
    decreases |s|
  {
    var k := key(s[0]);
    if i > 0 {
      var rest := WithoutKey(s, key, k);
      var g := GroupTotals(rest, key, f)[i - 1];
      GroupTotalsTail(s, key, f, i);
      GroupTotalOfKey(rest, key, f, i - 1);
      GroupKeyNotFirst(s, key, f, i);
      WithKeyWithoutKey(s, key, k, g.0);
    } else {
      assert s[0] in WithKey(s, key, k);
    }
  }

  /** No two groups share a key. */
  lemma {:induction false} GroupTotalKeysDistinct<T, K>(s: seq<T>, key: T -> K, f: T -> real, i: nat, j: nat)
    requires i < j < |GroupTotals(s, key, f)|
    ensures GroupTotals(s, key, f)[i].0 != GroupTotals(s, key, f)[j].0
  {
    GroupTotalKeyAt(s, key, f, i);
    GroupTotalKeyAt(s, key, f, j);
  }

  /** Every element's key has a group. */
  lemma {:induction false} GroupKeyCovers<T, K>(s: seq<T>, key: T -> K, f: T -> real, j: nat)
    requires j < |s|
    ensures exists i :: 0 <= i < |GroupTotals(s, key, f)| && GroupTotals(s, key, f)[i].0 == key(s[j])
  {
    GroupKeysCover(s, key, j);
    var i :| 0 <= i < |GroupKeys(s, key)| && GroupKeys(s, key)[i] == key(s[j]);
    GroupTotalsKeysLength(s, key, f);
    GroupTotalKeyAt(s, key, f, i);
  }

  // ---------------------------------------------------------------------------
  // Stable insertion sorts (Python's `sorted`, JavaScript's `Array.sort`)
  // ---------------------------------------------------------------------------

  /** Each element's key is at least the next one's. */
  predicate SortedDesc<T>(s: seq<T>, key: T -> real)
  {
    forall i :: 0 < i < |s| ==> key(s[i - 1]) >= key(s[i])
  }

  /** Descending order between any two positions, not only neighbours. */
  lemma {:induction false} SortedDescPairs<T>(s: seq<T>, key: T -> real, i: int, j: int)
    requires SortedDesc(s, key)
    requires 0 <= i <= j < |s|
    ensures key(s[i]) >= key(s[j])
    decreases j - i
  {
    if i < j {
      SortedDescPairs(s, key, i + 1, j);
    }
  }

  /** Cutting a descending list: the front stays sorted and no key behind the cut beats one before it. */
  lemma {:induction false} SortedDescSplit<T>(s: seq<T>, key: T -> real, k: int)
    requires SortedDesc(s, key)
    requires 0 <= k <= |s|
    ensures SortedDesc(s[..k], key)
    ensures multiset(s[..k]) <= multiset(s)
    ensures forall x, y :: x in multiset(s) - multiset(s[..k]) && y in s[..k] ==> key(y) >= key(x)
  {
    assert s == s[..k] + s[k..];
    assert multiset(s) == multiset(s[..k]) + multiset(s[k..]);
    forall x, y | x in multiset(s) - multiset(s[..k]) && y in s[..k]
      ensures key(y) >= key(x)
    {
      assert x in multiset(s[k..]);
      var a :| 0 <= a < k && s[a] == y;
      var b :| k <= b < |s| && s[b] == x;
      SortedDescPairs(s, key, a, b);
    }
  }

  /** Filtering a list sorted in descending order keeps it sorted. */
  lemma {:induction false} FilterSortedDesc<T>(s: seq<T>, keep: T -> bool, key: T -> real)
    requires SortedDesc(s, key)
    ensures SortedDesc(Filter(s, keep), key)
  {
    if |s| > 0 {
      var tail := Filter(s[1..], keep);
      assert SortedDesc(s[1..], key) by {
        forall i | 0 < i < |s[1..]|
          ensures key(s[1..][i - 1]) >= key(s[1..][i])
        {
          assert s[1..][i - 1] == s[i] && s[1..][i] == s[i + 1];
        }
      }
      FilterSortedDesc(s[1..], keep, key);
      if keep(s[0]) && |tail| > 0 {
        assert tail[0] in s[1..];
        var j :| 0 <= j < |s[1..]| && s[1..][j] == tail[0];
        SortedDescPairs(s, key, 0, j + 1);
        var r := [s[0]] + tail;
        forall i | 0 < i < |r|
          ensures key(r[i - 1]) >= key(r[i])
        {
          if i > 1 {
            assert r[i - 1] == tail[i - 2] && r[i] == tail[i - 1];
          }
        }
      }
    }
  }

  function InsertDesc<T>(x: T, s: seq<T>, key: T -> real): (r: seq<T>)
    requires SortedDesc(s, key)
    ensures SortedDesc(r, key)
    ensures multiset(r) == multiset(s) + multiset{x}
    ensures |r| == |s| + 1
    ensures r[0] == x || (|s| > 0 && r[0] == s[0])
  {
    if |s| == 0 then [x]
    else if key(x) >= key(s[0]) then [x] + s
    else
      assert s == [s[0]] + s[1..];
      [s[0]] + InsertDesc(x, s[1..], key)
  }

  /** Stable descending sort: equal keys keep their original order. */
  function SortDesc<T>(s: seq<T>, key: T -> real): (r: seq<T>)
    ensures SortedDesc(r, key)
    ensures multiset(r) == multiset(s)
    ensures |r| == |s|
  {
    if |s| == 0 then []
    else
      assert s == [s[0]] + s[1..];
      InsertDesc(s[0], SortDesc(s[1..], key), key)
  }

  lemma {:induction false} SumInsertDesc<T>(x: T, s: seq<T>, key: T -> real, f: T -> real)
    requires SortedDesc(s, key)
    ensures SumOf(InsertDesc(x, s, key), f) == f(x) + SumOf(s, f)
  {
    if |s| > 0 && key(x) < key(s[0]) {
      SumInsertDesc(x, s[1..], key, f);
    }
  }

  /** Sorting does not change a sum. */
  lemma {:induction false} SumSortDesc<T>(s: seq<T>, key: T -> real, f: T -> real)
    ensures SumOf(SortDesc(s, key), f) == SumOf(s, f)
  {
    if |s| > 0 {
      SumSortDesc(s[1..], key, f);
      SumInsertDesc(s[0], SortDesc(s[1..], key), key, f);
    }
  }

  /** An element found at two positions occurs twice. */
  lemma MultisetTwice<T>(s: seq<T>, i: int, j: int)
    requires 0 <= i < j < |s| && s[i] == s[j]
    ensures multiset(s)[s[i]] >= 2
  {
    assert s == s[..j] + [s[j]] + s[j + 1..];
    assert s[..j][i] == s[i];
    assert multiset(s[..j])[s[i]] >= 1;
  }

  /** An element that differs from all others occurs once. */
  lemma MultisetOnce<T>(s: seq<T>, m: int)
    requires 0 <= m < |s|
    requires forall k :: 0 <= k < |s| && k != m ==> s[k] != s[m]
    ensures multiset(s)[s[m]] == 1
  {
    assert s == s[..m] + [s[m]] + s[m + 1..];
    assert s[m] !in s[..m];
    assert s[m] !in s[m + 1..];
  }

  /** A rearrangement of a sequence without repetitions has no repetitions. */
  lemma {:induction false} PermutationDistinct<T>(a: seq<T>, b: seq<T>, i: int, j: int)
    requires multiset(a) == multiset(b)
    requires forall p, q :: 0 <= p < q < |a| ==> a[p] != a[q]
    requires 0 <= i < j < |b|
    ensures b[i] != b[j]
  {
    if b[i] == b[j] {
      MultisetTwice(b, i, j);
      assert b[i] in multiset(a);
      var m :| 0 <= m < |a| && a[m] == b[i];
      MultisetOnce(a, m);
      assert false;
    }
  }

  /** Group totals largest first: `.values(key).annotate(total=Sum(f)).order_by('-total')`. */
  function RankedGroups<T, K(==)>(s: seq<T>, key: T -> K, f: T -> real): (r: seq<(K, real)>)
    ensures SortedDesc(r, GroupTotal)
    ensures |r| <= |s|
  {
    SortDesc(GroupTotals(s, key, f), GroupTotal)
  }

  /** The ranked totals add up to the total of all elements. */
  lemma {:induction false} SumRankedGroups<T, K>(s: seq<T>, key: T -> K, f: T -> real)
    ensures SumOf(RankedGroups(s, key, f), GroupTotal) == SumOf(s, f)
  {
    SumSortDesc(GroupTotals(s, key, f), GroupTotal, GroupTotal);
    SumGroupTotals(s, key, f);
  }

  lemma {:induction false} RankedGroupOrigin<T, K>(s: seq<T>, key: T -> K, f: T -> real, i: nat)
    requires i < |RankedGroups(s, key, f)|
    ensures exists m :: 0 <= m < |GroupTotals(s, key, f)| && GroupTotals(s, key, f)[m] == RankedGroups(s, key, f)[i]
  {
    var g := RankedGroups(s, key, f);
    assert g[i] in multiset(GroupTotals(s, key, f));
  }

  /** The ranked group at position `i` sums exactly the elements of its key. */
  lemma {:induction false} RankedGroupOfKey<T, K>(s: seq<T>, key: T -> K, f: T -> real, i: nat)
    requires i < |RankedGroups(s, key, f)|
    ensures var g := RankedGroups(s, key, f)[i];
      g.1 == SumOf(WithKey(s, key, g.0), f) && |WithKey(s, key, g.0)| > 0
  {
    var groups := GroupTotals(s, key, f);
    RankedGroupOrigin(s, key, f, i);
    var m :| 0 <= m < |groups| && groups[m] == RankedGroups(s, key, f)[i];
    GroupTotalOfKey(s, key, f, m);
  }

  /** Group totals of distinct positions are distinct pairs. */
  lemma {:induction false} GroupTotalsUnique<T, K>(s: seq<T>, key: T -> K, f: T -> real, m: nat)
    requires m < |GroupTotals(s, key, f)|
    ensures multiset(GroupTotals(s, key, f))[GroupTotals(s, key, f)[m]] == 1
  {
    var groups := GroupTotals(s, key, f);
    forall k | 0 <= k < |groups| && k != m
      ensures groups[k] != groups[m]
    {
      if k < m {
        GroupTotalKeysDistinct(s, key, f, k, m);
      } else {
        GroupTotalKeysDistinct(s, key, f, m, k);
      }
    }
    MultisetOnce(groups, m);
  }

  /** No two ranked groups share a key. */
  lemma {:induction false} RankedKeysDistinct<T, K>(s: seq<T>, key: T -> K, f: T -> real, i: nat, j: nat)
    requires i < j < |RankedGroups(s, key, f)|
    ensures RankedGroups(s, key, f)[i].0 != RankedGroups(s, key, f)[j].0
  {
    var groups := GroupTotals(s, key, f);
    var g := RankedGroups(s, key, f);
    RankedGroupOrigin(s, key, f, i);
    RankedGroupOrigin(s, key, f, j);
    var m1 :| 0 <= m1 < |groups| && groups[m1] == g[i];
    var m2 :| 0 <= m2 < |groups| && groups[m2] == g[j];
    if g[i].0 == g[j].0 {
      if m1 < m2 {
        GroupTotalKeysDistinct(s, key, f, m1, m2);
      } else if m2 < m1 {
        GroupTotalKeysDistinct(s, key, f, m2, m1);
      } else {
        GroupTotalsUnique(s, key, f, m1);
        MultisetTwice(g, i, j);
        assert false;
      }
    }
  }

  /** Every element's key has a ranked group. */
  lemma {:induction false} RankedCovers<T, K>(s: seq<T>, key: T -> K, f: T -> real, j: nat)
    requires j < |s|
    ensures exists i :: 0 <= i < |RankedGroups(s, key, f)| && RankedGroups(s, key, f)[i].0 == key(s[j])
  {
    var groups := GroupTotals(s, key, f);
    var g := RankedGroups(s, key, f);
    GroupKeyCovers(s, key, f, j);
    var m :| 0 <= m < |groups| && groups[m].0 == key(s[j]);
    assert groups[m] in multiset(g);
    var i :| 0 <= i < |g| && g[i] == groups[m];
  }

  // Lexicographic order on strings by code point, as Python compares str.
  predicate StrLe(a: string, b: string)
  {
    if |a| == 0 then true
    else if |b| == 0 then false
    else if a[0] != b[0] then a[0] < b[0]
    else StrLe(a[1..], b[1..])
  }

  lemma {:induction false} StrLeTotal(a: string, b: string)
    ensures StrLe(a, b) || StrLe(b, a)
  {
    if |a| > 0 && |b| > 0 && a[0] == b[0] {
      StrLeTotal(a[1..], b[1..]);
    }
  }

  lemma {:induction false} StrLeTrans(a: string, b: string, c: string)
    requires StrLe(a, b) && StrLe(b, c)
    ensures StrLe(a, c)
  {
    if |a| > 0 && |b| > 0 && |c| > 0 && a[0] == b[0] && b[0] == c[0] {
      StrLeTrans(a[1..], b[1..], c[1..]);
    }
  }

  /** Each element's key is at most the next one's. */
  predicate SortedByName<T>(s: seq<T>, key: T -> string)
  {
    forall i :: 0 < i < |s| ==> StrLe(key(s[i - 1]), key(s[i]))
  }

  function InsertByName<T>(x: T, s: seq<T>, key: T -> string): (r: seq<T>)
    requires SortedByName(s, key)
    ensures SortedByName(r, key)
    ensures multiset(r) == multiset(s) + multiset{x}
    ensures |r| == |s| + 1
    ensures r[0] == x || (|s| > 0 && r[0] == s[0])
  {
    if |s| == 0 then [x]
    else if StrLe(key(x), key(s[0])) then [x] + s
    else
      StrLeTotal(key(x), key(s[0]));
      assert s == [s[0]] + s[1..];
      [s[0]] + InsertByName(x, s[1..], key)
  }

  /** Stable ascending sort by a string key. */
  function SortByName<T>(s: seq<T>, key: T -> string): (r: seq<T>)
    ensures SortedByName(r, key)
    ensures multiset(r) == multiset(s)
    ensures |r| == |s|
  {
    if |s| == 0 then []
    else
      assert s == [s[0]] + s[1..];
      InsertByName(s[0], SortByName(s[1..], key), key)
  }

  lemma {:induction false} SumInsertByName<T>(x: T, s: seq<T>, key: T -> string, f: T -> real)
    requires SortedByName(s, key)
    ensures SumOf(InsertByName(x, s, key), f) == f(x) + SumOf(s, f)
  {
    if |s| > 0 && !StrLe(key(x), key(s[0])) {
      SumInsertByName(x, s[1..], key, f);
    }
  }

  /** Sorting by name does not change a sum. */
  lemma {:induction false} SumSortByName<T>(s: seq<T>, key: T -> string, f: T -> real)
    ensures SumOf(SortByName(s, key), f) == SumOf(s, f)
  {
    if |s| > 0 {
      SumSortByName(s[1..], key, f);
      SumInsertByName(s[0], SortByName(s[1..], key), key, f);
    }
  }

  // ---------------------------------------------------------------------------
  // Text
  // ---------------------------------------------------------------------------

  /** Python `sub in s` / JavaScript `s.includes(sub)` for strings. */
  predicate Contains(s: string, sub: string)
  {
    |sub| <= |s| && (s[..|sub|] == sub || Contains(s[1..], sub))
  }

  /** `sub` occurring at any position `i` of `s` is found. */
  lemma {:induction false} ContainsAt(s: string, sub: string, i: nat)
    requires i + |sub| <= |s| && s[i..i + |sub|] == sub
    ensures Contains(s, sub)
    decreases i
  {
    if i > 0 {
      assert s[1..][i - 1..i - 1 + |sub|] == s[i..i + |sub|];
      ContainsAt(s[1..], sub, i - 1);
    } else {
      assert s[..|sub|] == s[i..i + |sub|];
    }
  }

  /** Conversely, what `Contains` finds occurs at some position. */
  lemma {:induction false} ContainsWitness(s: string, sub: string) returns (i: nat)
    requires Contains(s, sub)
    ensures i + |sub| <= |s| && s[i..i + |sub|] == sub
    decreases |s|
  {
    if s[..|sub|] == sub {
      i := 0;
    } else {
      var j := ContainsWitness(s[1..], sub);
      assert s[1..][j..j + |sub|] == s[j + 1..j + 1 + |sub|];
      i := j + 1;
    }
  }

  /** Python `s.split(sep)` for a one-character separator. */
  function Split(s: string, sep: char): (parts: seq<string>)
    ensures |parts| >= 1
    ensures forall i :: 0 <= i < |parts| ==> sep !in parts[i]
    ensures Join(parts, sep) == s
  {
    if |s| == 0 then [""]
    else
      var rest := Split(s[1..], sep);
      if s[0] == sep then
        assert s == [sep] + s[1..];
        [""] + rest
      else
        assert s == [s[0]] + s[1..];
        [[s[0]] + rest[0]] + rest[1..]
  }

  /** Python `sep.join(parts)` for a one-character separator. */
  function Join(parts: seq<string>, sep: char): string
  {
    if |parts| == 0 then ""
    else if |parts| == 1 then parts[0]
    else parts[0] + [sep] + Join(parts[1..], sep)
  }

  /** Python `sep.join(parts)` for a separator of any length. */
  function JoinWith(parts: seq<string>, sep: string): string
  {
    if |parts| == 0 then ""
    else if |parts| == 1 then parts[0]
    else parts[0] + sep + JoinWith(parts[1..], sep)
  }

  /** A string as its own sort key (`sorted(strings)`). */
  function Itself(s: string): string { s }

  /** Splitting joined separator-free parts gives the parts back. */
  lemma {:induction false} SplitJoin(parts: seq<string>, sep: char)
    requires |parts| >= 1
    requires forall i :: 0 <= i < |parts| ==> sep !in parts[i]
    ensures Split(Join(parts, sep), sep) == parts
  {
    if |parts| == 1 {
      SplitNoSep(parts[0], sep);
    } else {
      SplitJoin(parts[1..], sep);
      SplitPrefix(parts[0], Join(parts[1..], sep), sep);
      assert [parts[0]] + parts[1..] == parts;
    }
  }

  lemma {:induction false} SplitNoSep(s: string, sep: char)
    requires sep !in s
    ensures Split(s, sep) == [s]
  {
    if |s| > 0 {
      SplitNoSep(s[1..], sep);
      assert [s[0]] + s[1..] == s;
    }
  }

  lemma {:induction false} SplitPrefix(a: string, b: string, sep: char)
    requires sep !in a
    ensures Split(a + [sep] + b, sep) == [a] + Split(b, sep)
  {
    if |a| == 0 {
      assert a + [sep] + b == [sep] + b;
      assert ([sep] + b)[1..] == b;
    } else {
      SplitPrefix(a[1..], b, sep);
      assert (a + [sep] + b)[1..] == a[1..] + [sep] + b;
      assert [a[0]] + a[1..] == a;
    }
  }

  /** The first part of a split is a prefix of the string. */
  lemma {:induction false} SplitFirstPrefix(s: string, sep: char)
    ensures Split(s, sep)[0] <= s
  {
    if |s| > 0 {
      SplitFirstPrefix(s[1..], sep);
    }
  }

  // ---------------------------------------------------------------------------
  // Requests
  // ---------------------------------------------------------------------------

  /** `x_forwarded_for.split(',')[0] if x_forwarded_for else REMOTE_ADDR`; the entry is not stripped. */
  function ClientIp(forwardedFor: Option<string>, remoteAddr: Option<string>): (ip: Option<string>)
    ensures forwardedFor.None? || forwardedFor.value == "" ==> ip == remoteAddr
    ensures forwardedFor.Some? && forwardedFor.value != "" ==>
      ip.Some? && ',' !in ip.value && ip.value <= forwardedFor.value
    ensures forwardedFor.Some? && forwardedFor.value != "" && ',' !in forwardedFor.value ==> ip == forwardedFor
  {
    if forwardedFor.Some? && forwardedFor.value != "" then
      SplitFirstPrefix(forwardedFor.value, ',');
      assert ',' !in forwardedFor.value ==> Split(forwardedFor.value, ',')[0] == forwardedFor.value by {
        if ',' !in forwardedFor.value {
          SplitNoSep(forwardedFor.value, ',');
        }
      }
      Some(Split(forwardedFor.value, ',')[0])
    else remoteAddr
  }

  /** The first entry of a proxy chain is the client's address, whatever follows it. */
  lemma {:induction false} ClientIpFirstEntry(first: string, rest: string, remoteAddr: Option<string>)
    requires ',' !in first
    ensures ClientIp(Some(first + "," + rest), remoteAddr) == Some(first)
  {
    SplitPrefix(first, rest, ',');
    assert first + "," + rest == first + [','] + rest;
  }

  predicate IsDigit(c: char) { '0' <= c <= '9' }

  /** Python `str.isdigit()` on ASCII text: non-empty and all digits. */
  predicate IsDigits(s: string)
  {
    |s| > 0 && forall i :: 0 <= i < |s| ==> IsDigit(s[i])
  }

  function DigitsValue(s: string): nat
    requires forall i :: 0 <= i < |s| ==> IsDigit(s[i])
  {
    if |s| == 0 then 0
    else
      assert IsDigit(s[|s| - 1]);
      10 * DigitsValue(s[..|s| - 1]) + (s[|s| - 1] as int - '0' as int)
  }

  /** Decimal rendering of a natural number (`str(n)`). */
  function NatToDigits(n: nat): (s: string)
    ensures IsDigits(s)
    ensures DigitsValue(s) == n
  {
    var last := ('0' as int + n % 10) as char;
    if n < 10 then [last]
    else
      var front := NatToDigits(n / 10);
      var s := front + [last];
      assert s[..|s| - 1] == front;
      s
  }

  /** Python `int(s)` on an optionally signed string of ASCII digits; None is the ValueError. */
  function ParseInt(s: string): (r: Option<int>)
    ensures r.Some? <==> IsDigits(s) || (|s| > 1 && (s[0] == '-' || s[0] == '+') && IsDigits(s[1..]))
    ensures IsDigits(s) ==> r == Some(DigitsValue(s))
  {
    if IsDigits(s) then Some(DigitsValue(s) as int)
    else if |s| > 1 && s[0] == '-' && IsDigits(s[1..]) then Some(0 - DigitsValue(s[1..]))
    else if |s| > 1 && s[0] == '+' && IsDigits(s[1..]) then Some(DigitsValue(s[1..]) as int)
    else None
  }

  /** `int(str(n)) == n`. */
  lemma ParseIntOfDigits(n: nat)
    ensures ParseInt(NatToDigits(n)) == Some(n)
  {
  }

  function Pow10(k: nat): (p: real)
    ensures p >= 1.0
  {
    if k == 0 then 1.0 else 10.0 * Pow10(k - 1)
  }

  /**
   * Python `float(s)` restricted to plain decimal notation: an optional sign,
   * digits, at most one point and at least one digit. None is the ValueError.
   */
  function ParseDecimal(s: string): (r: Option<real>)
    ensures ParseInt(s).Some? ==> r == Some(ParseInt(s).value as real)
  {
    if |s| > 0 && s[0] == '-' then
      var m := ParseUnsigned(s[1..]);
      if m.Some? then Some(-m.value) else None
    else if |s| > 0 && s[0] == '+' then ParseUnsigned(s[1..])
    else ParseUnsigned(s)
  }

  function ParseUnsigned(s: string): (r: Option<real>)
    ensures IsDigits(s) ==> r == Some(DigitsValue(s) as real)
    ensures r.Some? ==> r.value >= 0.0
  {
    if IsDigits(s) then Some(DigitsValue(s) as real)
    else if '.' in s then
      var parts := Split(s, '.');
      if |parts| != 2 then None
      else
        var whole := parts[0];
        var frac := parts[1];
        if |whole| + |frac| == 0 then None
        else if (|whole| > 0 && !IsDigits(whole)) || (|frac| > 0 && !IsDigits(frac)) then None
        else
          var w := if |whole| == 0 then 0 else DigitsValue(whole);
          var f := if |frac| == 0 then 0 else DigitsValue(frac);
          Some(w as real + f as real / Pow10(|frac|))
    else None
  }

  /** ASCII `lower()` / `toLowerCase()`. */
  function Lower(s: string): (r: string)
    ensures |r| == |s|
    ensures forall i :: 0 <= i < |s| ==> r[i] == LowerChar(s[i])
  {
    if |s| == 0 then [] else [LowerChar(s[0])] + Lower(s[1..])
  }

  function LowerChar(c: char): char
  {
    if 'A' <= c <= 'Z' then (c as int + 32) as char else c
  }

  predicate IsSpace(c: char)
  {
    c == ' ' || c == '\t' || c == '\n' || c == '\r' || c == '\U{000B}' || c == '\U{000C}'
  }

  /** JavaScript `trim()` over ASCII white space: the text without its leading and trailing blanks. */
  function Trim(s: string): (r: string)
    ensures |r| == 0 || (!IsSpace(r[0]) && !IsSpace(r[|r| - 1]))
    ensures |r| <= |s|
  {
    TrimEnd(TrimStart(s))
  }

  /** `TrimStart` removes blanks only. */
  lemma {:induction false} TrimStartStripsBlanks(s: string)
    ensures forall i :: 0 <= i < |s| - |TrimStart(s)| ==> IsSpace(s[i])
  {
    if |s| > 0 && IsSpace(s[0]) {
      TrimStartStripsBlanks(s[1..]);
      forall i | 1 <= i < |s| - |TrimStart(s)|
        ensures IsSpace(s[i])
      {
        assert s[i] == s[1..][i - 1];
      }
    }
  }

  /** `TrimEnd` removes blanks only. */
  lemma {:induction false} TrimEndStripsBlanks(s: string)
    ensures forall i :: |TrimEnd(s)| <= i < |s| ==> IsSpace(s[i])
  {
    if |s| > 0 && IsSpace(s[|s| - 1]) {
      var p := s[..|s| - 1];
      TrimEndStripsBlanks(p);
      forall i | |TrimEnd(s)| <= i < |s| - 1
        ensures IsSpace(s[i])
      {
        assert s[i] == p[i];
      }
    }
  }

  /**
   * What `Trim` removes is blanks only: the result is the slice of the text
   * that starts where `TrimStart` stops, with nothing but blanks around it.
   */
  lemma {:induction false} TrimStripsBlanks(s: string)
    ensures |s| - |TrimStart(s)| + |Trim(s)| <= |s|
    ensures Trim(s) == s[|s| - |TrimStart(s)|..|s| - |TrimStart(s)| + |Trim(s)|]
    ensures forall i :: 0 <= i < |s| - |TrimStart(s)| ==> IsSpace(s[i])
    ensures forall i :: |s| - |TrimStart(s)| + |Trim(s)| <= i < |s| ==> IsSpace(s[i])
  {
    TrimStartStripsBlanks(s);
    TrimSlice(s);
    TrimBlanksAfter(s);
  }

  /** `Trim` keeps the slice of the text that starts where `TrimStart` stops. */
  lemma {:induction false} TrimSlice(s: string)
    ensures var k := |s| - |TrimStart(s)|; k + |Trim(s)| <= |s| && Trim(s) == s[k..k + |Trim(s)|]
  {
    var t := TrimStart(s);
    var r := TrimEnd(t);
    assert Trim(s) == r;
    SliceOfSuffix(s, |s| - |t|, |r|);
  }

  /** After the slice `Trim` keeps there are only blanks. */
  lemma {:induction false} TrimBlanksAfter(s: string)
    ensures |s| - |TrimStart(s)| + |Trim(s)| <= |s|
    ensures forall i :: |s| - |TrimStart(s)| + |Trim(s)| <= i < |s| ==> IsSpace(s[i])
  {
    var t := TrimStart(s);
    var r := TrimEnd(t);
    assert Trim(s) == r;
    TrimEndStripsBlanks(t);
    BlanksAround(s, t, r);
  }

  /**
   * A suffix `t` of `s` after blanks, and a prefix `r` of `t` before blanks,
   * make `r` a middle slice of `s` with blanks after it.
   */
  lemma BlanksAround(s: string, t: string, r: string)
    requires |t| <= |s| && t == s[|s| - |t|..]
    requires |r| <= |t| && r == t[..|r|]
    requires forall i :: |r| <= i < |t| ==> IsSpace(t[i])
    ensures var k := |s| - |t|; r == s[k..k + |r|] && forall i :: k + |r| <= i < |s| ==> IsSpace(s[i])
  {
    var k := |s| - |t|;
    SliceOfSuffix(s, k, |r|);
    forall i | k + |r| <= i < |s|
      ensures IsSpace(s[i])
    {
      assert s[i] == t[i - k];
    }
  }

  /** A prefix of a suffix is a middle slice. */
  lemma SliceOfSuffix(s: string, k: nat, n: nat)
    requires k + n <= |s|
    ensures s[k..][..n] == s[k..k + n]
    ensures s[k..][n..] == s[k + n..]
  {
  }

  /** Text that neither starts nor ends with a blank is its own trim. */
  lemma {:induction false} TrimUnblanked(s: string)
    requires |s| > 0 && !IsSpace(s[0]) && !IsSpace(s[|s| - 1])
    ensures Trim(s) == s
  {
    assert TrimStart(s) == s;
    assert TrimEnd(s) == s;
  }

  /** A run of digits has no blanks to strip, and both parsers read it as its value. */
  lemma {:induction false} TrimmedDigits(s: string)
    ensures IsDigits(s) ==> Trim(s) == s
    ensures IsDigits(s) ==> ParseInt(Trim(s)) == Some(DigitsValue(s))
    ensures IsDigits(s) ==> ParseDecimal(Trim(s)) == Some(DigitsValue(s) as real)
  {
    if IsDigits(s) {
      assert !IsSpace(s[0]) && !IsSpace(s[|s| - 1]);
      TrimUnblanked(s);
    }
  }

  function TrimStart(s: string): (r: string)
    ensures |r| == 0 || !IsSpace(r[0])
    ensures |r| <= |s|
    ensures r == s[|s| - |r|..]
  {
    if |s| > 0 && IsSpace(s[0]) then TrimStart(s[1..]) else s
  }

  function TrimEnd(s: string): (r: string)
    ensures |r| == 0 || !IsSpace(r[|r| - 1])
    ensures |r| <= |s|
    ensures r == s[..|r|]
    ensures |s| > 0 && !IsSpace(s[0]) ==> |r| > 0 && r[0] == s[0]
  {
    if |s| > 0 && IsSpace(s[|s| - 1]) then TrimEnd(s[..|s| - 1]) else s
  }

  /** Python `s.replace(from, to)` for single characters. */
  function ReplaceChar(s: string, from: char, to: char): (r: string)
    ensures |r| == |s|
    ensures forall i :: 0 <= i < |s| ==> r[i] == (if s[i] == from then to else s[i])
  {
    if |s| == 0 then [] else [if s[0] == from then to else s[0]] + ReplaceChar(s[1..], from, to)
  }
}
