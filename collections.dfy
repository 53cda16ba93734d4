/** The Kotlin standard-library list operations the app relies on, with
    their order semantics made explicit: `filter` keeps the original order,
    `minBy` returns the FIRST element of least key, and `sortedBy` is a
    stable sort. */
module Collections {

  function Min(a: int, b: int): int { if a <= b then a else b }

  // ---------------------------------------------------------------- filter

  /** `s.filter(p)`: the elements of `s` that satisfy `p`, in their order in `s`. */
  function Filter<T>(s: seq<T>, p: T -> bool): (r: seq<T>)
    ensures |r| <= |s|
    ensures forall i :: 0 <= i < |r| ==> r[i] in s && p(r[i])
    ensures forall i :: 0 <= i < |s| && p(s[i]) ==> s[i] in r
  {
    if s == [] then [] else (if p(s[0]) then [s[0]] else []) + Filter(s[1..], p)
  }

  /** Filtering distributes over concatenation, so the result is the
      order-preserving subsequence of the satisfying elements. */
  lemma {:induction false} FilterConcat<T>(a: seq<T>, b: seq<T>, p: T -> bool)
    ensures Filter(a + b, p) == Filter(a, p) + Filter(b, p)
  {
    if a == [] {
      assert a + b == b;
    } else {
      assert (a + b)[1..] == a[1..] + b;
      FilterConcat(a[1..], b, p);
    }
  }

  /** Every satisfying element keeps its multiplicity; the others vanish. */
  lemma {:induction false} FilterMultiset<T>(s: seq<T>, p: T -> bool, x: T)
    ensures multiset(Filter(s, p))[x] == if p(x) then multiset(s)[x] else 0
  {
    if s != [] {
      assert s == [s[0]] + s[1..];
      FilterMultiset(s[1..], p, x);
    }
  }

  /** A list all of whose elements satisfy `p` is its own filter. */
  lemma {:induction false} FilterKeepsAll<T>(s: seq<T>, p: T -> bool)
    requires forall i :: 0 <= i < |s| ==> p(s[i])
    ensures Filter(s, p) == s
  {
    if s != [] {
      FilterKeepsAll(s[1..], p);
    }
  }

  /** Filtering a list extended by one element extends the filtered list by
      that element exactly when it passes. */
  lemma FilterSnoc<T>(s: seq<T>, x: T, p: T -> bool)
    ensures Filter(s + [x], p) == Filter(s, p) + (if p(x) then [x] else [])
  {
    FilterConcat(s, [x], p);
    assert [x][1..] == [];
  }

  lemma FilterIdempotent<T>(s: seq<T>, p: T -> bool)
    ensures Filter(Filter(s, p), p) == Filter(s, p)
  {
    FilterKeepsAll(Filter(s, p), p);
  }

  /** Filtering out the head alone leaves the tail. */
  lemma FilterDropsHead<T>(s: seq<T>, p: T -> bool)
    requires |s| > 0 && !p(s[0])
    requires forall j :: 0 < j < |s| ==> p(s[j])
    ensures Filter(s, p) == s[1..]
  {
    FilterKeepsAll(s[1..], p);
  }

  /** Filtering out exactly one position shortens the list by one. */
  lemma {:induction false} FilterDropsOne<T>(s: seq<T>, p: T -> bool, k: int)
    requires 0 <= k < |s| && !p(s[k])
    requires forall j :: 0 <= j < |s| && j != k ==> p(s[j])
    ensures |Filter(s, p)| == |s| - 1
  {
    if k == 0 {
      FilterKeepsAll(s[1..], p);
    } else {
      FilterDropsOne(s[1..], p, k - 1);
    }
  }

  // ----------------------------------------------------------------- minBy

  /** `k` is the position of the first element of `s` with the least key. */
  ghost predicate FirstMinAt<T>(s: seq<T>, key: T -> real, k: int) {
    && 0 <= k < |s|
    && (forall j :: 0 <= j < |s| ==> key(s[k]) <= key(s[j]))
    && (forall j :: 0 <= j < k ==> key(s[j]) > key(s[k]))
  }

  /** Position chosen by `minBy`: it scans left to right and replaces its
      candidate only on a strictly smaller key. */
  function MinByIndex<T>(s: seq<T>, key: T -> real): (k: int)
    requires |s| > 0
    ensures FirstMinAt(s, key, k)
  {
    if |s| == 1 then 0
    else
      var k := MinByIndex(s[..|s| - 1], key);
      if key(s[k]) > key(s[|s| - 1]) then |s| - 1 else k
  }

  function MinBy<T>(s: seq<T>, key: T -> real): (m: T)
    requires |s| > 0
    ensures m in s
    ensures forall i :: 0 <= i < |s| ==> key(m) <= key(s[i])
  {
    s[MinByIndex(s, key)]
  }

  /** Among the elements of `s` satisfying `p`, the one at `k` comes first of
      those with the least key. */
  ghost predicate FirstMinAmongAt<T>(s: seq<T>, p: T -> bool, key: T -> real, k: int) {
    && 0 <= k < |s|
    && p(s[k])
    && (forall j :: 0 <= j < |s| && p(s[j]) ==> key(s[k]) <= key(s[j]))
    && (forall j :: 0 <= j < k && p(s[j]) ==> key(s[j]) > key(s[k]))
  }

  lemma FirstMinTail<T>(f: seq<T>, key: T -> real, m: int)
    requires FirstMinAt(f, key, m) && m > 0
    ensures FirstMinAt(f[1..], key, m - 1)
  {
    forall j | 0 <= j < |f| - 1 ensures key(f[1..][m - 1]) <= key(f[1..][j]) {
      assert f[1..][j] == f[j + 1];
    }
  }

  lemma FirstMinAmongShift<T>(s: seq<T>, p: T -> bool, key: T -> real, k: int)
    requires |s| > 0 && FirstMinAmongAt(s[1..], p, key, k)
    requires p(s[0]) ==> key(s[0]) > key(s[k + 1])
    ensures FirstMinAmongAt(s, p, key, k + 1)
  {
    forall j | 0 < j < |s| ensures s[j] == s[1..][j - 1] { }
  }

  lemma FirstMinAmongHead<T>(s: seq<T>, p: T -> bool, key: T -> real)
    requires |s| > 0 && p(s[0]) && FirstMinAt(Filter(s, p), key, 0)
    ensures FirstMinAmongAt(s, p, key, 0)
  {
    var f := Filter(s, p);
    assert f[0] == s[0];
    forall j | 0 <= j < |s| && p(s[j]) ensures key(s[0]) <= key(s[j]) {
      assert s[j] in f;
    }
  }

  /** The first minimum of a filtered list is, in the unfiltered list, the
      first satisfying element of least key. */
  lemma {:induction false} FilterFirstMin<T>(s: seq<T>, p: T -> bool, key: T -> real, m: int)
    requires FirstMinAt(Filter(s, p), key, m)
    ensures exists k :: FirstMinAmongAt(s, p, key, k) && s[k] == Filter(s, p)[m]
  {
    var f, f' := Filter(s, p), Filter(s[1..], p);
    if p(s[0]) {
      assert f == [s[0]] + f';
      if m == 0 {
        FirstMinAmongHead(s, p, key);
      } else {
        FirstMinTail(f, key, m);
        assert f[1..] == f';
        FilterFirstMin(s[1..], p, key, m - 1);
        var k :| FirstMinAmongAt(s[1..], p, key, k) && s[1..][k] == f'[m - 1];
        assert f[0] == s[0] && f[m] == s[k + 1];
        FirstMinAmongShift(s, p, key, k);
      }
    } else {
      assert f == f';
      FilterFirstMin(s[1..], p, key, m);
      var k :| FirstMinAmongAt(s[1..], p, key, k) && s[1..][k] == f'[m];
      FirstMinAmongShift(s, p, key, k);
    }
  }

  // -------------------------------------------------------------- sortedBy

  ghost predicate Sorted<T>(s: seq<T>, key: T -> real) {
    forall i, j :: 0 <= i < j < |s| ==> key(s[i]) <= key(s[j])
  }

  /** The elements of `s` whose key is `v`, in their order in `s`; a sort is
      stable exactly when it leaves every such class unchanged. */
  function WithKey<T>(s: seq<T>, key: T -> real, v: real): seq<T> {
    if s == [] then [] else (if key(s[0]) == v then [s[0]] else []) + WithKey(s[1..], key, v)
  }

  lemma {:induction false} WithKeyConcat<T>(a: seq<T>, b: seq<T>, key: T -> real, v: real)
    ensures WithKey(a + b, key, v) == WithKey(a, key, v) + WithKey(b, key, v)
  {
    if a == [] {
      assert a + b == b;
    } else {
      var head := if key(a[0]) == v then [a[0]] else [];
      assert (a + b)[0] == a[0];
      assert (a + b)[1..] == a[1..] + b;
      WithKeyConcat(a[1..], b, key, v);
      calc {
        WithKey(a + b, key, v);
        head + WithKey(a[1..] + b, key, v);
        head + (WithKey(a[1..], key, v) + WithKey(b, key, v));
        (head + WithKey(a[1..], key, v)) + WithKey(b, key, v);
        WithKey(a, key, v) + WithKey(b, key, v);
      }
    }
  }

  /** Inserts `x` in front of the first element whose key is not smaller. */
  function Insert<T>(x: T, t: seq<T>, key: T -> real): seq<T> {
    if t == [] || key(x) <= key(t[0]) then [x] + t else [t[0]] + Insert(x, t[1..], key)
  }

  lemma {:induction false} InsertMultiset<T>(x: T, t: seq<T>, key: T -> real)
    ensures |Insert(x, t, key)| == |t| + 1
    ensures multiset(Insert(x, t, key)) == multiset(t) + multiset{x}
  {
    if t != [] && key(x) > key(t[0]) {
      InsertMultiset(x, t[1..], key);
      assert t == [t[0]] + t[1..];
    }
  }

  lemma {:induction false} InsertSorted<T>(x: T, t: seq<T>, key: T -> real)
    requires Sorted(t, key)
    ensures Sorted(Insert(x, t, key), key)
  {
    if t != [] && key(x) > key(t[0]) {
      var rest := Insert(x, t[1..], key);
      InsertSorted(x, t[1..], key);
      InsertMultiset(x, t[1..], key);
      forall i | 0 <= i < |rest| ensures key(t[0]) <= key(rest[i]) {
        assert rest[i] in multiset(t[1..]) + multiset{x};
        if rest[i] != x {
          assert rest[i] in t[1..];
          var k :| 0 <= k < |t[1..]| && t[1..][k] == rest[i];
          assert t[k + 1] == rest[i];
        }
      }
      var r := [t[0]] + rest;
      forall i, j | 0 <= i < j < |r| ensures key(r[i]) <= key(r[j]) {
        assert r[j] == rest[j - 1];
        if i > 0 {
          assert r[i] == rest[i - 1];
        }
      }
      assert Insert(x, t, key) == r;
    }
  }

  /** Insertion never moves `x` past an element with the same key. */
  lemma {:induction false} InsertStable<T>(x: T, t: seq<T>, key: T -> real, v: real)
    ensures WithKey(Insert(x, t, key), key, v) == WithKey([x] + t, key, v)
  {
    if t != [] && key(x) > key(t[0]) {
      var rest := Insert(x, t[1..], key);
      InsertStable(x, t[1..], key, v);
      assert t == [t[0]] + t[1..];
      calc {
        WithKey([t[0]] + rest, key, v);
        { WithKeyConcat([t[0]], rest, key, v); }
        WithKey([t[0]], key, v) + WithKey(rest, key, v);
        { WithKeyConcat([x], t[1..], key, v); }
        WithKey([t[0]], key, v) + (WithKey([x], key, v) + WithKey(t[1..], key, v));
        // x and t[0] have different keys, so at most one of them is kept
        WithKey([x], key, v) + (WithKey([t[0]], key, v) + WithKey(t[1..], key, v));
        { WithKeyConcat([t[0]], t[1..], key, v); }
        WithKey([x], key, v) + WithKey(t, key, v);
        { WithKeyConcat([x], t, key, v); }
        WithKey([x] + t, key, v);
      }
    }
  }

  /** `s.sortedBy(key)`: ascending by key, a permutation of `s`, and stable. */
  function SortedBy<T>(s: seq<T>, key: T -> real): (r: seq<T>)
    ensures |r| == |s|
    ensures Sorted(r, key)
    ensures multiset(r) == multiset(s)
    ensures forall v :: WithKey(r, key, v) == WithKey(s, key, v)
  {
    if s == [] then []
    else
      var rest := SortedBy(s[1..], key);
      InsertSorted(s[0], rest, key);
      InsertMultiset(s[0], rest, key);
      assert s == [s[0]] + s[1..];
      assert forall v :: WithKey(Insert(s[0], rest, key), key, v) == WithKey(s, key, v) by {
        forall v ensures WithKey(Insert(s[0], rest, key), key, v) == WithKey(s, key, v) {
          InsertStable(s[0], rest, key, v);
          WithKeyConcat([s[0]], rest, key, v);
          WithKeyConcat([s[0]], s[1..], key, v);
        }
      }
      Insert(s[0], rest, key)
  }

  /** In a sorted list nothing after position `n` has a smaller key than
      anything before it. */
  lemma SortedSplit<T>(r: seq<T>, key: T -> real, n: int)
    requires Sorted(r, key) && 0 <= n <= |r|
    ensures forall i, x :: 0 <= i < n && x in multiset(r) - multiset(r[..n]) ==> key(r[i]) <= key(x)
  {
    assert r == r[..n] + r[n..];
    assert multiset(r) == multiset(r[..n]) + multiset(r[n..]);
    forall i, x | 0 <= i < n && x in multiset(r) - multiset(r[..n]) ensures key(r[i]) <= key(x) {
      assert x in r[n..];
    }
  }

  /** A prefix takes, from every key class, an initial part of that class. */
  lemma PrefixWithKey<T>(r: seq<T>, key: T -> real, n: int)
    requires 0 <= n <= |r|
    ensures forall v :: WithKey(r[..n], key, v) <= WithKey(r, key, v)
  {
    assert r == r[..n] + r[n..];
    forall v ensures WithKey(r[..n], key, v) <= WithKey(r, key, v) {
      WithKeyConcat(r[..n], r[n..], key, v);
    }
  }

  lemma PrefixMultiset<T>(r: seq<T>, n: int)
    requires 0 <= n <= |r|
    ensures multiset(r[..n]) <= multiset(r)
  {
    assert r == r[..n] + r[n..];
  }

  /** The first `n` elements of a stable ascending sort are the `n` least
      elements: ascending, taken from `s`, nothing left out has a smaller key
      than anything kept, and within each key class the kept ones are the
      earliest in `s`. */
  lemma SortedPrefix<T>(s: seq<T>, key: T -> real, n: int, lead: seq<T>)
    requires 0 <= n <= |s| && lead == SortedBy(s, key)[..n]
    ensures |lead| == n && Sorted(lead, key)
    ensures multiset(lead) <= multiset(s)
    ensures forall i, x :: 0 <= i < n && x in multiset(s) - multiset(lead) ==> key(lead[i]) <= key(x)
    ensures forall v :: WithKey(lead, key, v) <= WithKey(s, key, v)
  {
    var r := SortedBy(s, key);
    PrefixMultiset(r, n);
    SortedSplit(r, key, n);
    PrefixWithKey(r, key, n);
    forall i, j | 0 <= i < j < n ensures key(lead[i]) <= key(lead[j]) {
      assert lead[i] == r[i] && lead[j] == r[j];
    }
  }
}
