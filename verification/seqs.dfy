/** Whole-table operations that pandas applies column-wise: keeping the rows
    a mask selects, rewriting a column, and drop_duplicates with keep="first".
    Every function here recurses on the last element, so that "the first n
    rows" is the natural induction. */
module Seqs {

  /** `df[mask]`: the rows that satisfy p, in their original order. */
  function Filter<T>(s: seq<T>, p: T -> bool): (r: seq<T>)
    ensures |r| <= |s|
    ensures forall i :: 0 <= i < |r| ==> p(r[i])
  {
    if s == [] then []
    else Filter(s[..|s| - 1], p) + (if p(s[|s| - 1]) then [s[|s| - 1]] else [])
  }

  /** `df[col] = df[col].apply(f)`: every row rewritten, order and count kept. */
  function Map<A, B>(s: seq<A>, f: A -> B): (r: seq<B>)
    ensures |r| == |s|
    ensures forall i :: 0 <= i < |s| ==> r[i] == f(s[i])
  {
    if s == [] then [] else Map(s[..|s| - 1], f) + [f(s[|s| - 1])]
  }

  /** `mask.sum()`: how many rows satisfy p. */
  function Count<T>(s: seq<T>, p: T -> bool): (n: nat)
    ensures n <= |s|
  {
    if s == [] then 0 else Count(s[..|s| - 1], p) + (if p(s[|s| - 1]) then 1 else 0)
  }

  function Sum(s: seq<int>): int {
    if s == [] then 0 else Sum(s[..|s| - 1]) + s[|s| - 1]
  }

  /** a is obtained from b by deleting elements (matched greedily from the end). */
  predicate Subseq<T(==)>(a: seq<T>, b: seq<T>) {
    if a == [] then true
    else if b == [] then false
    else if a[|a| - 1] == b[|b| - 1] then Subseq(a[..|a| - 1], b[..|b| - 1])
    else Subseq(a, b[..|b| - 1])
  }

  /** A mask keeps exactly Count(s, p) rows: the rows it drops are the others. */
  lemma {:induction false} FilterCount<T>(s: seq<T>, p: T -> bool)
    ensures |Filter(s, p)| == Count(s, p)
  {
    if s != [] { FilterCount(s[..|s| - 1], p); }
  }

  lemma {:induction false} FilterAppend<T>(a: seq<T>, b: seq<T>, p: T -> bool)
    ensures Filter(a + b, p) == Filter(a, p) + Filter(b, p)
  {
    if b == [] {
      assert a + b == a;
    } else {
      assert (a + b)[..|a + b| - 1] == a + b[..|b| - 1];
      FilterAppend(a, b[..|b| - 1], p);
    }
  }

  /** Two successive masks are one mask that asks for both conditions. */
  lemma {:induction false} FilterFilter<T>(s: seq<T>, p: T -> bool, q: T -> bool, both: T -> bool)
    requires forall x :: both(x) == (p(x) && q(x))
    ensures Filter(Filter(s, p), q) == Filter(s, both)
  {
    if s != [] {
      var init := s[..|s| - 1];
      var last := s[|s| - 1];
      FilterFilter(init, p, q, both);
      FilterAppend(Filter(init, p), if p(last) then [last] else [], q);
      assert Filter(if p(last) then [last] else [], q) == (if both(last) then [last] else []);
    }
  }

  /** Rewriting a column that the mask does not look at commutes with the
      mask. */
  lemma {:induction false} FilterMap<A, B>(s: seq<A>, f: A -> B, p: B -> bool, q: A -> bool)
    requires forall x :: p(f(x)) == q(x)
    ensures Filter(Map(s, f), p) == Map(Filter(s, q), f)
  {
    if s != [] {
      var init := s[..|s| - 1];
      FilterMap(init, f, p, q);
      var m := Map(s, f);
      assert m[..|m| - 1] == Map(init, f);
      if q(s[|s| - 1]) {
        var k := Filter(s, q);
        assert k[..|k| - 1] == Filter(init, q);
        assert Map(k, f) == Map(Filter(init, q), f) + [f(s[|s| - 1])];
      }
    }
  }

  /** Counting after a rewrite is counting the rewritten condition. */
  lemma {:induction false} CountMap<A, B>(s: seq<A>, f: A -> B, p: B -> bool, q: A -> bool)
    requires forall x :: p(f(x)) == q(x)
    ensures Count(Map(s, f), p) == Count(s, q)
  {
    if s != [] {
      var m := Map(s, f);
      assert m[..|m| - 1] == Map(s[..|s| - 1], f);
      CountMap(s[..|s| - 1], f, p, q);
    }
  }

  /** Two successive rewrites are one rewrite by their composition. */
  lemma MapMap<A, B, C>(s: seq<A>, f: A -> B, g: B -> C, h: A -> C)
    requires forall x :: h(x) == g(f(x))
    ensures Map(Map(s, f), g) == Map(s, h)
  {
    assert |Map(Map(s, f), g)| == |Map(s, h)|;
  }

  /** A rewrite that changes no row of s leaves the table as it is. */
  lemma MapUnchanged<A>(s: seq<A>, f: A -> A)
    requires forall i :: 0 <= i < |s| ==> f(s[i]) == s[i]
    ensures Map(s, f) == s
  {
    assert |Map(s, f)| == |s|;
  }

  lemma {:induction false} SumAppend(a: seq<int>, b: seq<int>)
    ensures Sum(a + b) == Sum(a) + Sum(b)
  {
    if b == [] {
      assert a + b == a;
    } else {
      assert (a + b)[..|a + b| - 1] == a + b[..|b| - 1];
      SumAppend(a, b[..|b| - 1]);
    }
  }

  /** A sequence is its front followed by its last element. */
  lemma SnocLast<T>(s: seq<T>)
    requires s != []
    ensures s[..|s| - 1] + [s[|s| - 1]] == s
  {}

  /** Filtering then rewriting, split off at the last row. */
  lemma MapFilterSnoc<A, B>(s: seq<A>, p: A -> bool, f: A -> B)
    requires s != []
    ensures Map(Filter(s, p), f)
         == Map(Filter(s[..|s| - 1], p), f) + (if p(s[|s| - 1]) then [f(s[|s| - 1])] else [])
  {
    var kept := Filter(s[..|s| - 1], p);
    if p(s[|s| - 1]) {
      var both := kept + [s[|s| - 1]];
      assert both[..|both| - 1] == kept;
    }
  }

  /** The sum of a rewritten column, split off at its last row. */
  lemma SumMapSnoc<A>(s: seq<A>, f: A -> int)
    requires s != []
    ensures Sum(Map(s, f)) == Sum(Map(s[..|s| - 1], f)) + f(s[|s| - 1])
  {
    var m := Map(s, f);
    assert m[..|m| - 1] == Map(s[..|s| - 1], f);
  }

  lemma {:induction false} SubseqRefl<T>(s: seq<T>)
    ensures Subseq(s, s)
  {
    if s != [] { SubseqRefl(s[..|s| - 1]); }
  }

  lemma {:induction false} SubseqDropLast<T>(a: seq<T>, b: seq<T>)
    requires a != [] && Subseq(a, b)
    ensures Subseq(a[..|a| - 1], b)
    decreases |b|
  {
    var a' := a[..|a| - 1];
    var b' := b[..|b| - 1];
    if a' != [] {
      if a[|a| - 1] != b[|b| - 1] {
        SubseqDropLast(a, b');
      }
      if a'[|a'| - 1] == b[|b| - 1] {
        SubseqDropLast(a', b');
      }
    }
  }

  /** Appending to the longer sequence keeps a subsequence a subsequence. */
  lemma SubseqExtend<T>(a: seq<T>, b: seq<T>, x: T)
    requires Subseq(a, b)
    ensures Subseq(a, b + [x])
  {
    var b' := b + [x];
    assert b'[..|b'| - 1] == b;
    if a != [] && a[|a| - 1] == x {
      SubseqDropLast(a, b);
    }
  }

  lemma {:induction false} SubseqTransitive<T>(a: seq<T>, b: seq<T>, c: seq<T>)
    requires Subseq(a, b) && Subseq(b, c)
    ensures Subseq(a, c)
    decreases |c|
  {
    if a != [] {
      var c' := c[..|c| - 1];
      if b[|b| - 1] == c[|c| - 1] {
        var b' := b[..|b| - 1];
        if a[|a| - 1] == b[|b| - 1] {
          SubseqTransitive(a[..|a| - 1], b', c');
        } else {
          SubseqTransitive(a, b', c');
        }
      } else {
        SubseqTransitive(a, b, c');
        if a[|a| - 1] == c[|c| - 1] {
          SubseqDropLast(a, c');
        }
      }
    }
  }

  /** A mask keeps a subsequence of the table. */
  lemma {:induction false} FilterSubseq<T>(s: seq<T>, p: T -> bool)
    ensures Subseq(Filter(s, p), s)
  {
    if s != [] {
      var init := s[..|s| - 1];
      FilterSubseq(init, p);
      var f := Filter(s, p);
      if p(s[|s| - 1]) {
        assert f[..|f| - 1] == Filter(init, p);
      } else {
        assert f == Filter(init, p);
        SubseqExtend(Filter(init, p), init, s[|s| - 1]);
        assert init + [s[|s| - 1]] == s;
      }
    }
  }

  /** The set of keys that occur in t. */
  function KeysOf<T, K>(t: seq<T>, key: T -> K): set<K> {
    if t == [] then {} else KeysOf(t[..|t| - 1], key) + {key(t[|t| - 1])}
  }

  /** The first row a filter keeps is the first row that satisfies it. */
  lemma {:induction false} FilterFirst<T>(s: seq<T>, p: T -> bool)
    requires Filter(s, p) != []
    ensures exists i :: 0 <= i < |s| && p(s[i]) && Filter(s, p)[0] == s[i]
                        && forall j :: 0 <= j < i ==> !p(s[j])
  {
    var init := s[..|s| - 1];
    if Filter(init, p) != [] {
      FilterFirst(init, p);
      var i :| 0 <= i < |init| && p(init[i]) && Filter(init, p)[0] == init[i]
               && forall j :: 0 <= j < i ==> !p(init[j]);
      assert forall j :: 0 <= j <= i ==> s[j] == init[j];
    } else {
      forall j | 0 <= j < |init| ensures !p(s[j]) {
        assert s[j] == init[j];
        FilterMember(init, p, init[j]);
      }
    }
  }

  /** Rewriting the rows by something that keeps their keys keeps the key set. */
  lemma {:induction false} KeysOfMap<A, B, K>(s: seq<A>, f: A -> B, ka: A -> K, kb: B -> K)
    requires forall x :: kb(f(x)) == ka(x)
    ensures KeysOf(Map(s, f), kb) == KeysOf(s, ka)
  {
    if s != [] {
      var m := Map(s, f);
      assert m[..|m| - 1] == Map(s[..|s| - 1], f);
      KeysOfMap(s[..|s| - 1], f, ka, kb);
    }
  }

  lemma {:induction false} KeysOfMember<T, K>(t: seq<T>, key: T -> K, x: K)
    ensures x in KeysOf(t, key) <==> exists k :: 0 <= k < |t| && key(t[k]) == x
  {
    if t != [] {
      var t' := t[..|t| - 1];
      KeysOfMember(t', key, x);
      if x in KeysOf(t', key) {
        var k :| 0 <= k < |t'| && key(t'[k]) == x;
        assert t[k] == t'[k];
      }
      if exists k :: 0 <= k < |t| && key(t[k]) == x {
        var k :| 0 <= k < |t| && key(t[k]) == x;
        if k < |t'| { assert t'[k] == t[k]; }
      }
    }
  }

  /** Row i holds the first occurrence of its key. */
  predicate IsFirst<T, K(==)>(s: seq<T>, key: T -> K, i: nat)
    requires i < |s|
  {
    key(s[i]) !in KeysOf(s[..i], key)
  }

  /** `df.drop_duplicates(subset=..., keep="first")`, as a function of the key
      the subset selects (missing values compare equal, as in pandas). */
  function KeepFirst<T, K(==)>(s: seq<T>, key: T -> K): (r: seq<T>)
  {
    KeepFirstUpTo(s, key, |s|)
  }

  function KeepFirstUpTo<T, K(==)>(s: seq<T>, key: T -> K, n: nat): (r: seq<T>)
    requires n <= |s|
    ensures |r| <= n
  {
    if n == 0 then []
    else KeepFirstUpTo(s, key, n - 1) + (if IsFirst(s, key, n - 1) then [s[n - 1]] else [])
  }

  /** No two rows of t share a key. */
  predicate DistinctKeys<T, K(==)>(t: seq<T>, key: T -> K) {
    forall a, b :: 0 <= a < b < |t| ==> key(t[a]) != key(t[b])
  }

  /** The helper `drop_duplicates`: the kept rows and how many were removed.
      The kept rows are a subsequence of the input, no two share a key, and
      every key of the input is still represented. */
  function DropDuplicates<T, K(==)>(s: seq<T>, key: T -> K): (r: (seq<T>, nat))
    ensures |r.0| + r.1 == |s|
    ensures Subseq(r.0, s)
    ensures DistinctKeys(r.0, key)
    ensures KeysOf(r.0, key) == KeysOf(s, key)
  {
    var kept := KeepFirst(s, key);
    assert s[..|s|] == s;
    KeepFirstSubseq(s, key, |s|);
    KeepFirstKeys(s, key, |s|);
    KeepFirstDistinct(s, key, |s|);
    (kept, |s| - |kept|)
  }

  lemma {:induction false} KeepFirstSubseq<T, K>(s: seq<T>, key: T -> K, n: nat)
    requires n <= |s|
    ensures Subseq(KeepFirstUpTo(s, key, n), s[..n])
  {
    if n > 0 {
      KeepFirstSubseq(s, key, n - 1);
      var p := KeepFirstUpTo(s, key, n - 1);
      assert s[..n] == s[..n - 1] + [s[n - 1]];
      if IsFirst(s, key, n - 1) {
        assert (p + [s[n - 1]])[..|p|] == p;
      } else {
        assert KeepFirstUpTo(s, key, n) == p;
        SubseqExtend(p, s[..n - 1], s[n - 1]);
      }
    }
  }

  /** Deduplication keeps exactly the keys of the prefix. */
  lemma {:induction false} KeepFirstKeys<T, K>(s: seq<T>, key: T -> K, n: nat)
    requires n <= |s|
    ensures KeysOf(KeepFirstUpTo(s, key, n), key) == KeysOf(s[..n], key)
  {
    if n > 0 {
      KeepFirstKeys(s, key, n - 1);
      var p := KeepFirstUpTo(s, key, n - 1);
      var r := KeepFirstUpTo(s, key, n);
      assert s[..n][..n - 1] == s[..n - 1];
      if IsFirst(s, key, n - 1) {
        assert r[..|r| - 1] == p;
      } else {
        assert r == p;
      }
    }
  }

  /** No two kept rows share a key. */
  lemma {:induction false} KeepFirstDistinct<T, K>(s: seq<T>, key: T -> K, n: nat)
    requires n <= |s|
    ensures DistinctKeys(KeepFirstUpTo(s, key, n), key)
  {
    if n > 0 {
      KeepFirstDistinct(s, key, n - 1);
      KeepFirstKeys(s, key, n - 1);
      var p := KeepFirstUpTo(s, key, n - 1);
      var r := KeepFirstUpTo(s, key, n);
      if IsFirst(s, key, n - 1) {
        forall a, b | 0 <= a < b < |r| ensures key(r[a]) != key(r[b]) {
          if b < |p| {
            assert r[a] == p[a] && r[b] == p[b];
          } else {
            assert r[a] == p[a] && r[b] == s[n - 1];
            KeysOfMember(p, key, key(p[a]));
          }
        }
      } else {
        assert r == p;
      }
    }
  }

  /** The rows drop_duplicates keeps are exactly the first occurrences of
      their keys. */
  lemma {:induction false} KeepFirstRows<T, K>(s: seq<T>, key: T -> K, n: nat, x: T)
    requires n <= |s|
    ensures x in KeepFirstUpTo(s, key, n) <==> exists i :: 0 <= i < n && IsFirst(s, key, i) && s[i] == x
  {
    if n > 0 {
      KeepFirstRows(s, key, n - 1, x);
      if exists i :: 0 <= i < n && IsFirst(s, key, i) && s[i] == x {
        var i :| 0 <= i < n && IsFirst(s, key, i) && s[i] == x;
        if i < n - 1 {
          assert exists j :: 0 <= j < n - 1 && IsFirst(s, key, j) && s[j] == x;
        }
      }
    }
  }

  /** A condition no row meets leaves no row meeting it. */
  lemma {:induction false} CountZero<T>(s: seq<T>, p: T -> bool)
    requires Count(s, p) == 0
    ensures forall i :: 0 <= i < |s| ==> !p(s[i])
  {
    if s != [] {
      CountZero(s[..|s| - 1], p);
      assert forall i :: 0 <= i < |s| - 1 ==> s[i] == s[..|s| - 1][i];
    }
  }

  /** A row is in the masked table exactly when it is in the table and
      passes the mask. */
  lemma {:induction false} FilterMember<T>(s: seq<T>, p: T -> bool, x: T)
    ensures x in Filter(s, p) <==> x in s && p(x)
  {
    if s != [] {
      var init := s[..|s| - 1];
      FilterMember(init, p, x);
      assert s == init + [s[|s| - 1]];
    }
  }

  /** The rewritten table holds the rewrites of the rows, and nothing else. */
  lemma MapMember<A, B>(s: seq<A>, f: A -> B, y: B)
    ensures y in Map(s, f) <==> exists x :: x in s && y == f(x)
  {
    var m := Map(s, f);
    if y in m {
      var k :| 0 <= k < |m| && m[k] == y;
      assert s[k] in s;
    }
    if exists x :: x in s && y == f(x) {
      var x :| x in s && y == f(x);
      var k :| 0 <= k < |s| && s[k] == x;
      assert m[k] == y;
    }
  }

  /** After de-duplication, a mask and a rewrite, the table holds exactly the
      rewrites of the first occurrences that pass the mask. */
  lemma KeepFirstFilterMap<T, K, U>(s: seq<T>, key: T -> K, p: T -> bool, f: T -> U, y: U)
    ensures y in Map(Filter(KeepFirst(s, key), p), f) <==>
      exists i :: 0 <= i < |s| && IsFirst(s, key, i) && p(s[i]) && y == f(s[i])
  {
    var kept := KeepFirst(s, key);
    MapMember(Filter(kept, p), f, y);
    if y in Map(Filter(kept, p), f) {
      var x :| x in Filter(kept, p) && y == f(x);
      FilterMember(kept, p, x);
      KeepFirstRows(s, key, |s|, x);
    }
    if exists i :: 0 <= i < |s| && IsFirst(s, key, i) && p(s[i]) && y == f(s[i]) {
      var i :| 0 <= i < |s| && IsFirst(s, key, i) && p(s[i]) && y == f(s[i]);
      KeepFirstRows(s, key, |s|, s[i]);
      FilterMember(kept, p, s[i]);
    }
  }
}
