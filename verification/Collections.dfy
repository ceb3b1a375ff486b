/** Finite maps as document collections: sums over a collection, queries that keep
    part of it, and the lists a query cursor may return. */
module Collections {

  /** The sum of f over every document of m. */
  ghost function Total<K, D>(m: map<K, D>, f: D -> real): real
    decreases |m|
  {
    if m == map[] then 0.0
    else
      var k :| k in m;
      f(m[k]) + Total(m - {k}, f)
  }

  /** The documents of m that satisfy the query p. */
  function Restrict<K, D>(m: map<K, D>, p: D -> bool): map<K, D> {
    map k | k in m && p(m[k]) :: m[k]
  }

  // ---- Sums -------------------------------------------------------------------

  lemma {:induction false} TotalRemove<K, D>(m: map<K, D>, f: D -> real, k: K)
    requires k in m
    ensures Total(m, f) == f(m[k]) + Total(m - {k}, f)
    decreases |m|
  {
    var j :| j in m && Total(m, f) == f(m[j]) + Total(m - {j}, f);
    if j != k {
      TotalRemove(m - {j}, f, k);
      TotalRemove(m - {k}, f, j);
      assert m - {j} - {k} == m - {k} - {j};
    }
  }

  lemma TotalPut<K, D>(m: map<K, D>, f: D -> real, k: K, v: D)
    ensures Total(m[k := v], f) == Total(m, f) - (if k in m then f(m[k]) else 0.0) + f(v)
  {
    TotalRemove(m[k := v], f, k);
    assert m[k := v] - {k} == m - {k};
    if k in m {
      TotalRemove(m, f, k);
    } else {
      assert m - {k} == m;
    }
  }

  /** A query and its complement split a sum in two. */
  lemma {:induction false} TotalSplit<K, D>(m: map<K, D>, p: D -> bool, q: D -> bool, f: D -> real)
    requires forall k :: k in m ==> q(m[k]) == !p(m[k])
    ensures Total(m, f) == Total(Restrict(m, p), f) + Total(Restrict(m, q), f)
    decreases |m|
  {
    if m != map[] {
      var k :| k in m;
      TotalRemove(m, f, k);
      TotalSplit(m - {k}, p, q, f);
      SplitStep(m, p, f, k);
      SplitStep(m, q, f, k);
    }
  }

  lemma SplitStep<K, D>(m: map<K, D>, p: D -> bool, f: D -> real, k: K)
    requires k in m
    ensures Total(Restrict(m, p), f) == Total(Restrict(m - {k}, p), f) + (if p(m[k]) then f(m[k]) else 0.0)
  {
    RestrictRemove(m, p, k);
    if p(m[k]) {
      TotalRemove(Restrict(m, p), f, k);
    } else {
      assert Restrict(m, p) - {k} == Restrict(m, p);
    }
  }

  lemma {:induction false} TotalNonNegative<K, D>(m: map<K, D>, f: D -> real)
    requires forall k :: k in m ==> f(m[k]) >= 0.0
    ensures Total(m, f) >= 0.0
    ensures Total(m, f) == 0.0 <==> forall k :: k in m ==> f(m[k]) == 0.0
    decreases |m|
  {
    if m != map[] {
      var k :| k in m;
      TotalRemove(m, f, k);
      TotalNonNegative(m - {k}, f);
      assert forall j :: j in m ==> j == k || j in m - {k};
    }
  }

  /** Grouping m by the label g: when every group document carries the sum of its own
      part of m, the group documents together carry the sum of everything labelled. */
  lemma {:induction false} TotalByGroup<K, D, L, E>(m: map<K, D>, g: D -> L, f: D -> real,
                                                    groups: map<L, E>, share: E -> real)
    requires forall l :: l in groups ==> share(groups[l]) == Total(Restrict(m, Labelled(g, l)), f)
    ensures Total(groups, share) == Total(Restrict(m, LabelledIn(g, groups.Keys)), f)
    decreases |groups|
  {
    hide Total, Restrict, LabelledIn;
    if groups == map[] {
      GroupNone(m, g, f);
      assert Total(groups, share) == 0.0 by { TotalNone<L, E>(share); }
    } else {
      var l :| l in groups;
      TotalRemove(groups, share, l);
      TotalByGroup(m, g, f, groups - {l}, share);
      GroupStep(m, g, f, groups.Keys, l);
      assert (groups - {l}).Keys == groups.Keys - {l};
    }
  }

  function Labelled<D, L(==)>(g: D -> L, l: L): D -> bool {
    d => g(d) == l
  }

  function LabelledIn<D, L(==)>(g: D -> L, ls: set<L>): D -> bool {
    d => g(d) in ls
  }

  lemma TotalNone<K, D>(f: D -> real)
    ensures Total<K, D>(map[], f) == 0.0
  {
  }

  lemma GroupNone<K, D, L>(m: map<K, D>, g: D -> L, f: D -> real)
    ensures Total(Restrict(m, LabelledIn(g, {})), f) == 0.0
  {
  }

  lemma GroupStep<K, D, L>(m: map<K, D>, g: D -> L, f: D -> real, ls: set<L>, l: L)
    requires l in ls
    ensures Total(Restrict(m, LabelledIn(g, ls)), f)
         == Total(Restrict(m, Labelled(g, l)), f) + Total(Restrict(m, LabelledIn(g, ls - {l})), f)
  {
    var all := Restrict(m, LabelledIn(g, ls));
    TotalSplit(all, Labelled(g, l), LabelledIn(g, ls - {l}), f);
    assert Restrict(all, Labelled(g, l)) == Restrict(m, Labelled(g, l));
    assert Restrict(all, LabelledIn(g, ls - {l})) == Restrict(m, LabelledIn(g, ls - {l}));
  }

  // ---- Queries ----------------------------------------------------------------

  lemma RestrictPut<K, D>(m: map<K, D>, p: D -> bool, k: K, v: D)
    ensures Restrict(m[k := v], p) == if p(v) then Restrict(m, p)[k := v] else Restrict(m, p) - {k}
  {
  }

  lemma RestrictRemove<K, D>(m: map<K, D>, p: D -> bool, k: K)
    ensures Restrict(m - {k}, p) == Restrict(m, p) - {k}
  {
  }

  lemma SameRestriction<K, D>(a: map<K, D>, b: map<K, D>, p: D -> bool)
    requires forall k :: k in a && p(a[k]) ==> k in b && b[k] == a[k]
    requires forall k :: k in b && p(b[k]) ==> k in a && p(a[k])
    ensures Restrict(b, p) == Restrict(a, p)
  {
  }

  lemma SizePut<K, D>(m: map<K, D>, k: K, v: D)
    ensures |m[k := v]| == if k in m then |m| else |m| + 1
  {
  }

  lemma SizeAtMost<K, D>(a: map<K, D>, b: map<K, D>)
    requires a.Keys <= b.Keys
    ensures |a| <= |b|
    ensures a.Keys != b.Keys ==> |a| < |b|
  {
    assert b.Keys == a.Keys + (b.Keys - a.Keys);
    assert |b.Keys| == |a.Keys| + |b.Keys - a.Keys|;
    if a.Keys != b.Keys {
      assert b.Keys - a.Keys != {};
    }
  }

  // ---- Cursors ----------------------------------------------------------------

  /** docs holds every document of m exactly once, in some order. */
  ghost predicate Lists<K, D>(docs: seq<D>, m: map<K, D>) {
    if docs == [] then m == map[]
    else exists k :: k in m && m[k] == docs[|docs| - 1] && Lists(docs[..|docs| - 1], m - {k})
  }

  function Sum<D>(docs: seq<D>, f: D -> real): real {
    if docs == [] then 0.0 else Sum(docs[..|docs| - 1], f) + f(docs[|docs| - 1])
  }

  function Filter<D>(docs: seq<D>, p: D -> bool): (r: seq<D>) {
    if docs == [] then []
    else
      var rest := Filter(docs[..|docs| - 1], p);
      if p(docs[|docs| - 1]) then rest + [docs[|docs| - 1]] else rest
  }

  lemma FilterLast<D>(docs: seq<D>, p: D -> bool, f: D -> real)
    requires docs != []
    ensures var last := docs[|docs| - 1];
            Sum(Filter(docs, p), f) == Sum(Filter(docs[..|docs| - 1], p), f) + if p(last) then f(last) else 0.0
  {
    var before := Filter(docs[..|docs| - 1], p);
    assert (before + [docs[|docs| - 1]])[..|before|] == before;
  }

  lemma {:induction false} ListedSize<K, D>(docs: seq<D>, m: map<K, D>)
    requires Lists(docs, m)
    ensures |docs| == |m|
  {
    if docs != [] {
      var k :| k in m && m[k] == docs[|docs| - 1] && Lists(docs[..|docs| - 1], m - {k});
      ListedSize(docs[..|docs| - 1], m - {k});
      SizePut(m - {k}, k, m[k]);
      assert (m - {k})[k := m[k]] == m;
    }
  }

  lemma {:induction false} ListedSum<K, D>(docs: seq<D>, m: map<K, D>, f: D -> real)
    requires Lists(docs, m)
    ensures Sum(docs, f) == Total(m, f)
  {
    if docs != [] {
      var k :| k in m && m[k] == docs[|docs| - 1] && Lists(docs[..|docs| - 1], m - {k});
      ListedSum(docs[..|docs| - 1], m - {k}, f);
      TotalRemove(m, f, k);
    }
  }

  lemma {:induction false} ListedFilter<K, D>(docs: seq<D>, m: map<K, D>, p: D -> bool)
    requires Lists(docs, m)
    ensures Lists(Filter(docs, p), Restrict(m, p))
  {
    if docs != [] {
      var init, last := docs[..|docs| - 1], docs[|docs| - 1];
      var k :| k in m && m[k] == last && Lists(init, m - {k});
      ListedFilter(init, m - {k}, p);
      RestrictRemove(m, p, k);
      var kept := Filter(docs, p);
      if p(last) {
        assert kept[..|kept| - 1] == Filter(init, p) && kept[|kept| - 1] == last;
        assert k in Restrict(m, p);
      } else {
        assert Restrict(m, p) - {k} == Restrict(m, p);
      }
    }
  }

  lemma {:induction false} ListedDocument<K, D>(docs: seq<D>, m: map<K, D>, i: nat)
    requires Lists(docs, m)
    requires i < |docs|
    ensures exists k :: k in m && m[k] == docs[i]
  {
    var n := |docs| - 1;
    var k :| k in m && m[k] == docs[n] && Lists(docs[..n], m - {k});
    if i < n {
      ListedDocument(docs[..n], m - {k}, i);
      var j :| j in m - {k} && (m - {k})[j] == docs[..n][i];
      assert j in m && m[j] == docs[i];
    }
  }

  lemma {:induction false} ListedIndex<K, D>(docs: seq<D>, m: map<K, D>, k: K) returns (i: nat)
    requires Lists(docs, m)
    requires k in m
    ensures i < |docs| && docs[i] == m[k]
  {
    var n := |docs| - 1;
    var j :| j in m && m[j] == docs[n] && Lists(docs[..n], m - {j});
    if j == k {
      i := n;
    } else {
      i := ListedIndex(docs[..n], m - {j}, k);
    }
  }

  lemma {:induction false} ListedCount<K, D>(docs: seq<D>, m: map<K, D>, d: D)
    requires Lists(docs, m)
    ensures multiset(docs)[d] == |set k | k in m && m[k] == d|
  {
    if docs != [] {
      var init, last := docs[..|docs| - 1], docs[|docs| - 1];
      var k :| k in m && m[k] == last && Lists(init, m - {k});
      ListedCount(init, m - {k}, d);
      assert docs == init + [last];
      var all, rest := set j | j in m && m[j] == d, set j | j in m - {k} && (m - {k})[j] == d;
      assert all == if last == d then rest + {k} else rest;
    }
  }

  /** Two listings of one collection hold the same documents equally often. */
  lemma ListedTwice<K, D>(a: seq<D>, b: seq<D>, m: map<K, D>)
    requires Lists(a, m) && Lists(b, m)
    ensures multiset(a) == multiset(b)
  {
    forall d ensures multiset(a)[d] == multiset(b)[d] {
      ListedCount(a, m, d);
      ListedCount(b, m, d);
    }
  }

  /** q enumerates the set s without repetition. */
  ghost predicate Enumerates<K>(q: seq<K>, s: set<K>) {
    && (forall i :: 0 <= i < |q| ==> q[i] in s)
    && (forall x :: x in s ==> x in q)
    && (forall i, j :: 0 <= i < j < |q| ==> q[i] != q[j])
  }

  lemma {:induction false} EnumeratedLists<K, D>(q: seq<K>, m: map<K, D>, docs: seq<D>)
    requires Enumerates(q, m.Keys)
    requires |docs| == |q| && forall i :: 0 <= i < |q| ==> docs[i] == m[q[i]]
    ensures Lists(docs, m)
    decreases |q|
  {
    if q == [] {
      assert forall x :: x in m ==> x in q;
      assert m == map[];
    } else {
      var n := |q| - 1;
      var k := q[n];
      assert Enumerates(q[..n], (m - {k}).Keys) by {
        forall x | x in m - {k} ensures x in q[..n] {
          assert x in q;
          var i :| 0 <= i < |q| && q[i] == x;
          assert i != n && q[..n][i] == x;
        }
      }
      EnumeratedLists(q[..n], m - {k}, docs[..n]);
      assert k in m && m[k] == docs[n];
    }
  }

  ghost predicate Ascending<K>(q: seq<K>, rank: map<K, int>) {
    && (forall i :: 0 <= i < |q| ==> q[i] in rank)
    && (forall i, j :: 0 <= i < j < |q| ==> rank[q[i]] <= rank[q[j]])
  }

  /** The keys of s by ascending rank. Ties may come out in any order: the contract
      promises nothing about them. */
  method Sorted<K(==)>(s: set<K>, rank: map<K, int>) returns (q: seq<K>)
    requires s <= rank.Keys
    ensures Enumerates(q, s)
    ensures Ascending(q, rank)
  {
    var rest := s;
    ghost var done: set<K> := {};
    q := [];
    while rest != {}
      invariant done + rest == s && done !! rest
      invariant Enumerates(q, done)
      invariant Ascending(q, rank)
      decreases |rest|
    {
      var k :| k in rest;
      var at := Slot(q, rank, k);
      InsertedEnumerates(q, done, at, k);
      q, done, rest := q[..at] + [k] + q[at..], done + {k}, rest - {k};
    }
  }

  /** Where k goes in the ascending list q. */
  method Slot<K(==)>(q: seq<K>, rank: map<K, int>, k: K) returns (at: nat)
    requires Ascending(q, rank) && k in rank
    ensures at <= |q|
    ensures Ascending(q[..at] + [k] + q[at..], rank)
  {
    at := 0;
    while at < |q| && rank[q[at]] <= rank[k]
      invariant at <= |q|
      invariant forall i :: 0 <= i < at ==> rank[q[i]] <= rank[k]
    {
      at := at + 1;
    }
  }

  lemma InsertedEnumerates<K>(q: seq<K>, s: set<K>, at: nat, k: K)
    requires Enumerates(q, s)
    requires at <= |q| && k !in s
    ensures Enumerates(q[..at] + [k] + q[at..], s + {k})
  {
  }

  /** A cursor over the documents of m, in no particular order. */
  method Find<K(==), D>(m: map<K, D>) returns (docs: seq<D>)
    ensures Lists(docs, m)
  {
    var q := Sorted(m.Keys, map k | k in m :: 0);
    docs := seq(|q|, i requires 0 <= i < |q| && q[i] in m => m[q[i]]);
    EnumeratedLists(q, m, docs);
  }

  /** A cursor over the documents of m by ascending rank. */
  method FindSorted<K(==), D>(m: map<K, D>, rank: D -> int) returns (docs: seq<D>)
    ensures Lists(docs, m)
    ensures forall i, j :: 0 <= i < j < |docs| ==> rank(docs[i]) <= rank(docs[j])
  {
    var ranks := map k | k in m :: rank(m[k]);
    var q := Sorted(m.Keys, ranks);
    docs := seq(|q|, i requires 0 <= i < |q| && q[i] in m => m[q[i]]);
    EnumeratedLists(q, m, docs);
    assert forall i :: 0 <= i < |q| ==> ranks[q[i]] == rank(docs[i]);
  }
}
