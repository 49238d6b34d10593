/** Listing documents newest first with a limit, as the store's
    `sort({ timestamp: -1 }).limit(n)` does. Documents with equal stamps may
    come in any order. */
module Listing {
  import opened Vocabulary

  /** No element occurs twice. */
  predicate NoDuplicates<T(==)>(s: seq<T>)
  {
    forall i, j :: 0 <= i < j < |s| ==> s[i] != s[j]
  }

  predicate NewestFirstOrder(stamp: map<Id, int>, ids: seq<Id>)
    requires forall i :: 0 <= i < |ids| ==> ids[i] in stamp
  {
    forall i, j :: 0 <= i < j < |ids| ==> stamp[ids[i]] >= stamp[ids[j]]
  }

  function Min(a: nat, b: nat): nat
  {
    if a < b then a else b
  }

  /** `ids` lists min(limit, |sel|) of the selected documents, each once,
      newest first, and no document left out is newer than one listed. */
  ghost predicate IsNewestFirst(stamp: map<Id, int>, sel: set<Id>, limit: nat, ids: seq<Id>)
    requires sel <= stamp.Keys
  {
    && |ids| == Min(limit, |sel|)
    && NoDuplicates(ids)
    && (forall i :: 0 <= i < |ids| ==> ids[i] in sel)
    && NewestFirstOrder(stamp, ids)
    && (forall id, i :: id in sel && id !in ids && 0 <= i < |ids| ==> stamp[id] <= stamp[ids[i]])
  }

  function Elements(ids: seq<Id>): set<Id>
  {
    set i | i in ids
  }

  lemma {:induction false} DistinctCardinality(ids: seq<Id>)
    requires NoDuplicates(ids)
    ensures |Elements(ids)| == |ids|
  {
    if ids != [] {
      var init, x := ids[..|ids| - 1], ids[|ids| - 1];
      DistinctCardinality(init);
      assert x !in Elements(init);
      assert Elements(ids) == Elements(init) + {x};
    } else {
      assert Elements(ids) == {};
    }
  }

  lemma {:induction false} SubsetCardinality(a: set<Id>, b: set<Id>)
    requires a <= b
    ensures |a| <= |b|
  {
    if a != {} {
      var x :| x in a;
      SubsetCardinality(a - {x}, b - {x});
    }
  }

  /** A subset as large as its superset is the whole superset. */
  lemma SubsetOfSameSize(a: set<Id>, b: set<Id>)
    requires a <= b && |a| == |b|
    ensures a == b
  {
    if a != b {
      var x :| x in b && x !in a;
      SubsetCardinality(a, b - {x});
    }
  }

  /** Inserts `x` after every element at least as new, keeping the order. */
  method Insert(stamp: map<Id, int>, ids: seq<Id>, x: Id) returns (r: seq<Id>)
    requires x in stamp && forall i :: 0 <= i < |ids| ==> ids[i] in stamp
    requires NewestFirstOrder(stamp, ids)
    requires NoDuplicates(ids) && x !in ids
    ensures forall i :: 0 <= i < |r| ==> r[i] in stamp
    ensures NewestFirstOrder(stamp, r)
    ensures NoDuplicates(r)
    ensures forall id :: id in r <==> id in ids || id == x
  {
    var k := 0;
    while k < |ids| && stamp[ids[k]] >= stamp[x]
      invariant 0 <= k <= |ids|
      invariant forall i :: 0 <= i < k ==> stamp[ids[i]] >= stamp[x]
    {
      k := k + 1;
    }
    r := ids[..k] + [x] + ids[k..];
    SpliceFacts(ids, k, x, r);
    forall i, j | 0 <= i < j < |r| ensures stamp[r[i]] >= stamp[r[j]] {
      if i < k && j > k {
        assert stamp[ids[i]] >= stamp[ids[j - 1]];
      } else if i == k && j > k {
        assert stamp[ids[k]] < stamp[x];
        assert k <= j - 1 ==> stamp[ids[k]] >= stamp[ids[j - 1]];
      } else if i > k {
        assert stamp[ids[i - 1]] >= stamp[ids[j - 1]];
      }
    }
  }

  /** Where each element of `ids[..k] + [x] + ids[k..]` comes from. */
  lemma SplicePositions(ids: seq<Id>, k: nat, x: Id, r: seq<Id>)
    requires k <= |ids| && r == ids[..k] + [x] + ids[k..]
    ensures |r| == |ids| + 1 && r[k] == x
    ensures forall i :: 0 <= i < k ==> r[i] == ids[i]
    ensures forall i :: k < i < |r| ==> r[i] == ids[i - 1]
  {
  }

  /** Splicing a new element into a list without duplicates adds exactly
      that element and keeps the list free of duplicates. */
  lemma SpliceFacts(ids: seq<Id>, k: nat, x: Id, r: seq<Id>)
    requires k <= |ids| && r == ids[..k] + [x] + ids[k..]
    requires NoDuplicates(ids) && x !in ids
    ensures |r| == |ids| + 1 && r[k] == x
    ensures forall i :: 0 <= i < k ==> r[i] == ids[i]
    ensures forall i :: k < i < |r| ==> r[i] == ids[i - 1]
    ensures forall id :: id in r <==> id in ids || id == x
    ensures NoDuplicates(r)
  {
    SplicePositions(ids, k, x, r);
    forall id ensures id in r <==> id in ids || id == x {
      if id in ids {
        var i :| 0 <= i < |ids| && ids[i] == id;
        assert i < k ==> r[i] == id;
        assert i >= k ==> r[i + 1] == id;
      }
      if id in r {
        var i :| 0 <= i < |r| && r[i] == id;
        assert i != k ==> id in ids;
      }
    }
    forall i, j | 0 <= i < j < |r| ensures r[i] != r[j] {
      var i', j' := if i < k then i else i - 1, if j < k then j else j - 1;
      if i != k && j != k {
        assert r[i] == ids[i'] && r[j] == ids[j'] && i' < j';
      } else if i == k {
        assert r[j] == ids[j'];
      } else {
        assert r[i] == ids[i'];
      }
    }
  }

  /** The newest `limit` documents of `sel`, newest first. */
  method NewestFirst(stamp: map<Id, int>, sel: set<Id>, limit: nat) returns (ids: seq<Id>)
    requires sel <= stamp.Keys
    ensures IsNewestFirst(stamp, sel, limit, ids)
  {
    var all: seq<Id> := [];
    var rest := sel;
    while rest != {}
      invariant rest <= sel
      invariant forall i :: 0 <= i < |all| ==> all[i] in stamp
      invariant NewestFirstOrder(stamp, all)
      invariant NoDuplicates(all)
      invariant forall id :: id in all <==> id in sel - rest
      decreases rest
    {
      var x :| x in rest;
      all := Insert(stamp, all, x);
      rest := rest - {x};
    }
    assert Elements(all) == sel;
    DistinctCardinality(all);
    ids := all[..Min(limit, |all|)];
    forall id, i | id in sel && id !in ids && 0 <= i < |ids| ensures stamp[id] <= stamp[ids[i]] {
      var j :| 0 <= j < |all| && all[j] == id;
      assert j >= |ids|;
    }
  }
}
