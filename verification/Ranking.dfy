/**
  ORDER BY … LIMIT n: the first n of a finite set under a strict total order. The outbox
  batch, the sweep's selection and the polling pass are all of this kind.
 */
module Ranking {
  import opened Prelude

  type Order = (nat, nat) -> bool

  ghost predicate TotalOn(s: set<nat>, less: Order) {
    && (forall i :: i in s ==> !less(i, i))
    && (forall i, j :: i in s && j in s && i != j ==> less(i, j) || less(j, i))
    && (forall i, j, k :: i in s && j in s && k in s && less(i, j) && less(j, k) ==> less(i, k))
  }

  ghost predicate IsFirst(s: set<nat>, less: Order, batch: seq<nat>, n: nat) {
    && |batch| <= n
    && (forall k :: 0 <= k < |batch| ==> batch[k] in s)
    && (forall k, m :: 0 <= k < m < |batch| ==> less(batch[k], batch[m]))
    && (forall i :: i in s && i !in batch ==> |batch| == n && forall k :: 0 <= k < |batch| ==> less(batch[k], i))
  }

  lemma {:induction false} Foremost(s: set<nat>, less: Order) returns (m: nat)
    requires s != {} && TotalOn(s, less)
    ensures m in s && forall i :: i in s && i != m ==> less(m, i)
    decreases s
  {
    var x :| x in s;
    m := x;
    if s != {x} {
      var f := Foremost(s - {x}, less);
      m := if less(f, x) then f else x;
      forall i | i in s && i != m ensures less(m, i) {
        assert i == x || i == f || less(f, i);
      }
    }
  }

  /** There always is a first n. */
  lemma {:induction false} FirstExists(s: set<nat>, less: Order, n: nat) returns (batch: seq<nat>)
    requires TotalOn(s, less)
    ensures IsFirst(s, less, batch, n)
    decreases n
  {
    batch := [];
    if n > 0 {
      batch := FirstExists(s, less, n - 1);
      var rest := set i | i in s && i !in batch;
      if rest != {} {
        var m := Foremost(rest, less);
        Appended(s, less, batch, n, m);
        batch := batch + [m];
      } else {
        forall i | i in s ensures i in batch {
          assert i !in rest;
        }
      }
    }
  }

  lemma Appended(s: set<nat>, less: Order, was: seq<nat>, n: nat, m: nat)
    requires n > 0 && IsFirst(s, less, was, n - 1) && m in s && m !in was
    requires forall i :: i in s && i !in was && i != m ==> less(m, i)
    ensures IsFirst(s, less, was + [m], n)
  {
    var batch := was + [m];
    forall i | i in s && i !in batch ensures |batch| == n && forall k :: 0 <= k < |batch| ==> less(batch[k], i) {
      assert i !in was && i != m;
    }
  }

  ghost function Before(s: set<nat>, less: Order, i: nat): set<nat> { set j | j in s && less(j, i) }

  lemma {:induction false} PrefixSize(s: set<nat>, less: Order, batch: seq<nat>, k: nat)
    requires k <= |batch| && TotalOn(s, less)
    requires forall m :: 0 <= m < |batch| ==> batch[m] in s
    requires forall m, l :: 0 <= m < l < |batch| ==> less(batch[m], batch[l])
    ensures |set m | 0 <= m < k :: batch[m]| == k
    decreases k
  {
    if k > 0 {
      PrefixSize(s, less, batch, k - 1);
      var shorter := set m | 0 <= m < k - 1 :: batch[m];
      assert (set m | 0 <= m < k :: batch[m]) == shorter + {batch[k - 1]};
      assert batch[k - 1] !in shorter;
    }
  }

  /** The k-th of the batch has exactly k before it. */
  lemma BeforeMember(s: set<nat>, less: Order, batch: seq<nat>, n: nat, k: nat)
    requires TotalOn(s, less) && IsFirst(s, less, batch, n) && k < |batch|
    ensures |Before(s, less, batch[k])| == k
  {
    var first := set m | 0 <= m < k :: batch[m];
    forall u | u in Before(s, less, batch[k]) ensures u in first {
      assert !less(batch[k], u);
      assert u in batch;
      var m :| 0 <= m < |batch| && batch[m] == u;
      assert m < k;
      assert batch[m] in first;
    }
    assert Before(s, less, batch[k]) == first;
    PrefixSize(s, less, batch, k);
  }

  lemma AllBefore(s: set<nat>, less: Order, batch: seq<nat>, n: nat, i: nat)
    requires TotalOn(s, less) && IsFirst(s, less, batch, n) && i in s && i !in batch
    ensures |Before(s, less, i)| >= n
  {
    var first := set m | 0 <= m < |batch| :: batch[m];
    PrefixSize(s, less, batch, |batch|);
    assert first <= Before(s, less, i);
    SmallerSet(first, Before(s, less, i));
  }

  /** A member of the set is among the first n exactly when fewer than n come before it. */
  lemma InFirstIff(s: set<nat>, less: Order, batch: seq<nat>, n: nat, i: nat)
    requires TotalOn(s, less) && IsFirst(s, less, batch, n) && i in s
    ensures i in batch <==> |Before(s, less, i)| < n
  {
    if i in batch {
      var k :| 0 <= k < |batch| && batch[k] == i;
      BeforeMember(s, less, batch, n, k);
    } else {
      AllBefore(s, less, batch, n, i);
    }
  }
}
