/**
  The outbox table and drain (platform_core/correctness/outbox.py): batches are taken by
  position within the tenant, so no tenant waits behind another's backlog.

  Rows are listed in id order; a row's index stands for its id, and later commits append.
 */
module Outbox {
  import opened Prelude
  import R = Ranking

  datatype Row = Row(tenant: TenantId, run: RunId, publishedAt: Option<Time>, attempts: nat)

  predicate Pending(rows: seq<Row>, i: nat) {
    i < |rows| && rows[i].publishedAt.None?
  }

  /** Unpublished rows of the tenant among the first n. */
  function CountPending(rows: seq<Row>, tenant: TenantId, n: nat): nat
    requires n <= |rows|
  {
    if n == 0 then 0
    else CountPending(rows, tenant, n - 1) + (if Pending(rows, n - 1) && rows[n - 1].tenant == tenant then 1 else 0)
  }

  /** row_number() OVER (PARTITION BY tenant_id ORDER BY id) */
  function Position(rows: seq<Row>, i: nat): nat
    requires i < |rows|
  {
    CountPending(rows, rows[i].tenant, i) + 1
  }

  /** ORDER BY pos, id */
  predicate Ahead(rows: seq<Row>, i: nat, j: nat)
    requires i < |rows| && j < |rows|
  {
    Position(rows, i) < Position(rows, j) || (Position(rows, i) == Position(rows, j) && i < j)
  }

  /** The batch query: the first n unpublished rows in queue order, in that order. */
  ghost predicate IsBatch(rows: seq<Row>, batch: seq<nat>, n: nat) {
    && |batch| <= n
    && (forall k :: 0 <= k < |batch| ==> Pending(rows, batch[k]))
    && (forall k, m :: 0 <= k < m < |batch| ==> Ahead(rows, batch[k], batch[m]))
    && (forall i :: Pending(rows, i) && i !in batch ==>
          |batch| == n && forall k :: 0 <= k < |batch| ==> Ahead(rows, batch[k], i))
  }

  ghost function QueueOrder(rows: seq<Row>): R.Order {
    (i: nat, j: nat) => i < |rows| && j < |rows| && Ahead(rows, i, j)
  }

  /** The batch query always has an answer. */
  lemma BatchExists(rows: seq<Row>, n: nat) returns (batch: seq<nat>)
    ensures IsBatch(rows, batch, n)
  {
    hide Position;
    var pending := set i | 0 <= i < |rows| && Pending(rows, i);
    batch := R.FirstExists(pending, QueueOrder(rows), n);
  }

  // ---------------------------------------------------------------- one pass is fair

  /** If some row at position p made the batch, so did every row at an earlier position of any tenant. */
  lemma EarlierPositionsFirst(rows: seq<Row>, batch: seq<nat>, n: nat, i: nat, j: nat)
    requires IsBatch(rows, batch, n) && i in batch
    requires Pending(rows, j) && Position(rows, j) < Position(rows, i)
    ensures j in batch
  {
  }

  ghost function PendingTenants(rows: seq<Row>): set<TenantId> {
    set i | 0 <= i < |rows| && Pending(rows, i) :: rows[i].tenant
  }

  lemma {:induction false} CountMonotone(rows: seq<Row>, tenant: TenantId, m: nat, n: nat)
    requires m <= n <= |rows|
    ensures CountPending(rows, tenant, m) <= CountPending(rows, tenant, n)
    ensures (exists i :: m <= i < n && Pending(rows, i) && rows[i].tenant == tenant) <==>
            CountPending(rows, tenant, m) < CountPending(rows, tenant, n)
    decreases n - m
  {
    if m < n {
      CountMonotone(rows, tenant, m, n - 1);
    }
  }

  /** Two unpublished rows of one tenant never share a position. */
  lemma PositionsAreDistinct(rows: seq<Row>, i: nat, j: nat)
    requires Pending(rows, i) && Pending(rows, j) && i < j && rows[i].tenant == rows[j].tenant
    ensures Position(rows, i) < Position(rows, j)
  {
    CountMonotone(rows, rows[j].tenant, i, j);
  }

  ghost function TenantsOf(rows: seq<Row>, batch: seq<nat>): set<TenantId>
    requires forall k :: 0 <= k < |batch| ==> batch[k] < |rows|
  {
    set k | 0 <= k < |batch| :: rows[batch[k]].tenant
  }

  /** Rows of pairwise different tenants: as many tenants as rows. */
  lemma {:induction false} DistinctTenantsCount(rows: seq<Row>, batch: seq<nat>)
    requires forall k :: 0 <= k < |batch| ==> batch[k] < |rows|
    requires forall k, m :: 0 <= k < m < |batch| ==> rows[batch[k]].tenant != rows[batch[m]].tenant
    ensures |TenantsOf(rows, batch)| == |batch|
    decreases |batch|
  {
    if batch != [] {
      var init, last := batch[..|batch| - 1], batch[|batch| - 1];
      DistinctTenantsCount(rows, init);
      assert TenantsOf(rows, batch) == TenantsOf(rows, init) + {rows[last].tenant};
      assert rows[last].tenant !in TenantsOf(rows, init);
    }
  }

  /** With no more pending tenants than the batch holds, every tenant's first row is in it. */
  lemma FirstRowsAlwaysFit(rows: seq<Row>, batch: seq<nat>, n: nat, i: nat)
    requires IsBatch(rows, batch, n) && |PendingTenants(rows)| <= n
    requires Pending(rows, i) && Position(rows, i) == 1
    ensures i in batch
  {
    if i !in batch {
      forall k, m | 0 <= k < m < |batch| ensures rows[batch[k]].tenant != rows[batch[m]].tenant {
        if rows[batch[k]].tenant == rows[batch[m]].tenant {
          FirstOfTenantUnique(rows, batch[k], batch[m]);
        }
      }
      DistinctTenantsCount(rows, batch);
      forall k | 0 <= k < |batch| ensures rows[batch[k]].tenant != rows[i].tenant {
        if rows[batch[k]].tenant == rows[i].tenant {
          FirstOfTenantUnique(rows, batch[k], i);
        }
      }
      assert TenantsOf(rows, batch) + {rows[i].tenant} <= PendingTenants(rows);
      SmallerSet(TenantsOf(rows, batch) + {rows[i].tenant}, PendingTenants(rows));
    }
  }

  lemma FirstOfTenantUnique(rows: seq<Row>, i: nat, j: nat)
    requires Pending(rows, i) && Pending(rows, j) && rows[i].tenant == rows[j].tenant
    requires Position(rows, i) == Position(rows, j)
    ensures i == j
  {
    if i < j {
      PositionsAreDistinct(rows, i, j);
    } else if j < i {
      PositionsAreDistinct(rows, j, i);
    }
  }

  // ---------------------------------------------------------------- many passes

  /** What one pass leaves: published where publish succeeded, one more attempt where it raised. */
  function Drained(rows: seq<Row>, batch: seq<nat>, ok: nat -> bool, now: Time): (r: seq<Row>)
    ensures |r| == |rows|
    ensures forall i :: 0 <= i < |rows| ==>
              r[i] == if i !in batch then rows[i]
                      else if ok(i) then rows[i].(publishedAt := Some(now))
                      else rows[i].(attempts := rows[i].attempts + 1)
  {
    seq(|rows|, i requires 0 <= i < |rows| =>
      if i !in batch then rows[i]
      else if ok(i) then rows[i].(publishedAt := Some(now))
      else rows[i].(attempts := rows[i].attempts + 1))
  }

  /** Between two looks at the table: rows of any tenants arrive, then one pass runs. */
  datatype Pass = Pass(arrivals: seq<Row>, batch: seq<nat>, ok: nat -> bool, now: Time)

  /** The pass is a possible one, with room for every pending tenant, and publishes tenant t's rows. */
  ghost predicate GoodPass(rows: seq<Row>, p: Pass, n: nat, t: TenantId) {
    var before := rows + p.arrivals;
    && IsBatch(before, p.batch, n) && |PendingTenants(before)| <= n
    && forall i :: i in p.batch && i < |before| && before[i].tenant == t ==> p.ok(i)
  }

  function AfterPass(rows: seq<Row>, p: Pass): seq<Row> {
    Drained(rows + p.arrivals, p.batch, p.ok, p.now)
  }

  ghost predicate GoodPasses(rows: seq<Row>, ps: seq<Pass>, n: nat, t: TenantId)
    decreases |ps|
  {
    ps != [] ==> GoodPass(rows, ps[0], n, t) && GoodPasses(AfterPass(rows, ps[0]), ps[1..], n, t)
  }

  function AfterPasses(rows: seq<Row>, ps: seq<Pass>): seq<Row>
    decreases |ps|
  {
    if ps == [] then rows else AfterPasses(AfterPass(rows, ps[0]), ps[1..])
  }

  lemma {:induction false} CountIgnoresArrivals(rows: seq<Row>, more: seq<Row>, t: TenantId, n: nat)
    requires n <= |rows|
    ensures CountPending(rows + more, t, n) == CountPending(rows, t, n)
    decreases n
  {
    if n > 0 {
      CountIgnoresArrivals(rows, more, t, n - 1);
    }
  }

  /** Publishing rows never raises a count, and publishing the tenant's first row lowers it. */
  lemma {:induction false} CountAfterDrain(rows: seq<Row>, batch: seq<nat>, ok: nat -> bool, now: Time, t: TenantId, n: nat)
    requires n <= |rows|
    ensures CountPending(Drained(rows, batch, ok, now), t, n) <= CountPending(rows, t, n)
    ensures (exists i :: 0 <= i < n && Pending(rows, i) && rows[i].tenant == t && i in batch && ok(i)) ==>
              CountPending(Drained(rows, batch, ok, now), t, n) < CountPending(rows, t, n)
    decreases n
  {
    if n > 0 {
      CountAfterDrain(rows, batch, ok, now, t, n - 1);
    }
  }

  lemma {:induction false} FirstPending(rows: seq<Row>, t: TenantId, n: nat) returns (i: nat)
    requires n <= |rows| && CountPending(rows, t, n) > 0
    ensures i < n && Pending(rows, i) && rows[i].tenant == t && Position(rows, i) == 1
    decreases n
  {
    if CountPending(rows, t, n - 1) > 0 {
      i := FirstPending(rows, t, n - 1);
    } else {
      i := n - 1;
    }
  }

  /** One good pass publishes the row or moves it at least one place forward. */
  lemma PassAdvances(rows: seq<Row>, p: Pass, n: nat, i: nat)
    requires Pending(rows, i) && GoodPass(rows, p, n, rows[i].tenant)
    ensures var after := AfterPass(rows, p);
            && i < |after| && after[i].tenant == rows[i].tenant
            && (Pending(after, i) ==> Position(rows, i) > 1 && Position(after, i) < Position(rows, i))
  {
    var t := rows[i].tenant;
    var before, after := rows + p.arrivals, AfterPass(rows, p);
    CountIgnoresArrivals(rows, p.arrivals, t, i);
    assert Pending(before, i) && Position(before, i) == Position(rows, i);
    if Position(rows, i) == 1 {
      FirstRowsAlwaysFit(before, p.batch, n, i);
    } else {
      var head := FirstPending(before, t, i);
      FirstRowsAlwaysFit(before, p.batch, n, head);
      CountAfterDrain(before, p.batch, p.ok, p.now, t, i);
    }
  }

  lemma {:induction false} PublishedForever(rows: seq<Row>, ps: seq<Pass>, n: nat, t: TenantId, i: nat)
    requires i < |rows| && rows[i].publishedAt.Some? && GoodPasses(rows, ps, n, t)
    ensures i < |AfterPasses(rows, ps)| && AfterPasses(rows, ps)[i].publishedAt == rows[i].publishedAt
    decreases |ps|
  {
    if ps != [] {
      var before := rows + ps[0].arrivals;
      assert !Pending(before, i) && i !in ps[0].batch;
      PublishedForever(AfterPass(rows, ps[0]), ps[1..], n, t, i);
    }
  }

  /**
    Fair draining: a row at position p of its tenant is published within p passes, whatever
    rows arrive in between and even if every publish of another tenant fails.
   */
  lemma {:induction false} PublishedWithinPosition(rows: seq<Row>, ps: seq<Pass>, n: nat, i: nat)
    requires Pending(rows, i) && GoodPasses(rows, ps, n, rows[i].tenant)
    requires |ps| >= Position(rows, i)
    ensures i < |AfterPasses(rows, ps)| && AfterPasses(rows, ps)[i].publishedAt.Some?
    decreases |ps|
  {
    PassAdvances(rows, ps[0], n, i);
    var after := AfterPass(rows, ps[0]);
    if Pending(after, i) {
      PublishedWithinPosition(after, ps[1..], n, i);
    } else {
      PublishedForever(after, ps[1..], n, rows[i].tenant, i);
    }
  }
}
