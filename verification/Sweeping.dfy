/**
  Which stranded runs a sweep picks (apps/worker/tasks.py): ranked within their tenant, then
  across tenants, and cut off at 100.

  Rows that tie in every ORDER BY column are taken in id order.
 */
module Sweeping {
  import opened Prelude
  import L = Leases
  import R = Ranking

  /** LOST_POINTER_AFTER */
  const LOST_POINTER_AFTER: Time := 45.0

  /** LIMIT 100 */
  const SWEEP_LIMIT: nat := 100

  /** The WHERE clause. */
  predicate Stranded(r: L.Run, now: Time) {
    && L.Leasable(r, now)
    && match r.lastEnqueuedAt
       case None => true
       case Some(t) => if r.attempt == 0 then t < now - LOST_POINTER_AFTER else t < r.availableAt
  }

  predicate StrandedAt(rows: seq<L.Run>, now: Time, i: nat) {
    i < |rows| && Stranded(rows[i], now)
  }

  ghost function StrandedRows(rows: seq<L.Run>, now: Time): set<nat> {
    set i | 0 <= i < |rows| && StrandedAt(rows, now, i)
  }

  /** ORDER BY priority DESC, available_at, created_at */
  predicate Precedes(rows: seq<L.Run>, j: nat, i: nat)
    requires i < |rows| && j < |rows|
  {
    var a, b := rows[j], rows[i];
    a.priority > b.priority || (a.priority == b.priority &&
      (a.availableAt < b.availableAt || (a.availableAt == b.availableAt &&
        (a.createdAt < b.createdAt || (a.createdAt == b.createdAt && j < i)))))
  }

  /** Stranded runs of the same tenant that come first. */
  ghost function AheadInTenant(rows: seq<L.Run>, now: Time, i: nat): set<nat>
    requires i < |rows|
  {
    set j | j in StrandedRows(rows, now) && rows[j].tenant == rows[i].tenant && Precedes(rows, j, i)
  }

  /** row_number() OVER (PARTITION BY tenant_id …) */
  ghost function Position(rows: seq<L.Run>, now: Time, i: nat): nat
    requires i < |rows|
  {
    |AheadInTenant(rows, now, i)| + 1
  }

  /** ORDER BY tenant_position, available_at */
  ghost predicate Ahead(rows: seq<L.Run>, now: Time, j: nat, i: nat)
    requires i < |rows| && j < |rows|
  {
    Position(rows, now, j) < Position(rows, now, i) || (Position(rows, now, j) == Position(rows, now, i) &&
      (rows[j].availableAt < rows[i].availableAt || (rows[j].availableAt == rows[i].availableAt && j < i)))
  }

  ghost function Order(rows: seq<L.Run>, now: Time): R.Order {
    (j: nat, i: nat) => j < |rows| && i < |rows| && Ahead(rows, now, j, i)
  }

  /** What the sweep's query may return. */
  ghost predicate IsSelection(rows: seq<L.Run>, now: Time, batch: seq<nat>, n: nat) {
    R.IsFirst(StrandedRows(rows, now), Order(rows, now), batch, n)
  }

  /** Stranded runs of any tenant that the query ranks before run i. */
  ghost function AheadOf(rows: seq<L.Run>, now: Time, i: nat): set<nat> {
    R.Before(StrandedRows(rows, now), Order(rows, now), i)
  }

  lemma OrderIsTotal(rows: seq<L.Run>, now: Time)
    ensures R.TotalOn(StrandedRows(rows, now), Order(rows, now))
  {
    hide Position;
  }

  lemma SelectionExists(rows: seq<L.Run>, now: Time, n: nat) returns (batch: seq<nat>)
    ensures IsSelection(rows, now, batch, n)
  {
    OrderIsTotal(rows, now);
    batch := R.FirstExists(StrandedRows(rows, now), Order(rows, now), n);
  }

  /** A stranded run is picked exactly when fewer than n stranded runs rank before it; no other is. */
  lemma SelectedIff(rows: seq<L.Run>, now: Time, batch: seq<nat>, n: nat, i: nat)
    requires IsSelection(rows, now, batch, n) && i < |rows|
    ensures i in batch <==> StrandedAt(rows, now, i) && |AheadOf(rows, now, i)| < n
  {
    OrderIsTotal(rows, now);
    assert forall k :: 0 <= k < |batch| ==> batch[k] in StrandedRows(rows, now);
    if StrandedAt(rows, now, i) {
      R.InFirstIff(StrandedRows(rows, now), Order(rows, now), batch, n, i);
    }
  }

  // ---------------------------------------------------------------- one tenant's first run

  ghost function StrandedTenants(rows: seq<L.Run>, now: Time): set<TenantId> {
    set i | i in StrandedRows(rows, now) :: rows[i].tenant
  }

  lemma AheadShrinks(rows: seq<L.Run>, now: Time, j: nat, i: nat)
    requires StrandedAt(rows, now, j) && i < |rows| && rows[j].tenant == rows[i].tenant && Precedes(rows, j, i)
    ensures AheadInTenant(rows, now, j) < AheadInTenant(rows, now, i) && Position(rows, now, j) < Position(rows, now, i)
  {
    var a, b := AheadInTenant(rows, now, j), AheadInTenant(rows, now, i);
    assert j in b && j !in a;
    assert a <= b - {j};
    SmallerSet(a, b - {j});
  }

  /** Two stranded runs of one tenant never share a position. */
  lemma PositionsDiffer(rows: seq<L.Run>, now: Time, j: nat, i: nat)
    requires StrandedAt(rows, now, j) && StrandedAt(rows, now, i) && i != j && rows[j].tenant == rows[i].tenant
    ensures Position(rows, now, j) != Position(rows, now, i)
  {
    if Precedes(rows, j, i) {
      AheadShrinks(rows, now, j, i);
    } else {
      AheadShrinks(rows, now, i, j);
    }
  }

  lemma {:induction false} DistinctTenants(rows: seq<L.Run>, s: set<nat>)
    requires forall i :: i in s ==> i < |rows|
    requires forall i, j :: i in s && j in s && i != j ==> rows[i].tenant != rows[j].tenant
    ensures |set i | i in s :: rows[i].tenant| == |s|
    decreases s
  {
    if s != {} {
      var x :| x in s;
      var rest := set i | i in s - {x} :: rows[i].tenant;
      DistinctTenants(rows, s - {x});
      assert (set i | i in s :: rows[i].tenant) == rest + {rows[x].tenant};
      assert rows[x].tenant !in rest;
    }
  }

  /** With no more stranded tenants than the limit, the first run of each is picked. */
  lemma FirstIsSelected(rows: seq<L.Run>, now: Time, batch: seq<nat>, n: nat, i: nat)
    requires IsSelection(rows, now, batch, n) && |StrandedTenants(rows, now)| <= n
    requires StrandedAt(rows, now, i) && Position(rows, now, i) == 1
    ensures i in batch
  {
    var s := AheadOf(rows, now, i);
    forall j | j in s ensures Position(rows, now, j) == 1 && rows[j].tenant != rows[i].tenant {
      assert j != i;
      if rows[j].tenant == rows[i].tenant {
        PositionsDiffer(rows, now, j, i);
      }
    }
    forall j, k | j in s && k in s && j != k ensures rows[j].tenant != rows[k].tenant {
      if rows[j].tenant == rows[k].tenant {
        PositionsDiffer(rows, now, j, k);
      }
    }
    hide Position;
    DistinctTenants(rows, s);
    var tenants := set j | j in s :: rows[j].tenant;
    assert tenants + {rows[i].tenant} <= StrandedTenants(rows, now);
    SmallerSet(tenants + {rows[i].tenant}, StrandedTenants(rows, now));
    SelectedIff(rows, now, batch, n, i);
  }

  lemma {:induction false} FirstOfTenant(rows: seq<L.Run>, now: Time, i: nat) returns (head: nat)
    requires StrandedAt(rows, now, i)
    ensures StrandedAt(rows, now, head) && rows[head].tenant == rows[i].tenant && Position(rows, now, head) == 1
    ensures head == i || head in AheadInTenant(rows, now, i)
    decreases Position(rows, now, i)
  {
    if AheadInTenant(rows, now, i) == {} {
      head := i;
    } else {
      var j :| j in AheadInTenant(rows, now, i);
      AheadShrinks(rows, now, j, i);
      head := FirstOfTenant(rows, now, j);
    }
  }

  // ---------------------------------------------------------------- many sweeps

  datatype Sweep = Sweep(rows: seq<L.Run>, now: Time, batch: seq<nat>)

  ghost predicate IsSweep(s: Sweep, n: nat, i: nat) {
    IsSelection(s.rows, s.now, s.batch, n) && StrandedAt(s.rows, s.now, i)
  }

  /** Until the next sweep nobody gets, or gets back, ahead of run i; those just picked have left. */
  ghost predicate NobodyReturnsAhead(s: Sweep, t: Sweep, i: nat) {
    && i < |s.rows| && i < |t.rows|
    && AheadInTenant(t.rows, t.now, i) <= AheadInTenant(s.rows, s.now, i) - (set j | j in s.batch)
  }

  /** A run that stays stranded is never picked if and only if every sweep finds n or more ahead of it. */
  lemma NeverPickedIff(sweeps: seq<Sweep>, n: nat, i: nat)
    requires forall k :: 0 <= k < |sweeps| ==> IsSweep(sweeps[k], n, i)
    ensures (forall k :: 0 <= k < |sweeps| ==> i !in sweeps[k].batch) <==>
            (forall k :: 0 <= k < |sweeps| ==> |AheadOf(sweeps[k].rows, sweeps[k].now, i)| >= n)
  {
    forall k | 0 <= k < |sweeps|
      ensures i !in sweeps[k].batch <==> |AheadOf(sweeps[k].rows, sweeps[k].now, i)| >= n
    {
      SelectedIff(sweeps[k].rows, sweeps[k].now, sweeps[k].batch, n, i);
    }
  }

  lemma SweepAdvances(s: Sweep, t: Sweep, n: nat, i: nat)
    requires IsSweep(s, n, i) && IsSweep(t, n, i) && |StrandedTenants(s.rows, s.now)| <= n
    requires NobodyReturnsAhead(s, t, i) && i !in s.batch
    ensures Position(t.rows, t.now, i) < Position(s.rows, s.now, i)
  {
    var head := FirstOfTenant(s.rows, s.now, i);
    FirstIsSelected(s.rows, s.now, s.batch, n, head);
    var a, b := AheadInTenant(s.rows, s.now, i), AheadInTenant(t.rows, t.now, i);
    assert b <= a - {head};
    SmallerSet(b, a - {head});
  }

  /**
    A stranded run at position p of its tenant is picked within p sweeps, if no more tenants
    have stranded runs than the limit and nobody gets back ahead of it in between.
   */
  lemma {:induction false} PickedWithinPosition(sweeps: seq<Sweep>, n: nat, i: nat)
    requires forall k :: 0 <= k < |sweeps| ==> IsSweep(sweeps[k], n, i) && |StrandedTenants(sweeps[k].rows, sweeps[k].now)| <= n
    requires forall k :: 0 <= k < |sweeps| - 1 ==> NobodyReturnsAhead(sweeps[k], sweeps[k + 1], i)
    requires sweeps != [] && i < |sweeps[0].rows| && |sweeps| >= Position(sweeps[0].rows, sweeps[0].now, i)
    ensures exists k :: 0 <= k < |sweeps| && i in sweeps[k].batch
    decreases |sweeps|
  {
    var s := sweeps[0];
    if i !in s.batch {
      if Position(s.rows, s.now, i) == 1 {
        FirstIsSelected(s.rows, s.now, s.batch, n, i);
      } else {
        var rest := sweeps[1..];
        assert IsSweep(sweeps[1], n, i);
        SweepAdvances(s, sweeps[1], n, i);
        hide IsSweep, NobodyReturnsAhead, Position, StrandedTenants;
        forall k | 0 <= k < |rest| - 1 ensures NobodyReturnsAhead(rest[k], rest[k + 1], i) {
          assert rest[k] == sweeps[k + 1] && rest[k + 1] == sweeps[k + 2];
        }
        PickedWithinPosition(rest, n, i);
        var k :| 0 <= k < |rest| && i in rest[k].batch;
        assert sweeps[k + 1] == rest[k];
      }
    }
  }

  /** When a mark at t still hides a run at `now`: until 45 s have passed, or until the run is returned anew. */
  lemma MarkedIsStrandedIff(r: L.Run, t: Time, now: Time)
    ensures Stranded(r.(lastEnqueuedAt := Some(t)), now) <==>
            L.Leasable(r, now) && (if r.attempt == 0 then t + LOST_POINTER_AFTER < now else t < r.availableAt)
  {
  }

  // ---------------------------------------------------------------- why nobody may return ahead

  /** 101 new runs of one tenant, alike in every ORDER BY column; the first 100 marked at `mark`. */
  function Backlog(r: L.Run, mark: Option<Time>): seq<L.Run> {
    seq(101, j => if j < 100 then r.(lastEnqueuedAt := mark) else r.(lastEnqueuedAt := None))
  }

  /** The mark the k-th of a series of sweeps, one a minute, finds on the first 100. */
  function MarkBefore(start: Time, k: nat): Option<Time> {
    if k == 0 then None else Some(start + 60.0 * (k - 1) as real)
  }

  lemma BacklogRanks(r: L.Run, mark: Option<Time>, now: Time, i: nat)
    requires L.Leasable(r, now) && r.attempt == 0 && (mark.Some? ==> mark.value < now - LOST_POINTER_AFTER) && i <= 100
    ensures var rows := Backlog(r, mark);
            StrandedAt(rows, now, i) && Position(rows, now, i) == i + 1
  {
    hide Upto;
    var rows := Backlog(r, mark);
    assert AheadInTenant(rows, now, i) == Upto(i);
  }

  lemma BacklogOrder(r: L.Run, mark: Option<Time>, now: Time, i: nat)
    requires L.Leasable(r, now) && r.attempt == 0 && (mark.Some? ==> mark.value < now - LOST_POINTER_AFTER) && i <= 100
    ensures AheadOf(Backlog(r, mark), now, i) == Upto(i)
  {
    var rows := Backlog(r, mark);
    BacklogRanks(r, mark, now, i);
    forall j | 0 <= j <= 100 ensures j in StrandedRows(rows, now) && (Ahead(rows, now, j, i) <==> j < i) {
      BacklogRanks(r, mark, now, j);
      hide Position;
    }
  }

  /** Publishing and marking what a sweep picked. */
  function Remarked(rows: seq<L.Run>, batch: seq<nat>, now: Time): seq<L.Run> {
    seq(|rows|, j requires 0 <= j < |rows| => if j in batch then rows[j].(lastEnqueuedAt := Some(now)) else rows[j])
  }

  /**
    The k-th of a series of sweeps, one a minute, over a backlog nobody works off: it picks
    the same 100 runs as every sweep before and after it, since they count as lost again after
    45 s, and never the last run. Its marks leave the backlog the next sweep finds.
   */
  lemma BacklogStarves(r: L.Run, start: Time, k: nat, batch: seq<nat>)
    requires L.Leasable(r, start) && r.attempt == 0
    requires IsSelection(Backlog(r, MarkBefore(start, k)), start + 60.0 * k as real, batch, SWEEP_LIMIT)
    ensures 100 !in batch && forall j :: 0 <= j < 100 ==> j in batch
    ensures Remarked(Backlog(r, MarkBefore(start, k)), batch, start + 60.0 * k as real) == Backlog(r, MarkBefore(start, k + 1))
  {
    var now, mark := start + 60.0 * k as real, MarkBefore(start, k);
    var rows := Backlog(r, mark);
    hide Upto, Position, AheadOf, IsSelection, StrandedAt;
    forall i | 0 <= i <= 100 ensures i in batch <==> i < 100 {
      BacklogOrder(r, mark, now, i);
      BacklogRanks(r, mark, now, i);
      SelectedIff(rows, now, batch, SWEEP_LIMIT, i);
    }
  }
}
