/**
  The polling worker's pass over the tenants with due work (apps/worker/runner.py, main):
  at most 50 tenants in id order, one run of each.
 */
module Polling {
  import opened Prelude
  import R = Ranking

  const TENANTS_PER_PASS: nat := 50

  function ById(): R.Order { (a: nat, b: nat) => a < b }

  /** The tenant query: the first 50 due tenants, ascending. */
  ghost predicate IsPass(due: set<TenantId>, rows: seq<TenantId>) {
    R.IsFirst(due, ById(), rows, TENANTS_PER_PASS)
  }

  /** Due tenants ahead of t in id order. */
  ghost function Ahead(due: set<TenantId>, t: TenantId): set<TenantId> { R.Before(due, ById(), t) }

  lemma PassExists(due: set<TenantId>) returns (rows: seq<TenantId>)
    ensures IsPass(due, rows)
  {
    rows := R.FirstExists(due, ById(), TENANTS_PER_PASS);
  }

  /** A due tenant is in the pass exactly when fewer than 50 due tenants come before it. */
  lemma InPassIff(due: set<TenantId>, rows: seq<TenantId>, t: TenantId)
    requires IsPass(due, rows) && t in due
    ensures t in rows <==> |Ahead(due, t)| < TENANTS_PER_PASS
  {
    R.InFirstIff(due, ById(), rows, TENANTS_PER_PASS, t);
  }

  datatype Pass = Pass(due: set<TenantId>, rows: seq<TenantId>)

  /**
    Over any number of passes, a tenant that stays due is never reached if and only if in
    every pass 50 or more due tenants come before it: within the limit no tenant starves, and
    behind 50 always-busy tenants it does.
   */
  lemma StarvesIff(passes: seq<Pass>, t: TenantId)
    requires forall k :: 0 <= k < |passes| ==> IsPass(passes[k].due, passes[k].rows) && t in passes[k].due
    ensures (forall k :: 0 <= k < |passes| ==> t !in passes[k].rows) <==>
            (forall k :: 0 <= k < |passes| ==> |Ahead(passes[k].due, t)| >= TENANTS_PER_PASS)
  {
    forall k | 0 <= k < |passes|
      ensures t !in passes[k].rows <==> |Ahead(passes[k].due, t)| >= TENANTS_PER_PASS
    {
      InPassIff(passes[k].due, passes[k].rows, t);
    }
  }

  /** 51 tenants that always have due work: every pass serves the first 50, and tenant 50 never. */
  lemma FiftyBusyTenantsStarveTheNext(rows: seq<TenantId>)
    requires IsPass(Upto(51), rows)
    ensures 50 !in rows && forall t :: 0 <= t < 50 ==> t in rows
  {
    hide Upto;
    forall t | 0 <= t <= 50 ensures t in rows <==> t < 50 {
      assert Ahead(Upto(51), t) == Upto(t);
      InPassIff(Upto(51), rows, t);
    }
  }

  /**
    The loop over the tenants: each row gets one execute_one, in order, until SIGTERM arrives
    (`stopBefore`); `work` tells whether a tenant still had a run to lease.
   */
  method ServeTenants(rows: seq<TenantId>, stopBefore: Option<nat>, work: TenantId -> bool)
    returns (served: seq<TenantId>, didWork: bool)
    ensures served == if stopBefore.Some? && stopBefore.value < |rows| then rows[..stopBefore.value] else rows
    ensures didWork <==> exists i :: 0 <= i < |served| && work(served[i])
  {
    served, didWork := [], false;
    for i := 0 to |rows|
      invariant served == rows[..i] && (stopBefore.Some? ==> i <= stopBefore.value)
      invariant didWork <==> exists j :: 0 <= j < |served| && work(served[j])
    {
      if stopBefore == Some(i) {
        break;
      }
      ghost var before := served;
      served := served + [rows[i]];
      assert rows[..i + 1] == rows[..i] + [rows[i]];
      if work(rows[i]) {
        assert work(served[|before|]);
        didWork := true;
      } else if didWork {
        ghost var j :| 0 <= j < |before| && work(before[j]);
        assert work(served[j]);
      }
    }
    assert rows[..|rows|] == rows;
  }
}
