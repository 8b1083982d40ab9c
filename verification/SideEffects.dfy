/**
  The side_effect row and the statements of perform_once
  (platform_core/correctness/side_effects.py).
 */
module SideEffects {
  import opened Prelude

  datatype RetryPolicy = SafeToRepeat | NeedsReconciliation

  datatype EffectStatus = Started | Completed | Failed

  datatype Effect = Effect(
    status: EffectStatus,
    attempt: nat,
    result: Option<Value>,
    claimedBy: WorkerId,
    claimExpiresAt: Option<Time>)

  /** claim_expires_at IS NOT NULL AND claim_expires_at > now() */
  predicate ClaimLive(e: Effect, now: Time) {
    e.claimExpiresAt.Some? && e.claimExpiresAt.value > now
  }

  /** The four ways the claim transaction ends. */
  datatype Claim =
    | Won(row: Effect)
    | Replay(result: Option<Value>, attempt: nat)
    | Busy
    | Reconcile(attempt: nat)

  /** The claim transaction: SELECT ... FOR UPDATE, then insert, update or refuse. */
  function ClaimStep(row: Option<Effect>, claimant: WorkerId, policy: RetryPolicy, now: Time, ttl: Time): Claim {
    match row
    case None => Won(Effect(Started, 1, None, claimant, Some(now + ttl)))
    case Some(e) =>
      match e.status
      case Completed => Replay(e.result, e.attempt)
      case Started =>
        if ClaimLive(e, now) then Busy
        else if policy.NeedsReconciliation? then Reconcile(e.attempt)
        else Won(e.(attempt := e.attempt + 1, claimedBy := claimant, claimExpiresAt := Some(now + ttl)))
      case Failed =>
        Won(e.(status := Started, attempt := e.attempt + 1, claimedBy := claimant, claimExpiresAt := Some(now + ttl)))
  }

  /** The except-branch UPDATE: no claimant or attempt in its WHERE clause. */
  function FailedRow(row: Option<Effect>): Option<Effect> {
    match row
    case None => None
    case Some(e) => Some(e.(status := Failed, claimExpiresAt := None))
  }

  /** The completing UPDATE: likewise unfenced. */
  function CompletedRow(row: Option<Effect>, result: Value): Option<Effect> {
    match row
    case None => None
    case Some(e) => Some(e.(status := Completed, result := Some(result), claimExpiresAt := None))
  }

  /** What the reaper does to the claims of a run it takes back. */
  function ReleasedRow(row: Option<Effect>): Option<Effect> {
    if row.Some? && row.value.status.Started? then Some(row.value.(claimExpiresAt := None)) else row
  }
}
