/**
  The run row and the guarded UPDATE statements of platform_core/correctness/leases.py.

  Each statement is a function from the row (and the transaction's now()) to the
  row it leaves; a statement whose WHERE clause does not match leaves the row alone.
 */
module Leases {
  import opened Prelude

  datatype Status = Pending | Leased | Succeeded | Failed | Cancelled

  datatype Run = Run(
    tenant: TenantId,
    workload: string,
    status: Status,
    leasedBy: Option<WorkerId>,
    leaseExpiresAt: Option<Time>,
    attempt: nat,
    maxAttempts: nat,
    availableAt: Time,
    lastEnqueuedAt: Option<Time>,
    cancelRequestedAt: Option<Time>,
    finishedAt: Option<Time>,
    result: Option<Results>,
    priority: int,
    createdAt: Time)

  /** What a worker carries away from a successful lease. */
  datatype Handle = Handle(run: RunId, worker: WorkerId, attempt: nat, maxAttempts: nat, expires: Time)

  predicate Terminal(status: Status) {
    status.Succeeded? || status.Failed? || status.Cancelled?
  }

  // ---------------------------------------------------------------- backoff

  /** run_retry_base_seconds, run_retry_max_seconds and run_retry_jitter_ratio. */
  datatype Backoff = Backoff(base: real, cap: real, jitter: real)

  /** The bounds settings.py puts on the three values. */
  predicate ValidBackoff(b: Backoff) {
    0.1 <= b.base <= 60.0 && 1.0 <= b.cap <= 3600.0 && 0.0 <= b.jitter <= 1.0 && b.base <= b.cap
  }

  function Pow2(n: nat): (p: real)
    ensures p >= 1.0
  {
    if n == 0 then 1.0 else 2.0 * Pow2(n - 1)
  }

  /** base * 2^max(0, attempt - 1) */
  function Exponential(b: Backoff, attempt: nat): real {
    b.base * Pow2(if attempt == 0 then 0 else attempt - 1)
  }

  function Jitter(b: Backoff, base: real, random: real): real { base * b.jitter * random }

  /** retry_delay: exponential, raised to the provider's hint, jittered, then capped. */
  function RetryDelay(b: Backoff, attempt: nat, retryAfter: Option<real>, random: real): real {
    var floor := if retryAfter.Some? then retryAfter.value else 0.0;
    var base := Max(Min(b.cap, Exponential(b, attempt)), floor);
    Min(b.cap, base + Jitter(b, base, random))
  }

  /** The same backoff as reap_expired computes it inside SQL. */
  function ReapDelay(b: Backoff, attempt: nat, random: real): real {
    Min(b.cap, Exponential(b, attempt) * (1.0 + b.jitter * random))
  }

  lemma ProductNonNegative(x: real, y: real)
    requires 0.0 <= x && 0.0 <= y
    ensures 0.0 <= x * y
  {
  }

  lemma ProductGrows(x: real, y: real)
    requires 0.0 <= x && 1.0 <= y
    ensures x <= x * y
  {
    ProductNonNegative(x, y - 1.0);
    assert x * y == x + x * (y - 1.0);
  }

  lemma ExponentialAtLeastBase(b: Backoff, attempt: nat)
    requires ValidBackoff(b)
    ensures Exponential(b, attempt) >= b.base
  {
    ProductGrows(b.base, Pow2(if attempt == 0 then 0 else attempt - 1));
  }

  lemma JitterNonNegative(b: Backoff, base: real, random: real)
    requires 0.0 <= base && 0.0 <= b.jitter && 0.0 <= random
    ensures 0.0 <= Jitter(b, base, random)
  {
    ProductNonNegative(base, b.jitter);
    ProductNonNegative(base * b.jitter, random);
  }

  /** The SQL and the Python formulas agree on every attempt when the provider gave no hint. */
  lemma ReapDelayAgreesWithRetryDelay(b: Backoff, attempt: nat, random: real)
    requires ValidBackoff(b) && 0.0 <= random <= 1.0
    ensures ReapDelay(b, attempt, random) == RetryDelay(b, attempt, None, random)
  {
    var raw := Exponential(b, attempt);
    ExponentialAtLeastBase(b, attempt);
    JitterNonNegative(b, raw, random);
    JitterNonNegative(b, b.cap, random);
    assert raw * (1.0 + b.jitter * random) == raw + Jitter(b, raw, random);
  }

  /** The clamp alone, with the jitter as an arbitrary non-negative addition. */
  lemma ClampBounds(cap: real, exponential: real, floor: real, extra: real)
    requires 0.0 < exponential <= cap && 0.0 <= extra
    ensures exponential <= Min(cap, Max(exponential, floor) + extra) <= cap
    ensures Min(cap, Max(exponential, floor) + extra) >= floor <==> floor <= cap
  {
  }

  /**
    The delay is positive, never above the cap and never below the capped exponential.
    "Never below provider guidance" holds exactly when the guidance is within the cap: a
    longer Retry-After is cut down to run_retry_max_seconds.
   */
  lemma RetryDelayBounds(b: Backoff, attempt: nat, retryAfter: Option<real>, random: real)
    requires ValidBackoff(b) && 0.0 <= random <= 1.0
    requires retryAfter.Some? ==> 0.0 <= retryAfter.value
    ensures 0.0 < Min(b.cap, Exponential(b, attempt)) <= RetryDelay(b, attempt, retryAfter, random) <= b.cap
    ensures retryAfter.Some? ==>
              (RetryDelay(b, attempt, retryAfter, random) >= retryAfter.value <==> retryAfter.value <= b.cap)
  {
    var exponential := Min(b.cap, Exponential(b, attempt));
    var floor := if retryAfter.Some? then retryAfter.value else 0.0;
    var base := Max(exponential, floor);
    ExponentialAtLeastBase(b, attempt);
    JitterNonNegative(b, base, random);
    ClampBounds(b.cap, exponential, floor, Jitter(b, base, random));
  }

  // ---------------------------------------------------------------- the statements

  /** The WHERE clause shared by acquire and acquire_specific. */
  predicate Leasable(r: Run, now: Time) {
    r.status.Pending? && r.attempt < r.maxAttempts && r.availableAt <= now && r.cancelRequestedAt.None?
  }

  function GrantRow(r: Run, w: WorkerId, now: Time, lease: Time): Run {
    r.(status := Leased, leasedBy := Some(w), leaseExpiresAt := Some(now + lease), attempt := r.attempt + 1)
  }

  /** The fence on every write a lease holder makes. */
  predicate Held(r: Run, w: WorkerId) {
    r.status.Leased? && r.leasedBy == Some(w)
  }

  predicate HeartbeatMatches(r: Run, w: WorkerId) {
    Held(r, w) && r.cancelRequestedAt.None?
  }

  function HeartbeatRow(r: Run, w: WorkerId, now: Time, extend: Time): Run {
    if HeartbeatMatches(r, w) then r.(leaseExpiresAt := Some(now + extend)) else r
  }

  predicate CompleteMatches(r: Run, w: WorkerId) {
    Held(r, w) && r.cancelRequestedAt.None?
  }

  function CompleteRow(r: Run, w: WorkerId, now: Time, result: Results): Run {
    if CompleteMatches(r, w) then
      r.(status := Succeeded, finishedAt := Some(now), result := Some(result),
         leasedBy := None, leaseExpiresAt := None)
    else r
  }

  /** Leaving the lease: cancelled beats terminal failure, which beats another attempt. */
  function ReleaseRow(r: Run, now: Time, terminal: bool, delay: Time): Run {
    var cancelled := r.cancelRequestedAt.Some?;
    r.(status := if cancelled then Cancelled else if terminal then Failed else Pending,
       finishedAt := if terminal || cancelled then Some(now) else None,
       availableAt := if terminal || cancelled then r.availableAt else now + delay,
       leasedBy := None, leaseExpiresAt := None)
  }

  /** `terminal` is computed from the handle, before the statement runs. */
  predicate TerminalFailure(attempt: nat, maxAttempts: nat, retryable: bool) {
    !retryable || attempt >= maxAttempts
  }

  function FailRow(r: Run, w: WorkerId, now: Time, terminal: bool, delay: Time): Run {
    if Held(r, w) then ReleaseRow(r, now, terminal, delay) else r
  }

  predicate AcknowledgeMatches(r: Run, w: WorkerId) {
    Held(r, w) && r.cancelRequestedAt.Some?
  }

  function AcknowledgeRow(r: Run, w: WorkerId, now: Time): Run {
    if AcknowledgeMatches(r, w) then
      r.(status := Cancelled, finishedAt := Some(now), leasedBy := None, leaseExpiresAt := None)
    else r
  }

  /** The reaper's WHERE clause: strictly past the deadline, by more than the grace. */
  predicate Reapable(r: Run, now: Time, grace: Time) {
    r.status.Leased? && r.leaseExpiresAt.Some? && r.leaseExpiresAt.value < now - grace
  }

  function ReapRow(r: Run, now: Time, grace: Time, delay: Time): Run {
    if Reapable(r, now, grace) then ReleaseRow(r, now, r.attempt >= r.maxAttempts, delay) else r
  }

  /** The cancel route: pending work ends at once, leased work is asked to stop. */
  function CancelRow(r: Run, now: Time): Run {
    if r.status.Pending? || r.status.Leased? || r.status.Cancelled? then
      r.(cancelRequestedAt := if r.cancelRequestedAt.Some? then r.cancelRequestedAt else Some(now),
         status := if r.status.Pending? then Cancelled else r.status,
         finishedAt := if r.status.Pending? then Some(now) else r.finishedAt)
    else r
  }

  // ---------------------------------------------------------------- what every row satisfies

  /** The row invariant: no stuck state and no attempt beyond the budget. */
  predicate RowInv(r: Run) {
    && 1 <= r.maxAttempts
    && r.attempt <= r.maxAttempts
    && (r.status.Pending? ==> r.attempt < r.maxAttempts && r.cancelRequestedAt.None?)
    && (r.status.Leased? <==> r.leasedBy.Some?)
    && (r.status.Leased? <==> r.leaseExpiresAt.Some?)
    && (Terminal(r.status) <==> r.finishedAt.Some?)
    && (r.status.Cancelled? ==> r.cancelRequestedAt.Some?)
    && (r.status.Succeeded? ==> r.result.Some?)
  }

  /** A run as enqueue_run inserts it. */
  predicate Fresh(r: Run) {
    && r.status.Pending? && r.attempt == 0 && 1 <= r.maxAttempts
    && r.leasedBy.None? && r.leaseExpiresAt.None? && r.cancelRequestedAt.None?
    && r.finishedAt.None? && r.result.None? && r.lastEnqueuedAt.None?
  }

  /**
    A rank no statement raises: a grant spends one unit of the attempt budget, a
    release drops from leased to pending, and a terminal row is at the bottom.
   */
  function Rank(r: Run): nat
    requires r.attempt <= r.maxAttempts
  {
    if Terminal(r.status) then 0
    else 2 * (r.maxAttempts - r.attempt) + (if r.status.Leased? then 2 else 1)
  }
}
