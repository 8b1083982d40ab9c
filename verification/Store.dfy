/**
  The run and side_effect tables and the code that reads and writes them, statement by
  statement, with a ghost protocol state per run that every method advances.

  Each method is proved to be one event of the protocol machine (or, for the methods that
  run a whole execution, one trace of it), so the theorems over traces apply to the tables.
 */
module Store {
  import opened Prelude
  import opened L = Leases
  import E = SideEffects
  import opened P = Protocol

  function Lookup(effects: map<(RunId, nat), E.Effect>, id: RunId, k: nat): Option<E.Effect> {
    if (id, k) in effects then Some(effects[(id, k)]) else None
  }

  /** The two tables differ at most in the row of step k of run id. */
  ghost predicate OnlyRow(a: map<(RunId, nat), E.Effect>, b: map<(RunId, nat), E.Effect>, id: RunId, k: nat) {
    forall j: RunId, i: nat :: j != id || i != k ==> Lookup(a, j, i) == Lookup(b, j, i)
  }

  /** Nothing about the steps of any other run has changed. */
  ghost predicate OtherRunsKept(a: map<(RunId, nat), E.Effect>, b: map<(RunId, nat), E.Effect>, id: RunId) {
    forall j: RunId, i: nat :: j != id ==> Lookup(a, j, i) == Lookup(b, j, i)
  }

  ghost predicate RunsKept(a: map<RunId, Run>, b: map<RunId, Run>, id: RunId) {
    id in a && id in b && forall j :: j in a && j != id ==> j in b && b[j] == a[j]
  }

  /** The rows of the first steps of run id are completed and hold exactly these results. */
  ghost predicate StoredResults(effects: map<(RunId, nat), E.Effect>, id: RunId, results: Results) {
    forall k :: 0 <= k < |results| ==>
      Lookup(effects, id, k).Some? && Lookup(effects, id, k).value.status.Completed?
      && Lookup(effects, id, k).value.result == results[k]
  }

  /** UPDATE side_effect SET claim_expires_at = NULL for the started rows of these runs. */
  function ReleaseAll(effects: map<(RunId, nat), E.Effect>, ids: set<RunId>): (r: map<(RunId, nat), E.Effect>)
    ensures r.Keys == effects.Keys
    ensures forall id, k :: Lookup(r, id, k)
              == if id in ids then E.ReleasedRow(Lookup(effects, id, k)) else Lookup(effects, id, k)
  {
    map key | key in effects ::
      if key.0 in ids then E.ReleasedRow(Some(effects[key])).value else effects[key]
  }

  /** Writing one run's row and at most one of its step rows, in step with its protocol state. */
  lemma UpdateOne(models: map<RunId, State>, runs: map<RunId, Run>, effects: map<(RunId, nat), E.Effect>,
                  backoff: Backoff, clock: Time, now: Time, id: RunId, t: State, run: Run,
                  after: map<(RunId, nat), E.Effect>)
    requires Consistent(models, runs, effects, backoff, clock) && clock <= now && id in models
    requires t.run == run && t.clock <= now && t.backoff == backoff && |t.steps| == |models[id].steps|
    requires forall k :: 0 <= k < |t.steps| ==> t.steps[k].row == Lookup(after, id, k)
    requires forall k :: (id, k) in after ==> k < |t.steps|
    requires forall j, k :: j != id ==> Lookup(after, j, k) == Lookup(effects, j, k)
    ensures Consistent(models[id := t], runs[id := run], after, backoff, now)
  {
    var u, rows := models[id := t], runs[id := run];
    forall j | j in u ensures Mirrors(u[j], j, rows, after, backoff, now) {
      if j != id {
        assert Mirrors(models[j], j, runs, effects, backoff, clock);
        forall k | (j, k) in after ensures k < |models[j].steps| {
          assert Lookup(after, j, k) == Lookup(effects, j, k);
        }
      }
    }
  }

  /** What a reap event does to one run's protocol state, spelled out. */
  lemma ReapOne(m: State, now: Time, grace: Time, random: real)
    requires m.clock <= now && 0.0 <= grace && 0.0 <= random <= 1.0
    ensures var t := Step(m, Reap(now, grace, random));
            && t.clock == now && t.backoff == m.backoff && |t.steps| == |m.steps|
            && t.run == ReapRow(m.run, now, grace, ReapDelay(m.backoff, m.run.attempt, random))
            && forall k :: 0 <= k < |m.steps| ==>
                 t.steps[k].row == if Reapable(m.run, now, grace) then E.ReleasedRow(m.steps[k].row) else m.steps[k].row
  {
  }

  /** The protocol state m is what the two tables say about run id. */
  ghost predicate Mirrors(m: State, id: RunId, runs: map<RunId, Run>, effects: map<(RunId, nat), E.Effect>,
                          backoff: Backoff, clock: Time)
  {
    && id in runs && m.run == runs[id] && m.clock <= clock && m.backoff == backoff
    && (forall k :: 0 <= k < |m.steps| ==> m.steps[k].row == Lookup(effects, id, k))
    && (forall k :: (id, k) in effects ==> k < |m.steps|)
  }

  ghost predicate Consistent(models: map<RunId, State>, runs: map<RunId, Run>,
                             effects: map<(RunId, nat), E.Effect>, backoff: Backoff, clock: Time)
  {
    && ValidBackoff(backoff) && models.Keys == runs.Keys
    && forall id :: id in models ==> Mirrors(models[id], id, runs, effects, backoff, clock)
  }

  function ReapModels(models: map<RunId, State>, now: Time, grace: Time, random: RunId -> real): map<RunId, State> {
    map id | id in models :: Step(models[id], Reap(now, grace, random(id)))
  }

  lemma ReapKeepsMirror(m: State, id: RunId, runs: map<RunId, Run>, effects: map<(RunId, nat), E.Effect>,
                        backoff: Backoff, clock: Time, now: Time, grace: Time, random: real,
                        after: map<RunId, Run>, ids: set<RunId>)
    requires Mirrors(m, id, runs, effects, backoff, clock) && clock <= now && 0.0 <= grace && 0.0 <= random <= 1.0
    requires id in after && after[id] == ReapRow(runs[id], now, grace, ReapDelay(backoff, runs[id].attempt, random))
    requires id in ids <==> Reapable(runs[id], now, grace)
    ensures Mirrors(Step(m, Reap(now, grace, random)), id, after, ReleaseAll(effects, ids), backoff, now)
  {
    ReapOne(m, now, grace, random);
    var t := Step(m, Reap(now, grace, random));
    forall k | 0 <= k < |t.steps| ensures t.steps[k].row == Lookup(ReleaseAll(effects, ids), id, k) {
      assert m.steps[k].row == Lookup(effects, id, k);
    }
  }

  /** The reaping transaction is one reap event in every run's protocol. */
  lemma ReapKeepsConsistency(models: map<RunId, State>, runs: map<RunId, Run>, effects: map<(RunId, nat), E.Effect>,
                             backoff: Backoff, clock: Time, now: Time, grace: Time, random: RunId -> real,
                             after: map<RunId, Run>, reaped: set<RunId>)
    requires Consistent(models, runs, effects, backoff, clock) && clock <= now && 0.0 <= grace
    requires forall id :: 0.0 <= random(id) <= 1.0
    requires after.Keys == runs.Keys
    requires forall id :: id in reaped <==> id in runs && Reapable(runs[id], now, grace)
    requires forall id :: id in runs ==>
               after[id] == ReapRow(runs[id], now, grace, ReapDelay(backoff, runs[id].attempt, random(id)))
    ensures Consistent(ReapModels(models, now, grace, random), after, ReleaseAll(effects, reaped), backoff, now)
  {
    var t := ReapModels(models, now, grace, random);
    forall id | id in t ensures Mirrors(t[id], id, after, ReleaseAll(effects, reaped), backoff, now) {
      assert id in models && id in runs;
      ReapKeepsMirror(models[id], id, runs, effects, backoff, clock, now, grace, random(id), after, reaped);
    }
  }

  /** ORDER BY priority DESC, available_at, created_at */
  predicate Precedes(a: Run, b: Run) {
    || a.priority > b.priority
    || (a.priority == b.priority && a.availableAt < b.availableAt)
    || (a.priority == b.priority && a.availableAt == b.availableAt && a.createdAt < b.createdAt)
  }

  /** What acquire's subquery may return. */
  predicate Claimable(r: Run, tenant: TenantId, workload: Option<string>, now: Time) {
    r.tenant == tenant && Leasable(r, now) && (workload.None? || r.workload == workload.value)
  }

  /** What a body does when it is called. */
  datatype Body = Returns(value: Value) | Raises(why: Fault, took: bool)

  /** How perform_once ends. */
  datatype Performed = Got(result: Option<Value>) | Threw(why: Fault)

  lemma TwoSteps(models: map<RunId, State>, r: RunId, e: Event, f: Event)
    requires r in models
    ensures models[r := Step(models[r], e)][r := Step(Step(models[r], e), f)] == models[r := Play(models[r], [e, f])]
  {
    hide Step;
    assert [e, f][1..] == [f] && [f][1..] == [];
    assert Play(models[r], [e, f]) == Play(Step(models[r], e), [f]) == Step(Step(models[r], e), f);
  }

  /** Where a check leads. */
  ghost function AfterPoll(pc: Pc, n: nat, cancelled: bool): Pc {
    match pc
    case Polling => if cancelled then Acknowledging else NextPc(n, 0)
    case Entering(k) => if cancelled then Acknowledging else Claiming(k)
    case Guarding(k) => if cancelled then Recording(k, RunCancelled) else Effecting(k)
    case Closing => if cancelled then Acknowledging else Checking
    case _ => pc
  }

  predicate AtCheck(pc: Pc, n: nat) {
    pc.Polling? || pc.Closing? || ((pc.Entering? || pc.Guarding?) && pc.k < n)
  }

  /** A check moves one worker and touches no table. */
  lemma PollLeads(m: State, now: Time, w: WorkerId)
    requires m.clock <= now && w in m.workers && AtCheck(m.workers[w].pc, |m.steps|)
    ensures var t := Step(m, Act(now, w, Poll));
            && t.run == m.run && |t.steps| == |m.steps| && w in t.workers
            && t.workers[w] == m.workers[w].(pc := AfterPoll(m.workers[w].pc, |m.steps|, CancelSeen(m.run)))
            && forall k :: 0 <= k < |m.steps| ==> t.steps[k].row == m.steps[k].row && t.steps[k].policy == m.steps[k].policy
  {
  }

  /** How _execute_leased_body ends. */
  datatype Summary = Acknowledged | Reconciling | Retrying | FailedRun | LeaseLost | Finished(results: Results)

  class Database {
    const backoff: Backoff
    var clock: Time
    var runs: map<RunId, Run>
    var effects: map<(RunId, nat), E.Effect>
    ghost var models: map<RunId, State>

    ghost predicate Valid()
      reads this
    {
      Consistent(models, runs, effects, backoff, clock)
    }

    /** now(): the database clock never runs backwards. */
    method Now() returns (now: Time)
      modifies this`clock
      ensures now == clock >= old(clock)
    {
      var elapsed: Time :| elapsed >= 0.0;
      clock := clock + elapsed;
      now := clock;
    }

    // -------------------------------------------------------------- leases.py

    /** The worker id is not already executing this run: worker_id() is unique per process. */
    ghost predicate IdleFor(id: RunId, w: WorkerId)
      reads this
    {
      id in models && w in models[id].workers ==> models[id].workers[w].pc.Stopped?
    }

    /** The granting UPDATE, once its WHERE clause has matched. */
    method GrantTo(id: RunId, w: WorkerId, now: Time, lease: Time) returns (h: Handle)
      requires Valid() && 0.0 <= lease && now == clock && id in runs && Leasable(runs[id], now) && IdleFor(id, w)
      modifies this`runs, this`models
      ensures Valid()
      ensures runs == old(runs)[id := GrantRow(old(runs)[id], w, now, lease)]
      ensures models == old(models)[id := Step(old(models)[id], Grant(now, w, lease))]
      ensures h == Handle(id, w, runs[id].attempt, runs[id].maxAttempts, now + lease)
      ensures w in models[id].workers && models[id].workers[w].pc.Polling? && models[id].workers[w].attempt == h.attempt
    {
      runs := runs[id := GrantRow(runs[id], w, now, lease)];
      models := models[id := Step(models[id], Grant(now, w, lease))];
      h := Handle(id, w, runs[id].attempt, runs[id].maxAttempts, now + lease);
    }

    method AcquireSpecific(tenant: TenantId, id: RunId, w: WorkerId, lease: Time) returns (h: Option<Handle>)
      requires Valid() && 0.0 <= lease && IdleFor(id, w)
      modifies this
      ensures Valid() && effects == old(effects) && clock >= old(clock)
      ensures h.Some? <==> id in old(runs) && old(runs)[id].tenant == tenant && Leasable(old(runs)[id], clock)
      ensures h.None? ==> runs == old(runs) && models == old(models)
      ensures h.Some? ==>
                && h.value.run == id && h.value.worker == w
                && runs == old(runs)[id := GrantRow(old(runs)[id], w, clock, lease)]
                && models == old(models)[id := Step(old(models)[id], Grant(clock, w, lease))]
    {
      var now := Now();
      if id in runs && runs[id].tenant == tenant && Leasable(runs[id], now) {
        var granted := GrantTo(id, w, now, lease);
        h := Some(granted);
      } else {
        h := None;
      }
    }

    /** acquire's subquery: a first run in queue order, or nothing when none is claimable. */
    method Best(tenant: TenantId, workload: Option<string>, now: Time) returns (best: Option<RunId>)
      ensures best.None? <==> forall j :: j in runs ==> !Claimable(runs[j], tenant, workload, now)
      ensures best.Some? ==>
                && best.value in runs && Claimable(runs[best.value], tenant, workload, now)
                && forall j :: j in runs && Claimable(runs[j], tenant, workload, now) ==>
                     !Precedes(runs[j], runs[best.value])
    {
      var todo := runs.Keys;
      best := None;
      while todo != {}
        invariant todo <= runs.Keys
        invariant best.Some? ==> best.value in runs && Claimable(runs[best.value], tenant, workload, now)
        invariant forall j :: j in runs && j !in todo && Claimable(runs[j], tenant, workload, now) ==>
                    best.Some? && !Precedes(runs[j], runs[best.value])
        decreases |todo|
      {
        var j :| j in todo;
        todo := todo - {j};
        if Claimable(runs[j], tenant, workload, now) && (best.None? || Precedes(runs[j], runs[best.value])) {
          best := Some(j);
        }
      }
    }

    /** acquire: the best claimable run of the tenant, or nothing when there is none. */
    method Acquire(tenant: TenantId, w: WorkerId, workload: Option<string>, lease: Time) returns (h: Option<Handle>)
      requires Valid() && 0.0 <= lease && forall id :: id in runs ==> IdleFor(id, w)
      modifies this
      ensures Valid() && effects == old(effects) && clock >= old(clock)
      ensures h.None? ==> runs == old(runs) && models == old(models)
      ensures h.None? <==> forall j :: j in old(runs) ==> !Claimable(old(runs)[j], tenant, workload, clock)
      ensures h.Some? ==>
                && h.value.run in old(runs) && Claimable(old(runs)[h.value.run], tenant, workload, clock)
                && (forall j :: j in old(runs) && Claimable(old(runs)[j], tenant, workload, clock) ==>
                      !Precedes(old(runs)[j], old(runs)[h.value.run]))
                && runs == old(runs)[h.value.run := GrantRow(old(runs)[h.value.run], w, clock, lease)]
                && models == old(models)[h.value.run := Step(old(models)[h.value.run], Grant(clock, w, lease))]
    {
      var now := Now();
      var best := Best(tenant, workload, now);
      if best.Some? {
        assert IdleFor(best.value, w);
        var granted := GrantTo(best.value, w, now, lease);
        h := Some(granted);
      } else {
        h := None;
      }
    }

    /** heartbeat: True exactly when the lease is still held and not cancelled. */
    method Heartbeat(h: Handle, extend: Time) returns (held: bool)
      requires Valid() && 0.0 <= extend && h.run in models && h.worker in models[h.run].workers
      requires Beating(models[h.run].workers[h.worker].pc) && !models[h.run].workers[h.worker].lost
      modifies this
      ensures Valid() && effects == old(effects) && clock >= old(clock)
      ensures held == HeartbeatMatches(old(runs)[h.run], h.worker)
      ensures !held ==> runs == old(runs)
      ensures held ==> runs == old(runs)[h.run := old(runs)[h.run].(leaseExpiresAt := Some(clock + extend))]
      ensures models == old(models)[h.run := Step(old(models)[h.run], Act(clock, h.worker, Beat(extend)))]
    {
      var now := Now();
      held := HeartbeatMatches(runs[h.run], h.worker);
      models := models[h.run := Step(models[h.run], Act(now, h.worker, Beat(extend)))];
      if held {
        runs := runs[h.run := HeartbeatRow(runs[h.run], h.worker, now, extend)];
      }
    }

    /** The cancel route: refused (404) only for runs that ended otherwise. */
    method CancelRun(id: RunId) returns (accepted: bool)
      requires Valid()
      modifies this
      ensures Valid() && effects == old(effects) && clock >= old(clock)
      ensures accepted <==> id in old(runs) && !old(runs)[id].status.Succeeded? && !old(runs)[id].status.Failed?
      ensures !accepted ==> runs == old(runs) && models == old(models)
      ensures accepted ==>
                && runs == old(runs)[id := CancelRow(old(runs)[id], clock)]
                && models == old(models)[id := Step(old(models)[id], Event.Cancel(clock))]
                && runs[id].cancelRequestedAt.Some?
    {
      var now := Now();
      accepted := id in runs && (runs[id].status.Pending? || runs[id].status.Leased? || runs[id].status.Cancelled?);
      if accepted {
        models := models[id := Step(models[id], Event.Cancel(now))];
        runs := runs[id := CancelRow(runs[id], now)];
      }
    }

    /** The reaping UPDATE: the new run table and the ids it returned. */
    method ReapRuns(now: Time, grace: Time, random: RunId -> real) returns (after: map<RunId, Run>, reaped: set<RunId>)
      ensures after.Keys == runs.Keys
      ensures forall id :: id in reaped <==> id in runs && Reapable(runs[id], now, grace)
      ensures forall id :: id in runs ==>
                after[id] == ReapRow(runs[id], now, grace, ReapDelay(backoff, runs[id].attempt, random(id)))
    {
      reaped := {};
      after := runs;
      var todo := runs.Keys;
      while todo != {}
        invariant todo <= runs.Keys && after.Keys == runs.Keys
        invariant forall id :: id in reaped <==> id in runs && id !in todo && Reapable(runs[id], now, grace)
        invariant forall id :: id in runs && id !in todo ==>
                    after[id] == ReapRow(runs[id], now, grace, ReapDelay(backoff, runs[id].attempt, random(id)))
        decreases |todo|
      {
        var id :| id in todo;
        todo := todo - {id};
        after := after[id := ReapRow(runs[id], now, grace, ReapDelay(backoff, runs[id].attempt, random(id)))];
        if Reapable(runs[id], now, grace) {
          reaped := reaped + {id};
        }
      }
    }

    /**
      reap_expired: every lease past its deadline goes back (or ends), together with the
      step claims of exactly those runs, in one transaction.
     */
    method ReapExpired(grace: Time, random: RunId -> real) returns (reaped: set<RunId>)
      requires Valid() && 0.0 <= grace && forall id :: 0.0 <= random(id) <= 1.0
      modifies this
      ensures Valid() && clock >= old(clock)
      ensures runs.Keys == old(runs).Keys
      ensures forall id :: id in reaped <==> id in old(runs) && Reapable(old(runs)[id], clock, grace)
      ensures forall id :: id in runs ==>
                runs[id] == ReapRow(old(runs)[id], clock, grace, ReapDelay(backoff, old(runs)[id].attempt, random(id)))
      ensures models == ReapModels(old(models), clock, grace, random)
      ensures effects == ReleaseAll(old(effects), reaped)
    {
      var now := Now();
      var after, ids := ReapRuns(now, grace, random);
      reaped := ids;
      ReapKeepsConsistency(models, runs, effects, backoff, old(clock), now, grace, random, after, reaped);
      models := ReapModels(models, now, grace, random);
      effects := ReleaseAll(effects, reaped);
      runs := after;
    }

    // -------------------------------------------------------------- side_effects.py

    /** The protocol state has a worker for this handle. */
    ghost predicate Carries(h: Handle)
      reads this
    {
      && h.run in models && h.worker in models[h.run].workers
      && models[h.run].workers[h.worker].attempt == h.attempt
      && models[h.run].workers[h.worker].maxAttempts == h.maxAttempts
    }

    ghost function Me(h: Handle): Worker
      requires Carries(h)
      reads this
    {
      models[h.run].workers[h.worker]
    }

    /** An action that reads or changes no table: only the protocol state moves. */
    ghost method Silently(h: Handle, a: Action)
      requires Valid() && Carries(h) && WellFormedAction(a)
      requires var t := Step(models[h.run], Act(clock, h.worker, a));
               t.run == runs[h.run] && |t.steps| == |models[h.run].steps|
               && forall k :: 0 <= k < |t.steps| ==> t.steps[k].row == models[h.run].steps[k].row
      modifies this`models
      ensures Valid() && models == old(models)[h.run := Step(old(models)[h.run], Act(clock, h.worker, a))]
    {
      assert Mirrors(models[h.run], h.run, runs, effects, backoff, clock);
      UpdateOne(models, runs, effects, backoff, clock, clock, h.run,
                Step(models[h.run], Act(clock, h.worker, a)), runs[h.run], effects);
      assert runs[h.run := runs[h.run]] == runs;
      models := models[h.run := Step(models[h.run], Act(clock, h.worker, a))];
    }

    /** cancellation_point, at one of the worker's checks. */
    method CancellationPoint(h: Handle) returns (cancelled: bool)
      requires Valid() && Carries(h)
      requires AtCheck(Me(h).pc, |models[h.run].steps|)
      modifies this`clock, this`models
      ensures Valid() && clock >= old(clock)
      ensures cancelled == CancelSeen(runs[h.run])
      ensures models == old(models)[h.run := Step(old(models)[h.run], Act(clock, h.worker, Poll))]
      ensures Carries(h) && |models[h.run].steps| == old(|models[h.run].steps|)
      ensures Me(h) == old(Me(h)).(pc := AfterPoll(old(Me(h).pc), |models[h.run].steps|, cancelled))
      ensures forall k :: 0 <= k < |models[h.run].steps| ==> models[h.run].steps[k].policy == old(models[h.run].steps[k].policy)
    {
      var now := Now();
      assert Mirrors(models[h.run], h.run, runs, effects, backoff, clock);
      PollLeads(models[h.run], now, h.worker);
      hide Step, Consistent, Mirrors, CancelSeen, AfterPoll;
      cancelled := h.run in runs && CancelSeen(runs[h.run]);
      Silently(h, Poll);
    }

    /** One transaction on the row of step k: the table and the protocol state move together. */
    ghost predicate RowTx(before: map<RunId, State>, was: map<(RunId, nat), E.Effect>, h: Handle, k: nat, a: Action)
      requires h.run in before
      reads this
    {
      models == before[h.run := Step(before[h.run], Act(clock, h.worker, a))] && OnlyRow(was, effects, h.run, k)
    }

    /** The claim transaction. */
    method ClaimTx(h: Handle, k: nat, policy: E.RetryPolicy, ttl: Time) returns (c: E.Claim)
      requires Valid() && Carries(h) && Me(h).pc == Claiming(k) && k < |models[h.run].steps|
      requires models[h.run].steps[k].policy == policy && 0.0 <= ttl
      modifies this`clock, this`models, this`effects
      ensures Valid() && clock >= old(clock)
      ensures c == E.ClaimStep(Lookup(old(effects), h.run, k), h.worker, policy, clock, ttl)
      ensures Lookup(effects, h.run, k) == if c.Won? then Some(c.row) else Lookup(old(effects), h.run, k)
      ensures RowTx(old(models), old(effects), h, k, Claim(ttl))
      ensures Carries(h) && |models[h.run].steps| == old(|models[h.run].steps|)
      ensures !c.Won? ==> effects == old(effects)
      ensures Me(h).lost == old(Me(h).lost)
      ensures c.Won? ==> Me(h).pc == Guarding(k) && Me(h).results == old(Me(h).results)
      ensures c.Replay? ==> Me(h) == Returned(old(Me(h)), |models[h.run].steps|, k, c.result)
      ensures c.Busy? ==> Me(h).pc == Unwinding(Other)
      ensures c.Reconcile? ==> Me(h).pc == Unwinding(Reconciliation)
    {
      var now := Now();
      assert Mirrors(models[h.run], h.run, runs, effects, backoff, old(clock));
      c := E.ClaimStep(Lookup(effects, h.run, k), h.worker, policy, now, ttl);
      ghost var t := Step(models[h.run], Act(now, h.worker, Claim(ttl)));
      var after := if c.Won? then effects[(h.run, k) := c.row] else effects;
      UpdateOne(models, runs, effects, backoff, old(clock), now, h.run, t, runs[h.run], after);
      assert runs[h.run := runs[h.run]] == runs;
      models := models[h.run := t];
      effects := after;
    }

    /** The failure UPDATE. */
    method RecordTx(h: Handle, k: nat)
      requires Valid() && Carries(h) && Me(h).pc.Recording? && Me(h).pc.k == k < |models[h.run].steps|
      modifies this`clock, this`models, this`effects
      ensures Valid() && clock >= old(clock)
      ensures Lookup(effects, h.run, k) == E.FailedRow(Lookup(old(effects), h.run, k))
      ensures RowTx(old(models), old(effects), h, k, Record)
      ensures Carries(h) && |models[h.run].steps| == old(|models[h.run].steps|)
      ensures Me(h).pc == Unwound(old(Me(h).pc.why)) && Me(h).lost == old(Me(h).lost)
    {
      var now := Now();
      assert Mirrors(models[h.run], h.run, runs, effects, backoff, old(clock));
      var row := E.FailedRow(Lookup(effects, h.run, k));
      ghost var t := Step(models[h.run], Act(now, h.worker, Record));
      var after := if row.Some? then effects[(h.run, k) := row.value] else effects;
      UpdateOne(models, runs, effects, backoff, old(clock), now, h.run, t, runs[h.run], after);
      assert runs[h.run := runs[h.run]] == runs;
      models := models[h.run := t];
      effects := after;
    }

    /** The completing UPDATE. */
    method StoreTx(h: Handle, k: nat, result: Value)
      requires Valid() && Carries(h) && Me(h).pc == Landed(k, result) && k < |models[h.run].steps|
      modifies this`clock, this`models, this`effects
      ensures Valid() && clock >= old(clock)
      ensures Lookup(effects, h.run, k) == E.CompletedRow(Lookup(old(effects), h.run, k), result)
      ensures RowTx(old(models), old(effects), h, k, Action.Store)
      ensures Carries(h) && |models[h.run].steps| == old(|models[h.run].steps|)
      ensures Me(h) == Returned(old(Me(h)), |models[h.run].steps|, k, Some(result))
    {
      var now := Now();
      assert Mirrors(models[h.run], h.run, runs, effects, backoff, old(clock));
      var row := E.CompletedRow(Lookup(effects, h.run, k), result);
      ghost var t := Step(models[h.run], Act(now, h.worker, Action.Store));
      var after := if row.Some? then effects[(h.run, k) := row.value] else effects;
      UpdateOne(models, runs, effects, backoff, old(clock), now, h.run, t, runs[h.run], after);
      assert runs[h.run := runs[h.run]] == runs;
      models := models[h.run := t];
      effects := after;
    }

    /** The protocol state of one run has moved by a trace; no other run's has. */
    ghost predicate Moved(before: map<RunId, State>, h: Handle, trace: seq<Event>)
      requires h.run in before
      reads this
    {
      models == before[h.run := Play(before[h.run], trace)]
    }

    /** The body returned: only the outside world and the worker know. */
    ghost method Landing(h: Handle, k: nat, value: Value)
      requires Valid() && Carries(h) && Me(h).pc == Effecting(k) && k < |models[h.run].steps|
      modifies this`models
      ensures Valid() && models == old(models)[h.run := Step(old(models)[h.run], Act(clock, h.worker, Land(value)))]
      ensures Carries(h) && |models[h.run].steps| == old(|models[h.run].steps|)
      ensures Me(h) == old(Me(h)).(pc := Landed(k, value))
    {
      assert Mirrors(models[h.run], h.run, runs, effects, backoff, clock);
      Silently(h, Land(value));
    }

    /** The body raised. */
    ghost method Raising(h: Handle, k: nat, why: Fault, took: bool)
      requires Valid() && Carries(h) && Me(h).pc == Effecting(k) && k < |models[h.run].steps|
      requires WellFormedAction(Raise(why, took))
      modifies this`models
      ensures Valid() && models == old(models)[h.run := Step(old(models)[h.run], Act(clock, h.worker, Raise(why, took)))]
      ensures Carries(h) && |models[h.run].steps| == old(|models[h.run].steps|)
      ensures Me(h) == old(Me(h)).(pc := Recording(k, why))
    {
      assert Mirrors(models[h.run], h.run, runs, effects, backoff, clock);
      Silently(h, Raise(why, took));
    }

    /** The body runs outside any transaction; then its end is recorded. */
    method CallBody(h: Handle, k: nat, body: Body) returns (r: Performed, ghost trace: seq<Event>)
      requires Valid() && Carries(h) && Me(h).pc == Effecting(k) && k < |models[h.run].steps|
      requires body.Raises? ==> WellFormedAction(Raise(body.why, body.took))
      modifies this`clock, this`models, this`effects
      ensures Valid() && Carries(h) && clock >= old(clock)
      ensures Moved(old(models), h, trace) && |models[h.run].steps| == old(|models[h.run].steps|)
      ensures Me(h).lost == old(Me(h).lost)
      ensures OnlyRow(old(effects), effects, h.run, k)
      ensures body.Returns? ==>
                && r == Got(Some(body.value))
                && Me(h) == Returned(old(Me(h)), |models[h.run].steps|, k, r.result)
                && Lookup(effects, h.run, k) == E.CompletedRow(Lookup(old(effects), h.run, k), body.value)
      ensures body.Raises? ==>
                && r == Threw(body.why) && Me(h).pc == Unwound(body.why)
                && Lookup(effects, h.run, k) == E.FailedRow(Lookup(old(effects), h.run, k))
    {
      hide Step, Play, Consistent, Mirrors;
      ghost var m := models[h.run];
      PlayNothing(m);
      match body
      case Returns(value) =>
        Landing(h, k, value);
        trace := [] + [Act(clock, h.worker, Land(value))];
        PlayOneMore(m, [], Act(clock, h.worker, Land(value)));
        StoreTx(h, k, value);
        PlayOneMore(m, trace, Act(clock, h.worker, Action.Store));
        trace := trace + [Act(clock, h.worker, Action.Store)];
        r := Got(Some(value));
      case Raises(why, took) =>
        Raising(h, k, why, took);
        trace := [] + [Act(clock, h.worker, Raise(why, took))];
        PlayOneMore(m, [], Act(clock, h.worker, Raise(why, took)));
        RecordTx(h, k);
        PlayOneMore(m, trace, Act(clock, h.worker, Record));
        trace := trace + [Act(clock, h.worker, Record)];
        r := Threw(why);
    }

    /** The claim is won: the second check, the body, and the record of how it ended. */
    method RunBody(h: Handle, k: nat, body: Body) returns (r: Performed, ghost trace: seq<Event>)
      requires Valid() && Carries(h) && Me(h).pc == Guarding(k) && k < |models[h.run].steps|
      requires Lookup(effects, h.run, k).Some?
      requires body.Raises? ==> WellFormedAction(Raise(body.why, body.took))
      modifies this`clock, this`models, this`effects
      ensures Valid() && Carries(h) && clock >= old(clock)
      ensures Moved(old(models), h, trace) && |models[h.run].steps| == old(|models[h.run].steps|)
      ensures Me(h).lost == old(Me(h).lost)
      ensures OnlyRow(old(effects), effects, h.run, k)
      ensures r.Got? <==> body.Returns? && !CancelSeen(runs[h.run])
      ensures r.Got? ==>
                && r.result == Some(body.value)
                && Me(h) == Returned(old(Me(h)).(pc := Effecting(k)), |models[h.run].steps|, k, r.result)
                && Lookup(effects, h.run, k) == E.CompletedRow(Lookup(old(effects), h.run, k), body.value)
      ensures r.Threw? ==>
                && Me(h).pc == Unwound(r.why)
                && r.why == (if CancelSeen(runs[h.run]) then RunCancelled else body.why)
                && Lookup(effects, h.run, k) == E.FailedRow(Lookup(old(effects), h.run, k))
    {
      hide Step, Play, Consistent, Mirrors;
      ghost var m := models[h.run];
      PlayNothing(m);
      var cancelled := CancellationPoint(h);
      trace := [] + [Act(clock, h.worker, Poll)];
      PlayOneMore(m, [], Act(clock, h.worker, Poll));
      if cancelled {
        RecordTx(h, k);
        PlayOneMore(m, trace, Act(clock, h.worker, Record));
        trace := trace + [Act(clock, h.worker, Record)];
        r := Threw(RunCancelled);
      } else {
        ghost var rest;
        r, rest := CallBody(h, k, body);
        PlayConcat(m, trace, rest);
        trace := trace + rest;
      }
    }

    /**
      perform_once for step k, from the first check to the returned or raised outcome. The
      body's behaviour is an input; nothing else runs in between.
     */
    method PerformOnce(h: Handle, k: nat, policy: E.RetryPolicy, body: Body, ttl: Time)
      returns (r: Performed, ran: bool, ghost trace: seq<Event>)
      requires Valid() && Carries(h) && Me(h).pc == Entering(k) && k < |models[h.run].steps|
      requires models[h.run].steps[k].policy == policy && 0.0 <= ttl
      requires body.Raises? ==> WellFormedAction(Raise(body.why, body.took))
      modifies this`clock, this`models, this`effects
      ensures Valid() && Carries(h) && clock >= old(clock)
      ensures Moved(old(models), h, trace) && |models[h.run].steps| == old(|models[h.run].steps|)
      ensures Me(h).lost == old(Me(h).lost)
      ensures OnlyRow(old(effects), effects, h.run, k)
      ensures r.Got? ==>
                && Me(h).pc == NextPc(|models[h.run].steps|, k + 1)
                && Me(h).results == old(Me(h).results) + [r.result]
                && Lookup(effects, h.run, k).Some?
                && Lookup(effects, h.run, k).value.status.Completed?
                && Lookup(effects, h.run, k).value.result == r.result
      ensures r.Threw? ==> Me(h).pc == Unwound(r.why)
      ensures ran ==> old(Lookup(effects, h.run, k)).None? || !old(Lookup(effects, h.run, k)).value.status.Completed?
      ensures r.Got? && !ran ==> effects == old(effects)
      ensures r.Got? && ran ==> body.Returns? && r.result == Some(body.value)
    {
      hide Step, Play, Consistent, Mirrors;
      ghost var m := models[h.run];
      PlayNothing(m);
      ran := false;
      var cancelled := CancellationPoint(h);
      trace := [] + [Act(clock, h.worker, Poll)];
      PlayOneMore(m, [], Act(clock, h.worker, Poll));
      if cancelled {
        r := Threw(RunCancelled);
        return;
      }
      var c := ClaimTx(h, k, policy, ttl);
      PlayOneMore(m, trace, Act(clock, h.worker, Claim(ttl)));
      trace := trace + [Act(clock, h.worker, Claim(ttl))];
      match c
      case Replay(result, _) => r := Got(result);
      case Busy => r := Threw(Other);
      case Reconcile(_) => r := Threw(Reconciliation);
      case Won(_) =>
        ghost var rest;
        r, rest := RunBody(h, k, body);
        PlayConcat(m, trace, rest);
        trace := trace + rest;
        ran := !(r.Threw? && r.why.RunCancelled?);
    }

    // -------------------------------------------------------------- the fenced writes

    /** The protocol side of a fenced write that leaves `row`. */
    ghost method Ended(h: Handle, row: Run, random: real)
      requires Carries(h) && Ending(Me(h).pc) && 0.0 <= random <= 1.0
      requires Valid() && row == FinalRow(models[h.run].(clock := clock), clock, h.worker, random)
      modifies this`models
      ensures Consistent(models, runs[h.run := row], effects, backoff, clock)
      ensures models == old(models)[h.run := Step(old(models)[h.run], Act(clock, h.worker, Finish(random)))]
      ensures Carries(h) && |models[h.run].steps| == old(|models[h.run].steps|)
      ensures Me(h) == old(Me(h)).(pc := Stopped)
    {
      assert Mirrors(models[h.run], h.run, runs, effects, backoff, clock);
      var t := Step(models[h.run], Act(clock, h.worker, Finish(random)));
      UpdateOne(models, runs, effects, backoff, clock, clock, h.run, t, row, effects);
      models := models[h.run := t];
    }

    /** complete: True exactly when this worker still holds an uncancelled lease. */
    method Complete(h: Handle, results: Results) returns (updated: bool)
      requires Valid() && Carries(h) && Me(h).pc.Completing? && Me(h).results == results
      modifies this`clock, this`models, this`runs
      ensures Valid() && Carries(h) && clock >= old(clock)
      ensures updated == CompleteMatches(old(runs)[h.run], h.worker)
      ensures runs == old(runs)[h.run := CompleteRow(old(runs)[h.run], h.worker, clock, results)]
      ensures models == old(models)[h.run := Step(old(models)[h.run], Act(clock, h.worker, Finish(0.0)))]
      ensures |models[h.run].steps| == old(|models[h.run].steps|)
    {
      var now := Now();
      assert Mirrors(models[h.run], h.run, runs, effects, backoff, old(clock));
      updated := CompleteMatches(runs[h.run], h.worker);
      var row := CompleteRow(runs[h.run], h.worker, now, results);
      Ended(h, row, 0.0);
      runs := runs[h.run := row];
    }

    /** fail: True exactly when this worker still holds the lease. */
    method Fail(h: Handle, why: Fault, random: real) returns (updated: bool)
      requires Valid() && Carries(h) && Me(h).pc == Unwinding(why) && 0.0 <= random <= 1.0
      modifies this`clock, this`models, this`runs
      ensures Valid() && Carries(h) && clock >= old(clock)
      ensures updated == Held(old(runs)[h.run], h.worker)
      ensures runs == old(runs)[h.run :=
                FailRow(old(runs)[h.run], h.worker, clock, TerminalFailure(h.attempt, h.maxAttempts, why.Transient?),
                        RetryDelay(backoff, h.attempt, if why.Transient? then why.retryAfter else None, random))]
      ensures models == old(models)[h.run := Step(old(models)[h.run], Act(clock, h.worker, Finish(random)))]
      ensures |models[h.run].steps| == old(|models[h.run].steps|)
    {
      var now := Now();
      assert Mirrors(models[h.run], h.run, runs, effects, backoff, old(clock));
      updated := Held(runs[h.run], h.worker);
      var row := FailRow(runs[h.run], h.worker, now, TerminalFailure(h.attempt, h.maxAttempts, why.Transient?),
                         RetryDelay(backoff, h.attempt, if why.Transient? then why.retryAfter else None, random));
      Ended(h, row, random);
      runs := runs[h.run := row];
    }

    /** acknowledge_cancellation: True exactly when this worker holds a lease that was cancelled. */
    method AcknowledgeCancellation(h: Handle) returns (updated: bool)
      requires Valid() && Carries(h) && Me(h).pc.Acknowledging?
      modifies this`clock, this`models, this`runs
      ensures Valid() && Carries(h) && clock >= old(clock)
      ensures updated == AcknowledgeMatches(old(runs)[h.run], h.worker)
      ensures runs == old(runs)[h.run := AcknowledgeRow(old(runs)[h.run], h.worker, clock)]
      ensures models == old(models)[h.run := Step(old(models)[h.run], Act(clock, h.worker, Finish(0.0)))]
      ensures |models[h.run].steps| == old(|models[h.run].steps|)
    {
      var now := Now();
      assert Mirrors(models[h.run], h.run, runs, effects, backoff, old(clock));
      updated := AcknowledgeMatches(runs[h.run], h.worker);
      var row := AcknowledgeRow(runs[h.run], h.worker, now);
      Ended(h, row, 0.0);
      runs := runs[h.run := row];
    }

    // -------------------------------------------------------------- runner.py

    /** The handler: its perform_once calls in order, stopping at the first that raises. */
    method RunHandler(h: Handle, policies: seq<E.RetryPolicy>, bodies: seq<Body>, ttl: Time)
      returns (fault: Option<Fault>, results: Results, ghost trace: seq<Event>)
      requires Valid() && Carries(h) && |policies| == |bodies| == |models[h.run].steps| && 0.0 <= ttl
      requires Me(h).pc == NextPc(|policies|, 0) && Me(h).results == []
      requires forall k :: 0 <= k < |policies| ==> models[h.run].steps[k].policy == policies[k]
      requires forall k :: 0 <= k < |bodies| && bodies[k].Raises? ==>
                 WellFormedAction(Raise(bodies[k].why, bodies[k].took))
      modifies this`clock, this`models, this`effects
      ensures Valid() && Carries(h) && clock >= old(clock)
      ensures Moved(old(models), h, trace) && |models[h.run].steps| == old(|models[h.run].steps|)
      ensures Me(h).lost == old(Me(h).lost)
      ensures fault.None? ==> Me(h).pc.Closing? && Me(h).results == results && |results| == |policies|
      ensures fault.Some? ==> Me(h).pc == Unwound(fault.value)
      ensures StoredResults(effects, h.run, results) && OtherRunsKept(old(effects), effects, h.run)
    {
      hide Step, Play, Consistent, Mirrors;
      ghost var m := models[h.run];
      PlayNothing(m);
      fault, results, trace := None, [], [];
      var k := 0;
      while k < |policies|
        invariant 0 <= k <= |policies| && |results| == k
        invariant Valid() && Carries(h) && clock >= old(clock)
        invariant Moved(old(models), h, trace) && |models[h.run].steps| == |policies|
        invariant forall i :: 0 <= i < |policies| ==> models[h.run].steps[i].policy == policies[i]
        invariant Me(h).pc == NextPc(|policies|, k) && Me(h).results == results && Me(h).lost == old(Me(h).lost)
        invariant StoredResults(effects, h.run, results) && OtherRunsKept(old(effects), effects, h.run)
      {
        var r, ran, part := PerformOnce(h, k, policies[k], bodies[k], ttl);
        PlayConcat(m, trace, part);
        trace := trace + part;
        PlayKeepsPolicies(m, trace);
        match r
        case Threw(why) =>
          fault := Some(why);
          return;
        case Got(result) =>
          results := results + [result];
          k := k + 1;
      }
    }

    /** What the except-branches do with a fault, and what execute_leased reports. */
    method Unwind(h: Handle, why: Fault, random: real) returns (outcome: Summary, ghost last: Event)
      requires Valid() && Carries(h) && Me(h).pc == Unwound(why) && 0.0 <= random <= 1.0
      modifies this`clock, this`models, this`runs
      ensures Valid() && clock >= old(clock)
      ensures models == old(models)[h.run := Step(old(models)[h.run], last)]
      ensures RunsKept(old(runs), runs, h.run)
      ensures outcome == (match why case RunCancelled => Acknowledged case Reconciliation => Reconciling
                          case Transient(_) => Retrying case Other => FailedRun)
      ensures !Held(old(runs)[h.run], h.worker) ==> runs == old(runs)
      ensures runs[h.run].status.Succeeded? ==> old(runs)[h.run].status.Succeeded?
    {
      assert Mirrors(models[h.run], h.run, runs, effects, backoff, clock);
      assert runs[h.run := runs[h.run]] == runs;
      match why
      case RunCancelled =>
        var updated := AcknowledgeCancellation(h);
        outcome, last := Acknowledged, Act(clock, h.worker, Finish(0.0));
      case Reconciliation =>
        var updated := Fail(h, why, random);
        outcome, last := Reconciling, Act(clock, h.worker, Finish(random));
      case Transient(_) =>
        var updated := Fail(h, why, random);
        outcome, last := Retrying, Act(clock, h.worker, Finish(random));
      case Other =>
        var updated := Fail(h, why, random);
        outcome, last := FailedRun, Act(clock, h.worker, Finish(random));
    }

    /** The first check, the handler and the second check. */
    method RunChecked(h: Handle, policies: seq<E.RetryPolicy>, bodies: seq<Body>, ttl: Time)
      returns (fault: Option<Fault>, results: Results, ghost trace: seq<Event>)
      requires Valid() && Carries(h) && |policies| == |bodies| == |models[h.run].steps| && 0.0 <= ttl
      requires Me(h).pc.Polling? && Me(h).results == []
      requires forall k :: 0 <= k < |policies| ==> models[h.run].steps[k].policy == policies[k]
      requires forall k :: 0 <= k < |bodies| && bodies[k].Raises? ==>
                 WellFormedAction(Raise(bodies[k].why, bodies[k].took))
      modifies this`clock, this`models, this`effects
      ensures Valid() && Carries(h) && clock >= old(clock)
      ensures Moved(old(models), h, trace) && |models[h.run].steps| == old(|models[h.run].steps|)
      ensures Me(h).lost == old(Me(h).lost)
      ensures fault.None? ==> Me(h).pc.Checking? && Me(h).results == results && |results| == |policies|
      ensures fault.Some? ==> Me(h).pc == Unwound(fault.value)
      ensures StoredResults(effects, h.run, results) && OtherRunsKept(old(effects), effects, h.run)
    {
      hide Step, Play, Consistent, Mirrors;
      ghost var m := models[h.run];
      PlayNothing(m);
      var cancelled := CancellationPoint(h);
      trace := [] + [Act(clock, h.worker, Poll)];
      PlayOneMore(m, [], Act(clock, h.worker, Poll));
      if cancelled {
        fault, results := Some(RunCancelled), [];
        return;
      }
      ghost var part;
      fault, results, part := RunHandler(h, policies, bodies, ttl);
      PlayConcat(m, trace, part);
      trace := trace + part;
      if fault.None? {
        cancelled := CancellationPoint(h);
        PlayOneMore(m, trace, Act(clock, h.worker, Poll));
        trace := trace + [Act(clock, h.worker, Poll)];
        fault := if cancelled then Some(RunCancelled) else None;
      }
    }

    /** raise_if_lost with no lost heartbeat. */
    ghost method RaiseIfLost(h: Handle)
      requires Valid() && Carries(h) && Me(h).pc.Checking? && !Me(h).lost
      modifies this`models
      ensures Valid() && Carries(h) && |models[h.run].steps| == old(|models[h.run].steps|)
      ensures models == old(models)[h.run := Step(old(models)[h.run], Act(clock, h.worker, Check))]
      ensures Me(h) == old(Me(h)).(pc := Completing)
    {
      assert Mirrors(models[h.run], h.run, runs, effects, backoff, clock);
      Silently(h, Check);
    }

    /** raise_if_lost, then complete under the fence. */
    method CompleteChecked(h: Handle, results: Results) returns (updated: bool, ghost trace: seq<Event>)
      requires Valid() && Carries(h) && Me(h).pc.Checking? && Me(h).results == results && !Me(h).lost
      modifies this`clock, this`models, this`runs
      ensures Valid() && clock >= old(clock)
      ensures Moved(old(models), h, trace)
      ensures h.run in old(runs) && updated == CompleteMatches(old(runs)[h.run], h.worker)
      ensures runs == old(runs)[h.run := CompleteRow(old(runs)[h.run], h.worker, clock, results)]
    {
      assert h.run in runs by {
        assert Mirrors(models[h.run], h.run, runs, effects, backoff, clock);
      }
      hide Step, Play, Consistent, Mirrors, Me, CompleteMatches, CompleteRow;
      RaiseIfLost(h);
      ghost var check := Act(clock, h.worker, Check);
      updated := Complete(h, results);
      ghost var finish := Act(clock, h.worker, Finish(0.0));
      TwoSteps(old(models), h.run, check, finish);
      trace := [check, finish];
    }

    /** Everything after the handler: unwind the fault, or complete. */
    method Conclude(h: Handle, fault: Option<Fault>, results: Results, random: real)
      returns (outcome: Summary, ghost trace: seq<Event>)
      requires Valid() && Carries(h) && 0.0 <= random <= 1.0
      requires fault.None? ==> Me(h).pc.Checking? && Me(h).results == results && !Me(h).lost
      requires fault.Some? ==> Me(h).pc == Unwound(fault.value)
      modifies this`clock, this`models, this`runs
      ensures Valid() && clock >= old(clock)
      ensures Moved(old(models), h, trace) && RunsKept(old(runs), runs, h.run)
      ensures !Held(old(runs)[h.run], h.worker) ==> runs == old(runs)
      ensures match outcome
              case Finished(returned) =>
                returned == results && fault.None?
                && runs[h.run].status.Succeeded? && runs[h.run].result == Some(results)
              case _ => runs[h.run].status.Succeeded? ==> old(runs)[h.run].status.Succeeded?
    {
      assert h.run in runs && runs[h.run := runs[h.run]] == runs by {
        assert Mirrors(models[h.run], h.run, runs, effects, backoff, clock);
      }
      hide Step, Play, Consistent, Mirrors;
      ghost var m := models[h.run];
      PlayNothing(m);
      if fault.Some? {
        ghost var e;
        outcome, e := Unwind(h, fault.value, random);
        PlayOneMore(m, [], e);
        trace := [] + [e];
      } else {
        var updated;
        updated, trace := CompleteChecked(h, results);
        outcome := if updated then Finished(results) else LeaseLost;
      }
    }

    /**
      _execute_leased_body on a freshly leased run, uninterrupted: one trace of the protocol,
      whose outcome is reported truthfully.
     */
    method ExecuteLeased(h: Handle, policies: seq<E.RetryPolicy>, bodies: seq<Body>, ttl: Time, random: real)
      returns (outcome: Summary, ghost trace: seq<Event>)
      requires Valid() && Carries(h) && |policies| == |bodies| == |models[h.run].steps|
      requires Me(h).pc.Polling? && Me(h).results == [] && !Me(h).lost
      requires forall k :: 0 <= k < |policies| ==> models[h.run].steps[k].policy == policies[k]
      requires forall k :: 0 <= k < |bodies| && bodies[k].Raises? ==>
                 WellFormedAction(Raise(bodies[k].why, bodies[k].took))
      requires 0.0 <= ttl && 0.0 <= random <= 1.0
      modifies this
      ensures Valid() && clock >= old(clock)
      ensures Moved(old(models), h, trace)
      ensures RunsKept(old(runs), runs, h.run)
      ensures OtherRunsKept(old(effects), effects, h.run)
      ensures !Held(old(runs)[h.run], h.worker) ==> runs == old(runs)
      ensures match outcome
              case Finished(results) =>
                && runs[h.run].status.Succeeded? && runs[h.run].result == Some(results)
                && |results| == |policies| && StoredResults(effects, h.run, results)
              case _ => runs[h.run].status.Succeeded? ==> old(runs)[h.run].status.Succeeded?
    {
      hide Step, Play, Consistent, Mirrors, StoredResults, OtherRunsKept, RunsKept;
      ghost var m, last := models[h.run], [];
      var fault, results;
      fault, results, trace := RunChecked(h, policies, bodies, ttl);
      outcome, last := Conclude(h, fault, results, random);
      PlayConcat(m, trace, last);
      trace := trace + last;
    }
  }
}
