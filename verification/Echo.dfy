/**
  End-to-end theorems for a workload whose steps run through perform_once, and for the
  echo workload in particular, together with the traces that show where they stop.
 */
module Echo {
  import opened Prelude
  import L = Leases
  import E = SideEffects
  import opened P = Protocol
  import opened EffectSafety

  /** reserve, transform, announce. */
  const POLICIES := [E.SafeToRepeat, E.SafeToRepeat, E.NeedsReconciliation]
  const RESERVE := 0
  const TRANSFORM := 1
  const ANNOUNCE := 2

  predicate Runs(s: State, policies: seq<E.RetryPolicy>) {
    |s.steps| == |policies| && forall k :: 0 <= k < |policies| ==> s.steps[k].policy == policies[k]
  }

  // ---------------------------------------------------------------- theorems over every trace

  /**
    A step declared NEEDS_RECONCILIATION, with no assumption on leases, clocks or crashes:
    at most one body in flight, at most one body start beyond the recorded failures, and the
    outside world sees the effect at most once more often than bodies raised after taking effect.
   */
  lemma ReconciledStepAtMostOnce(s: State, es: seq<Event>, k: nat)
    requires Initial(s) && k < |s.steps| && s.steps[k].policy.NeedsReconciliation?
    ensures var t := Play(s, es);
            && |t.steps| == |s.steps|
            && AtMostOneInside(t, k)
            && t.steps[k].starts <= 1 + t.steps[k].failures
            && t.steps[k].applied <= 1 + t.steps[k].dirty
            && t.steps[k].dirty <= DirtyRaises(es)
  {
    ReconciledInvariants(s, es, k);
    assert TallyRow(Play(s, es).steps[k]);
  }

  /** Once such a step is completed, its row and its stored result never change. */
  lemma ReconciledStepIsFinal(s: State, es: seq<Event>, fs: seq<Event>, k: nat)
    requires Initial(s) && k < |s.steps| && s.steps[k].policy.NeedsReconciliation?
    requires |Play(s, es).steps| == |s.steps| && IsCompleted(Play(s, es).steps[k])
    ensures |Play(s, es + fs).steps| == |s.steps| && Play(s, es + fs).steps[k] == Play(s, es).steps[k]
    ensures forall w :: w in Play(s, es + fs).workers ==>
              ResultAgrees(Play(s, es + fs).workers[w], Play(s, es).steps[k], k)
  {
    var t, u := Play(s, es), Play(s, es + fs);
    ReconciledInvariants(s, es, k);
    PlayConcat(s, es, fs);
    TallyInvariant(t, fs, k);
    OrderInvariant(t, fs);
    assert u == Play(t, fs);
  }

  /** No step takes effect before every earlier step has completed. */
  lemma StepsRunInOrder(s: State, es: seq<Event>, j: nat, k: nat)
    requires Initial(s) && j < k < |s.steps|
    ensures |Play(s, es).steps| == |s.steps|
    ensures Play(s, es).steps[k].applied > 0 ==> Play(s, es).steps[j].completions > 0
    ensures Play(s, es).run.status.Succeeded? ==> Play(s, es).steps[j].completions > 0
  {
    InitialHolderInv(s, k);
    OrderInvariant(s, es);
    assert RowBeforeEffect(Play(s, es).steps[k]);
    if Play(s, es).steps[k].row.Some? {
      assert DoneUpTo(Play(s, es).steps, k);
    }
  }

  /** A succeeded run took every such step exactly once (plus the dishonest failures) and says so. */
  lemma SucceededMeansAppliedOnce(s: State, es: seq<Event>, k: nat)
    requires Initial(s) && k < |s.steps| && s.steps[k].policy.NeedsReconciliation?
    requires Play(s, es).run.status.Succeeded?
    ensures var t := Play(s, es);
            && |t.steps| == |s.steps|
            && t.steps[k].applied == 1 + t.steps[k].dirty
            && t.steps[k].completions == 1
            && t.run.result.Some? && |t.run.result.value| == |s.steps|
            && IsCompleted(t.steps[k]) && t.run.result.value[k] == t.steps[k].row.value.result
  {
    ReconciledInvariants(s, es, k);
    assert TallyRow(Play(s, es).steps[k]);
  }

  /**
    The echo workload: whatever crashes, reaps, zombies and re-leases happen, announce is
    applied at most once more often than its own body raised after applying it, so at most
    once when it never did; never before reserve and transform have each completed; and if the
    run succeeded it was applied.
   */
  lemma EchoAnnouncesAtMostOnce(s: State, es: seq<Event>)
    requires Initial(s) && Runs(s, POLICIES)
    ensures var t := Play(s, es);
            && |t.steps| == 3
            && t.steps[ANNOUNCE].applied <= 1 + t.steps[ANNOUNCE].dirty
            && (t.steps[ANNOUNCE].applied > 0 ==>
                  t.steps[RESERVE].completions > 0 && t.steps[TRANSFORM].completions > 0)
            && (t.run.status.Succeeded? ==> t.steps[ANNOUNCE].applied == 1 + t.steps[ANNOUNCE].dirty)
            && (t.steps[ANNOUNCE].dirty == 0 ==>
                  t.steps[ANNOUNCE].applied <= 1 && (t.run.status.Succeeded? ==> t.steps[ANNOUNCE].applied == 1))
  {
    ReconciledStepAtMostOnce(s, es, ANNOUNCE);
    StepsRunInOrder(s, es, RESERVE, ANNOUNCE);
    StepsRunInOrder(s, es, TRANSFORM, ANNOUNCE);
    if Play(s, es).run.status.Succeeded? {
      SucceededMeansAppliedOnce(s, es, ANNOUNCE);
    }
  }

  /**
    A step declared SAFE_TO_REPEAT under the timing discipline: one body in flight, the
    completed row is final, and every perform_once call in the run returns the same result.
   */
  lemma RepeatableStepIsWriteOnce(s: State, es: seq<Event>, fs: seq<Event>, k: nat)
    requires Initial(s) && k < |s.steps| && PromptTrace(s, es + fs)
    ensures |Play(s, es + fs).steps| == |Play(s, es).steps| == |s.steps|
    ensures AtMostOneInside(Play(s, es + fs), k)
    ensures IsCompleted(Play(s, es).steps[k]) ==>
              && Play(s, es + fs).steps[k] == Play(s, es).steps[k]
              && forall w :: w in Play(s, es + fs).workers ==>
                   ResultAgrees(Play(s, es + fs).workers[w], Play(s, es).steps[k], k)
  {
    InitialHolderInv(s, k);
    PromptTracesAreCalm(s, es + fs, k);
    CalmSplits(s, es, fs, k);
    PlayConcat(s, es, fs);
    WriteOnceMemo(s, es, k);
    WriteOnceMemo(Play(s, es), fs, k);
    OrderInvariant(s, es);
    OrderInvariant(Play(s, es), fs);
  }

  // ---------------------------------------------------------------- when a completed row is final

  /** A late writer reaches step k while its row is completed: a failure UPDATE, or a completing one with another result. */
  predicate Overwrites(s: State, e: Event, k: nat) {
    && e.Act? && s.clock <= e.now && e.w in s.workers && k < |s.steps| && IsCompleted(s.steps[k])
    && match s.workers[e.w].pc
       case Recording(j, _) => e.action.Record? && j == k
       case Landed(j, value) => e.action.Store? && j == k && s.steps[k].row.value.result != Some(value)
       case _ => false
  }

  predicate StillDone(a: StepState, b: StepState) {
    IsCompleted(a) ==> IsCompleted(b) && b.row.value.result == a.row.value.result
  }

  lemma StepKeepsDoneIff(s: State, e: Event, k: nat)
    requires k < |s.steps| && IsCompleted(s.steps[k])
    ensures |Step(s, e).steps| == |s.steps|
    ensures StillDone(s.steps[k], Step(s, e).steps[k]) <==> !Overwrites(s, e, k)
  {
    StepKeepsPolicies(s, e);
    if e.Act? && e.w in s.workers && e.now >= s.clock {
      var me := s.workers[e.w];
      if Focus(me.pc) != k {
        hide AtStep, Elsewhere, DoBeat, DoFinish;
      }
    }
  }

  predicate NoOverwrite(s: State, es: seq<Event>, k: nat)
    decreases |es|
  {
    es != [] ==> !Overwrites(s, es[0], k) && NoOverwrite(Step(s, es[0]), es[1..], k)
  }

  ghost predicate DoneThroughout(s: State, es: seq<Event>, k: nat)
    requires k < |s.steps|
    decreases |es|
  {
    es != [] ==>
      && |Step(s, es[0]).steps| == |s.steps| && StillDone(s.steps[k], Step(s, es[0]).steps[k])
      && DoneThroughout(Step(s, es[0]), es[1..], k)
  }

  /** Whatever the policy and the timing: a completed step stays completed with its result iff no late writer reaches it. */
  lemma {:induction false} CompletedIsFinalIff(s: State, es: seq<Event>, k: nat)
    requires k < |s.steps| && IsCompleted(s.steps[k])
    ensures DoneThroughout(s, es, k) <==> NoOverwrite(s, es, k)
    decreases |es|
  {
    if es != [] {
      StepKeepsDoneIff(s, es[0], k);
      hide Step, Overwrites;
      if !Overwrites(s, es[0], k) {
        CompletedIsFinalIff(Step(s, es[0]), es[1..], k);
      }
    }
  }

  lemma {:induction false} CalmSplits(s: State, es: seq<Event>, fs: seq<Event>, k: nat)
    requires CalmTrace(s, es + fs, k)
    ensures CalmTrace(s, es, k) && CalmTrace(Play(s, es), fs, k)
    decreases |es|
  {
    if es == [] {
      assert es + fs == fs;
    } else {
      assert (es + fs)[1..] == es[1..] + fs;
      CalmSplits(Step(s, es[0]), es[1..], fs, k);
    }
  }

  // ---------------------------------------------------------------- where the guarantees end

  /** Some trace leads from s to t. */
  ghost predicate Reaches(s: State, t: State) {
    exists es :: Play(s, es) == t
  }

  lemma ReachStep(s: State, t: State, e: Event) returns (u: State)
    requires Reaches(s, t)
    ensures u == Step(t, e) && Reaches(s, u)
  {
    u := Step(t, e);
    var es :| Play(s, es) == t;
    PlayOneMore(s, es, e);
    assert Play(s, es + [e]) == u;
  }

  lemma ReachesItself(s: State)
    ensures Reaches(s, s)
  {
    assert Play(s, []) == s;
  }

  /** A fresh run with one step of the given policy. */
  function OneStep(policy: E.RetryPolicy): State {
    State(0.0, L.Backoff(2.0, 300.0, 0.25),
          L.Run(0, "echo", L.Pending, None, None, 0, 3, 0.0, None, None, None, None, 0, 0.0),
          [StepState(policy, None, 0, 0, 0, 0, 0)], map[], [])
  }

  /** Step 0 can be claimed: no row, a failed one, or a lapsed claim that may be repeated. */
  predicate Claimable(st: StepState, now: Time) {
    || st.row.None? || st.row.value.status.Failed?
    || (IsStarted(st) && !E.ClaimLive(st.row.value, now) && st.policy.SafeToRepeat?)
  }

  /** Lease, check, claim, check: worker w is running the body of step 0. */
  lemma Begin(s: State, t: State, now: Time, w: WorkerId) returns (u: State)
    requires Reaches(s, t) && now >= t.clock && w !in t.workers && |t.steps| == 1
    requires L.Leasable(t.run, now) && Claimable(t.steps[0], now)
    ensures Reaches(s, u) && u.clock == now && u.backoff == t.backoff && u.run == L.GrantRow(t.run, w, now, 60.0)
    ensures u.workers == t.workers[w := Worker(t.run.attempt + 1, t.run.maxAttempts, Effecting(0), [], now + 300.0, false)]
    ensures |u.steps| == 1 && IsStarted(u.steps[0])
    ensures u.steps[0].applied == t.steps[0].applied && u.steps[0].dirty == t.steps[0].dirty
    ensures u.steps[0].policy == t.steps[0].policy
  {
    u := ReachStep(s, t, Grant(now, w, 60.0));
    u := ReachStep(s, u, Act(now, w, Poll));
    u := ReachStep(s, u, Act(now, w, Poll));
    u := ReachStep(s, u, Act(now, w, Claim(300.0)));
    u := ReachStep(s, u, Act(now, w, Poll));
  }

  /** Worker w is the current holder and is running the body of the only step. */
  predicate Running(t: State, w: WorkerId) {
    && |t.steps| == 1 && IsStarted(t.steps[0]) && L.ValidBackoff(t.backoff)
    && w in t.workers && t.workers[w].pc == Effecting(0)
    && L.Held(t.run, w) && t.run.cancelRequestedAt.None?
    && t.run.attempt == t.workers[w].attempt < t.workers[w].maxAttempts == t.run.maxAttempts
    && t.run.leaseExpiresAt == Some(t.clock + 60.0)
  }

  /** The body raises a transient error after taking effect; the run goes back to pending. */
  lemma RaiseAfterTaking(s: State, t: State, w: WorkerId) returns (u: State)
    requires Reaches(s, t) && Running(t, w)
    ensures Reaches(s, u) && |u.steps| == 1 && u.workers.Keys == t.workers.Keys
    ensures u.steps[0].row.Some? && u.steps[0].row.value.status.Failed?
    ensures u.steps[0].applied == t.steps[0].applied + 1 && u.steps[0].dirty == t.steps[0].dirty + 1
    ensures u.clock == t.clock && L.Leasable(u.run, t.clock + t.backoff.cap)
  {
    var now := t.clock;
    u := ReachStep(s, t, Act(now, w, Raise(Transient(None), true)));
    u := ReachStep(s, u, Act(now, w, Record));
    assert u.workers[w].pc == Unwinding(Transient(None));
    L.RetryDelayBounds(t.backoff, t.run.attempt, None, 0.0);
    u := ReachStep(s, u, Act(now, w, Finish(0.0)));
  }

  /** The holder stalls past its deadline and the reaper takes the run back, claims and all. */
  lemma StallAndReap(s: State, t: State, w: WorkerId) returns (u: State)
    requires Reaches(s, t) && Running(t, w)
    ensures Reaches(s, u) && u.workers == t.workers && |u.steps| == 1 && u.clock == t.clock + 61.0
    ensures IsStarted(u.steps[0]) && u.steps[0].row.value.claimExpiresAt.None?
    ensures u.steps[0].policy == t.steps[0].policy
    ensures L.Leasable(u.run, u.clock + t.backoff.cap)
  {
    L.RetryDelayBounds(t.backoff, t.run.attempt, None, 0.0);
    L.ReapDelayAgreesWithRetryDelay(t.backoff, t.run.attempt, 0.0);
    u := ReachStep(s, t, Reap(t.clock + 61.0, 0.0, 0.0));
  }

  /**
    The hypothesis on raising bodies is needed: if the announcement is appended and the body
    then raises a transient error, the failed row is claimed again and it is appended twice.
   */
  lemma RaisingAfterTheEffectRepeatsIt() returns (s: State, t: State)
    ensures Initial(s) && Runs(s, [E.NeedsReconciliation]) && Reaches(s, t)
    ensures |t.steps| == 1 && t.steps[0].applied == 2 && t.steps[0].dirty == 1
  {
    s := OneStep(E.NeedsReconciliation);
    ReachesItself(s);
    t := Begin(s, s, 1.0, 0);
    t := RaiseAfterTaking(s, t, 0);
    t := Begin(s, t, 301.0, 1);
    t := ReachStep(s, t, Act(301.0, 1, Land("sent")));
  }

  /** Two workers inside: the newcomer completes the step, then the sleeper's body fails. */
  lemma CompleteThenFail(both: State, sleeper: WorkerId, newcomer: WorkerId) returns (done: State, undone: State)
    requires |both.steps| == 1 && both.steps[0].row.Some? && sleeper != newcomer
    requires sleeper in both.workers && both.workers[sleeper].pc == Effecting(0)
    requires newcomer in both.workers && both.workers[newcomer].pc == Effecting(0)
    ensures Reaches(both, done) && Reaches(done, undone)
    ensures |done.steps| == |undone.steps| == 1 && IsCompleted(done.steps[0])
    ensures undone.steps[0].row.Some? && undone.steps[0].row.value.status.Failed?
  {
    ReachesItself(both);
    done := ReachStep(both, both, Act(both.clock, newcomer, Land("second")));
    done := ReachStep(both, done, Act(both.clock, newcomer, Store));
    undone := FailAfterwards(done, sleeper);
  }

  /** A body that is still running raises, and the failure UPDATE takes no notice of the row's status. */
  lemma FailAfterwards(done: State, sleeper: WorkerId) returns (undone: State)
    requires |done.steps| == 1 && done.steps[0].row.Some?
    requires sleeper in done.workers && done.workers[sleeper].pc == Effecting(0)
    ensures Reaches(done, undone)
    ensures |undone.steps| == 1 && undone.steps[0].row.Some? && undone.steps[0].row.value.status.Failed?
  {
    ReachesItself(done);
    undone := ReachStep(done, done, Act(done.clock, sleeper, Raise(Other, false)));
    undone := ReachStep(done, undone, Act(done.clock, sleeper, Record));
  }

  /**
    Without the timing discipline a repeatable step can run twice at once, and its completed
    row is not final: the first worker stalls past its lease and is reaped, the second takes
    the step over and completes it, and the woken first worker marks the completed row failed.
   */
  lemma ZombieOverwritesCompleted() returns (s: State, both: State, done: State, undone: State)
    ensures Initial(s) && Runs(s, [E.SafeToRepeat])
    ensures Reaches(s, both) && Reaches(both, done) && Reaches(done, undone)
    ensures !AtMostOneInside(both, 0)
    ensures |done.steps| == |undone.steps| == 1 && IsCompleted(done.steps[0])
    ensures undone.steps[0].row.Some? && undone.steps[0].row.value.status.Failed?
  {
    s := OneStep(E.SafeToRepeat);
    ReachesItself(s);
    var t := Begin(s, s, 1.0, 0);
    t := StallAndReap(s, t, 0);
    both := Begin(s, t, 362.0, 1);
    assert Inside(both.workers[0], 0) && Inside(both.workers[1], 0);
    done, undone := CompleteThenFail(both, 0, 1);
  }
}
