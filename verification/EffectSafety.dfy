/**
  What every trace of the run protocol keeps about side effects: order of the steps, at
  most one application of a step that must not repeat, and, under a stated timing
  discipline, the write-once memo that perform_once is meant to be.
 */
module EffectSafety {
  import opened Prelude
  import E = SideEffects
  import L = Leases
  import opened P = Protocol

  // ---------------------------------------------------------------- who is where

  /** The worker holds step k: it won the claim and has not recorded an end. */
  predicate Inside(me: Worker, k: nat) {
    match me.pc
    case Guarding(j) => j == k
    case Effecting(j) => j == k
    case Landed(j, _) => j == k
    case Recording(j, _) => j == k
    case _ => false
  }

  ghost predicate Occupied(s: State, k: nat) {
    exists w :: w in s.workers && Inside(s.workers[w], k)
  }

  ghost predicate AtMostOneInside(s: State, k: nat) {
    forall w, v :: w in s.workers && v in s.workers && Inside(s.workers[w], k) && Inside(s.workers[v], k) ==> w == v
  }

  // ---------------------------------------------------------------- the steps run in order

  /** A worker's results line up with its position: one per step already passed. */
  predicate InPlace(me: Worker, n: nat) {
    match me.pc
    case Polling => |me.results| == 0
    case Closing => |me.results| == n
    case Checking => |me.results| == n
    case Completing => |me.results| == n
    case Unwinding(_) => |me.results| <= n
    case Acknowledging => |me.results| <= n
    case Stopped => |me.results| <= n
    case _ => Focus(me.pc) == |me.results| < n
  }

  predicate DoneUpTo(steps: seq<StepState>, n: nat) {
    forall j :: 0 <= j < n && j < |steps| ==> steps[j].completions > 0
  }

  predicate WorkerInOrder(me: Worker, steps: seq<StepState>) {
    && InPlace(me, |steps|)
    && DoneUpTo(steps, |me.results|)
    && (forall k :: 0 <= k < |steps| && Inside(me, k) ==> steps[k].row.Some?)
  }

  predicate RowBeforeEffect(st: StepState) {
    && (st.row.None? ==> st.applied == 0 && st.starts == 0 && st.completions == 0)
    && (st.row.Some? && st.row.value.status.Completed? ==> st.completions > 0)
  }

  ghost predicate OrderInv(s: State) {
    && (forall w :: w in s.workers ==> WorkerInOrder(s.workers[w], s.steps))
    && (forall k :: 0 <= k < |s.steps| ==> RowBeforeEffect(s.steps[k]))
    && (forall k :: 0 <= k < |s.steps| && s.steps[k].row.Some? ==> DoneUpTo(s.steps, k))
    && (s.run.status.Succeeded? ==> DoneUpTo(s.steps, |s.steps|))
  }

  /** Completions are never forgotten and rows are never deleted. */
  predicate StepGrows(a: StepState, b: StepState) {
    a.completions <= b.completions && (a.row.Some? ==> b.row.Some?) && a.policy == b.policy
  }

  predicate StepsGrow(a: seq<StepState>, b: seq<StepState>) {
    |a| == |b| && forall k :: 0 <= k < |a| ==> StepGrows(a[k], b[k])
  }

  lemma OrderIsMonotone(me: Worker, a: seq<StepState>, b: seq<StepState>)
    requires StepsGrow(a, b) && WorkerInOrder(me, a)
    ensures WorkerInOrder(me, b)
  {
  }

  /** What one worker's action means for its own place and for the one row it touches. */
  lemma LocalOrder(me: Worker, st: StepState, n: nat, cancelled: bool, now: Time, w: WorkerId, a: Action)
    requires InPlace(me, n) && 0 <= Focus(me.pc) < n && RowBeforeEffect(st)
    requires Inside(me, Focus(me.pc)) ==> st.row.Some?
    ensures var l := AtStep(me, st, n, cancelled, now, w, a);
            && InPlace(l.me, n) && RowBeforeEffect(l.st) && StepGrows(st, l.st)
            && (l.me.results == me.results
                || (|l.me.results| == Focus(me.pc) + 1 && me.results < l.me.results && l.st.completions > 0))
            && (forall k :: Inside(l.me, k) ==> k == Focus(me.pc) && l.st.row.Some?)
            && (st.row.None? && l.st.row.Some? ==> me.pc.Claiming?)
  {
  }

  lemma OrderInvFinish(s: State, now: Time, w: WorkerId, random: real)
    requires OrderInv(s) && w in s.workers
    ensures OrderInv(DoFinish(s, now, w, random))
  {
    assert WorkerInOrder(s.workers[w], s.steps);
    var row := FinalRow(s, now, w, random);
    assert row.status.Succeeded? ==> s.run.status.Succeeded? || s.workers[w].pc.Completing?;
  }

  lemma OrderInvInside(s: State, now: Time, w: WorkerId, a: Action)
    requires OrderInv(s) && w in s.workers && !a.Beat? && !a.Finish?
    requires 0 <= Focus(s.workers[w].pc) < |s.steps|
    ensures OrderInv(Perform(s, now, w, a))
  {
    var t := Perform(s, now, w, a);
    var me, k := s.workers[w], Focus(s.workers[w].pc);
    assert WorkerInOrder(me, s.steps);
    LocalOrder(me, s.steps[k], |s.steps|, CancelSeen(s.run), now, w, a);
    assert StepsGrow(s.steps, t.steps);
    forall v | v in t.workers ensures WorkerInOrder(t.workers[v], t.steps) {
      if v != w {
        OrderIsMonotone(s.workers[v], s.steps, t.steps);
      }
    }
    forall j | 0 <= j < |t.steps| && t.steps[j].row.Some? ensures DoneUpTo(t.steps, j) {
      assert j == k || s.steps[j].row.Some?;
    }
  }

  /** Only one worker moves, and it is still in order. */
  lemma OrderInvOneWorker(s: State, w: WorkerId, me: Worker)
    requires OrderInv(s) && w in s.workers && WorkerInOrder(me, s.steps)
    ensures OrderInv(s.(workers := s.workers[w := me]))
  {
  }

  lemma OrderInvAct(s: State, now: Time, w: WorkerId, a: Action)
    requires OrderInv(s) && w in s.workers
    ensures OrderInv(Perform(s, now, w, a))
  {
    hide AtStep, DoFinish, OrderInv;
    var me := s.workers[w];
    assert WorkerInOrder(me, s.steps) by {
      OrderGives(s, w);
    }
    if a.Finish? {
      OrderInvFinish(s, now, w, a.random);
    } else if a.Beat? {
      OrderInvBeat(s, now, w, a.extend);
    } else if 0 <= Focus(me.pc) < |s.steps| {
      OrderInvInside(s, now, w, a);
    } else {
      var after := Elsewhere(me, |s.steps|, CancelSeen(s.run), a);
      OrderInvOneWorker(s, w, after);
    }
  }

  lemma OrderGives(s: State, w: WorkerId)
    requires OrderInv(s) && w in s.workers
    ensures WorkerInOrder(s.workers[w], s.steps)
  {
  }

  lemma OrderInvBeat(s: State, now: Time, w: WorkerId, extend: Time)
    requires OrderInv(s) && w in s.workers
    ensures OrderInv(DoBeat(s, now, w, extend))
  {
    assert WorkerInOrder(s.workers[w], s.steps);
  }

  lemma OrderInvReap(s: State, now: Time, grace: Time, random: real)
    requires OrderInv(s)
    ensures OrderInv(DoReap(s, now, grace, random))
  {
    var t := DoReap(s, now, grace, random);
    assert StepsGrow(s.steps, t.steps);
    forall w | w in t.workers ensures WorkerInOrder(t.workers[w], t.steps) {
      OrderIsMonotone(s.workers[w], s.steps, t.steps);
    }
  }

  lemma OrderInvStep(s: State, e: Event)
    requires OrderInv(s)
    ensures OrderInv(Step(s, e))
  {
    hide Perform, DoReap;
    if e.now >= s.clock && WellFormed(e) {
      var u := s.(clock := e.now);
      match e
      case Act(now, w, a) => if w in u.workers { OrderInvAct(u, now, w, a); }
      case Grant(_, _, _) =>
      case Cancel(_) =>
      case Reap(now, grace, random) => OrderInvReap(u, now, grace, random);
    }
  }

  /** Order holds in every reachable state. */
  lemma {:induction false} OrderInvariant(s: State, es: seq<Event>)
    requires OrderInv(s)
    ensures OrderInv(Play(s, es)) && |Play(s, es).steps| == |s.steps|
    ensures forall k :: 0 <= k < |s.steps| ==> Play(s, es).steps[k].policy == s.steps[k].policy
    decreases |es|
  {
    PlayKeepsPolicies(s, es);
    if es != [] {
      OrderInvStep(s, es[0]);
      OrderInvariant(Step(s, es[0]), es[1..]);
    }
  }

  // ---------------------------------------------------------------- one holder per step

  predicate IsStarted(st: StepState) { st.row.Some? && st.row.value.status.Started? }

  predicate IsCompleted(st: StepState) { st.row.Some? && st.row.value.status.Completed? }

  /** Everything perform_once has returned for step k is the stored result. */
  predicate ResultAgrees(me: Worker, st: StepState, k: nat) {
    |me.results| > k ==> IsCompleted(st) && me.results[k] == st.row.value.result
  }

  ghost predicate HolderInv(s: State, k: nat) {
    && k < |s.steps|
    && AtMostOneInside(s, k)
    && (forall w :: w in s.workers && Inside(s.workers[w], k) ==> IsStarted(s.steps[k]))
    && (forall w :: w in s.workers ==> ResultAgrees(s.workers[w], s.steps[k], k))
    && s.steps[k].completions == (if IsCompleted(s.steps[k]) then 1 else 0)
    && (IsCompleted(s.steps[k]) ==> s.steps[k].row.value.result.Some?)
  }

  /** The claim transaction takes a started row from a claimant whose claim has lapsed. */
  predicate TakesOver(s: State, e: Event, k: nat) {
    && k < |s.steps| && e.Act? && e.action.Claim? && WellFormed(e) && e.now >= s.clock
    && e.w in s.workers && s.workers[e.w].pc == Claiming(k)
    && IsStarted(s.steps[k]) && !E.ClaimLive(s.steps[k].row.value, e.now)
    && s.steps[k].policy.SafeToRepeat?
  }

  /** No claim is taken from a claimant that is still inside the step. */
  ghost predicate Calm(s: State, e: Event, k: nat) {
    TakesOver(s, e, k) ==> !Occupied(s, k)
  }

  /** One action at step k, from the point of view of the row. */
  lemma LocalHolder(me: Worker, st: StepState, n: nat, cancelled: bool, now: Time, w: WorkerId, a: Action, k: nat)
    requires InPlace(me, n) && Focus(me.pc) == k < n
    requires Inside(me, k) ==> IsStarted(st)
    requires ResultAgrees(me, st, k)
    requires st.completions == (if IsCompleted(st) then 1 else 0)
    requires IsCompleted(st) ==> st.row.value.result.Some?
    ensures var l := AtStep(me, st, n, cancelled, now, w, a);
            && (Inside(l.me, k) ==> IsStarted(l.st))
            && ResultAgrees(l.me, l.st, k)
            && l.st.completions == (if IsCompleted(l.st) then 1 else 0)
            && (IsCompleted(l.st) ==> l.st.row.value.result.Some?)
            && (IsCompleted(st) ==> l.st == st)
            && (!Inside(me, k) && (Inside(l.me, k) || l.st != st) ==>
                  (&& a.Claim? && me.pc == Claiming(k) && Inside(l.me, k) && !IsCompleted(st)
                   && (IsStarted(st) ==> !E.ClaimLive(st.row.value, now) && st.policy.SafeToRepeat?)))
  {
  }

  lemma HolderInvAtStep(s: State, now: Time, w: WorkerId, a: Action, k: nat)
    requires OrderInv(s) && HolderInv(s, k) && w in s.workers && !a.Beat? && !a.Finish?
    requires Focus(s.workers[w].pc) == k
    requires (a.Claim? && s.workers[w].pc == Claiming(k) && IsStarted(s.steps[k])
              && !E.ClaimLive(s.steps[k].row.value, now) && s.steps[k].policy.SafeToRepeat?) ==> !Occupied(s, k)
    ensures HolderInv(Perform(s, now, w, a), k)
    ensures IsCompleted(s.steps[k]) ==> Perform(s, now, w, a).steps[k] == s.steps[k]
  {
    var t := Perform(s, now, w, a);
    var me, st := s.workers[w], s.steps[k];
    assert WorkerInOrder(me, s.steps) && ResultAgrees(me, st, k);
    LocalHolder(me, st, |s.steps|, CancelSeen(s.run), now, w, a, k);
    forall v | v in t.workers && v != w
      ensures ResultAgrees(t.workers[v], t.steps[k], k)
      ensures Inside(t.workers[v], k) ==> !Inside(t.workers[w], k) && IsStarted(t.steps[k])
    {
      assert t.workers[v] == s.workers[v] && ResultAgrees(s.workers[v], st, k);
    }
  }

  /** One worker's own view of an action that is not about step k. */
  ghost predicate KeepsAway(me: Worker, after: Worker, st: StepState, k: nat) {
    Inside(after, k) == Inside(me, k) && ResultAgrees(after, st, k)
  }

  lemma FinishKeepsAway(s: State, now: Time, w: WorkerId, random: real, k: nat)
    requires w in s.workers && k < |s.steps| && ResultAgrees(s.workers[w], s.steps[k], k)
    ensures var t := DoFinish(s, now, w, random);
            && t.steps == s.steps && w in t.workers && t.workers == s.workers[w := t.workers[w]]
            && KeepsAway(s.workers[w], t.workers[w], s.steps[k], k)
  {
  }

  lemma BeatKeepsAway(s: State, now: Time, w: WorkerId, extend: Time, k: nat)
    requires w in s.workers && k < |s.steps| && ResultAgrees(s.workers[w], s.steps[k], k)
    ensures var t := DoBeat(s, now, w, extend);
            && t.steps == s.steps && w in t.workers && t.workers == s.workers[w := t.workers[w]]
            && KeepsAway(s.workers[w], t.workers[w], s.steps[k], k)
            && t.workers[w].pc == s.workers[w].pc && t.workers[w].claimDeadline == s.workers[w].claimDeadline
  {
  }

  /** An action at another step, or between steps, leaves step k alone. */
  lemma OthersKeepAway(s: State, now: Time, w: WorkerId, a: Action, k: nat)
    requires w in s.workers && k < |s.steps| && ResultAgrees(s.workers[w], s.steps[k], k)
    requires WorkerInOrder(s.workers[w], s.steps) && OrderInv(s)
    requires !a.Beat? && !a.Finish? && Focus(s.workers[w].pc) != k
    ensures var t := Perform(s, now, w, a);
            && |t.steps| == |s.steps| && t.steps[k] == s.steps[k]
            && w in t.workers && t.workers == s.workers[w := t.workers[w]]
            && KeepsAway(s.workers[w], t.workers[w], s.steps[k], k)
  {
    var me := s.workers[w];
    if 0 <= Focus(me.pc) < |s.steps| {
      assert RowBeforeEffect(s.steps[Focus(me.pc)]);
      LocalOrder(me, s.steps[Focus(me.pc)], |s.steps|, CancelSeen(s.run), now, w, a);
    }
  }

  /** Step k and who is inside it, seen past an action that is not about step k. */
  ghost predicate Bystanding(s: State, t: State, w: WorkerId, k: nat) {
    && w in s.workers && w in t.workers && t.workers == s.workers[w := t.workers[w]]
    && k < |s.steps| == |t.steps| && t.steps[k] == s.steps[k]
    && ResultAgrees(t.workers[w], s.steps[k], k)
    && Inside(t.workers[w], k) == Inside(s.workers[w], k)
    && (Inside(t.workers[w], k) ==>
          t.workers[w].pc == s.workers[w].pc && t.workers[w].claimDeadline == s.workers[w].claimDeadline)
  }

  lemma Bystander(s: State, now: Time, w: WorkerId, a: Action, k: nat)
    requires OrderInv(s) && w in s.workers && k < |s.steps| && ResultAgrees(s.workers[w], s.steps[k], k)
    requires a.Beat? || a.Finish? || Focus(s.workers[w].pc) != k
    ensures Bystanding(s, Perform(s, now, w, a), w, k)
  {
    hide AtStep, Elsewhere, DoBeat;
    assert WorkerInOrder(s.workers[w], s.steps);
    if a.Beat? {
      BeatKeepsAway(s, now, w, a.extend, k);
    } else if a.Finish? {
      FinishKeepsAway(s, now, w, a.random, k);
    } else {
      OthersKeepAway(s, now, w, a, k);
    }
  }

  lemma HolderInvElsewhere(s: State, now: Time, w: WorkerId, a: Action, k: nat)
    requires OrderInv(s) && HolderInv(s, k) && w in s.workers
    requires a.Beat? || a.Finish? || Focus(s.workers[w].pc) != k
    ensures HolderInv(Perform(s, now, w, a), k)
    ensures Perform(s, now, w, a).steps[k] == s.steps[k]
  {
    hide Perform;
    var t := Perform(s, now, w, a);
    assert ResultAgrees(s.workers[w], s.steps[k], k);
    Bystander(s, now, w, a, k);
    forall v | v in t.workers
      ensures ResultAgrees(t.workers[v], t.steps[k], k) && Inside(t.workers[v], k) == Inside(s.workers[v], k)
    {
      assert ResultAgrees(s.workers[v], s.steps[k], k);
    }
  }

  lemma HolderInvStep(s: State, e: Event, k: nat)
    requires OrderInv(s) && HolderInv(s, k) && Calm(s, e, k)
    ensures HolderInv(Step(s, e), k)
    ensures IsCompleted(s.steps[k]) ==> Step(s, e).steps[k] == s.steps[k]
  {
    hide Perform, DoGrant, DoReap;
    if e.now >= s.clock && WellFormed(e) {
      var u := s.(clock := e.now);
      assert Occupied(u, k) == Occupied(s, k);
      match e
      case Act(now, w, a) =>
        if w in u.workers {
          if !a.Beat? && !a.Finish? && Focus(u.workers[w].pc) == k {
            HolderInvAtStep(u, now, w, a, k);
          } else {
            HolderInvElsewhere(u, now, w, a, k);
          }
        }
      case Grant(now, w, lease) => HolderInvGrant(u, now, w, lease, k);
      case Cancel(_) =>
      case Reap(now, grace, random) => HolderInvReap(u, now, grace, random, k);
    }
  }

  lemma HolderInvGrant(s: State, now: Time, w: WorkerId, lease: Time, k: nat)
    requires HolderInv(s, k)
    ensures HolderInv(DoGrant(s, now, w, lease), k) && DoGrant(s, now, w, lease).steps == s.steps
  {
    var t := DoGrant(s, now, w, lease);
    forall v | v in t.workers ensures ResultAgrees(t.workers[v], s.steps[k], k) {
      assert v in s.workers ==> ResultAgrees(s.workers[v], s.steps[k], k);
    }
  }

  lemma HolderInvReap(s: State, now: Time, grace: Time, random: real, k: nat)
    requires HolderInv(s, k) && Calm(s, Reap(now, grace, random), k)
    ensures HolderInv(DoReap(s, now, grace, random), k)
    ensures IsCompleted(s.steps[k]) ==> DoReap(s, now, grace, random).steps[k] == s.steps[k]
  {
    var t := DoReap(s, now, grace, random);
    forall v | v in s.workers ensures ResultAgrees(s.workers[v], t.steps[k], k) {
      assert ResultAgrees(s.workers[v], s.steps[k], k);
    }
  }

  ghost predicate CalmTrace(s: State, es: seq<Event>, k: nat)
    decreases |es|
  {
    es != [] ==> Calm(s, es[0], k) && CalmTrace(Step(s, es[0]), es[1..], k)
  }

  /** A step that needs reconciliation is never taken over, so every trace is calm for it. */
  lemma {:induction false} ReconciledStepsAreCalm(s: State, es: seq<Event>, k: nat)
    requires OrderInv(s) && k < |s.steps| && s.steps[k].policy.NeedsReconciliation?
    ensures CalmTrace(s, es, k)
    decreases |es|
  {
    if es != [] {
      OrderInvStep(s, es[0]);
      StepKeepsPolicies(s, es[0]);
      ReconciledStepsAreCalm(Step(s, es[0]), es[1..], k);
    }
  }

  /**
    On calm traces perform_once is a write-once memo: at most one worker is inside the step,
    the completed row never changes again, and every result any worker ever got is the stored one.
   */
  lemma {:induction false} WriteOnceMemo(s: State, es: seq<Event>, k: nat)
    requires OrderInv(s) && HolderInv(s, k) && CalmTrace(s, es, k)
    ensures OrderInv(Play(s, es)) && HolderInv(Play(s, es), k)
    ensures IsCompleted(s.steps[k]) ==> Play(s, es).steps[k] == s.steps[k]
    decreases |es|
  {
    if es != [] {
      OrderInvStep(s, es[0]);
      HolderInvStep(s, es[0], k);
      WriteOnceMemo(Step(s, es[0]), es[1..], k);
    }
  }

  lemma InitialHolderInv(s: State, k: nat)
    requires Initial(s) && k < |s.steps|
    ensures OrderInv(s) && HolderInv(s, k)
  {
  }

  // ---------------------------------------------------------------- exactly when bodies overlap

  lemma TakeoverOverlaps(s: State, e: Event, k: nat)
    requires TakesOver(s, e, k) && Occupied(s, k)
    ensures !AtMostOneInside(Step(s, e), k)
  {
    var v :| v in s.workers && Inside(s.workers[v], k);
    var t := Step(s, e);
    assert Inside(t.workers[v], k) && Inside(t.workers[e.w], k) && v != e.w;
  }

  ghost predicate NeverOverlaps(s: State, es: seq<Event>, k: nat)
    decreases |es|
  {
    AtMostOneInside(s, k) && (es != [] ==> NeverOverlaps(Step(s, es[0]), es[1..], k))
  }

  lemma {:induction false} OverlapIff(s: State, es: seq<Event>, k: nat)
    requires OrderInv(s) && HolderInv(s, k)
    ensures NeverOverlaps(s, es, k) <==> CalmTrace(s, es, k)
    decreases |es|
  {
    if es != [] {
      var t := Step(s, es[0]);
      OrderInvStep(s, es[0]);
      if Calm(s, es[0], k) {
        HolderInvStep(s, es[0], k);
        OverlapIff(t, es[1..], k);
      } else {
        TakeoverOverlaps(s, es[0], k);
        assert !NeverOverlaps(t, es[1..], k);
      }
    }
  }

  /**
    Two workers are never inside one step together exactly when no claim is taken from a
    claimant that is still inside: the claim deadline is the whole defence, in both directions.
   */
  lemma OneBodyExactlyWhenCalm(s: State, es: seq<Event>, k: nat)
    requires Initial(s) && k < |s.steps|
    ensures NeverOverlaps(s, es, k) <==> CalmTrace(s, es, k)
  {
    InitialHolderInv(s, k);
    OverlapIff(s, es, k);
  }

  // ---------------------------------------------------------------- the timing discipline

  /**
    What an operator must provide: bodies end before their claim lapses, and heartbeats keep
    the reaper away from a run whose worker is inside a step.
   */
  ghost predicate Prompt(s: State, e: Event) {
    && (e.Act? && e.action.Claim? && e.w in s.workers ==>
          forall v, k :: v in s.workers && s.workers[e.w].pc == Claiming(k) && Inside(s.workers[v], k) ==>
            s.workers[v].claimDeadline > e.now)
    && (e.Reap? && L.Reapable(s.run, e.now, e.grace) ==> forall k :: 0 <= k < |s.steps| ==> !Occupied(s, k))
  }

  ghost predicate PromptTrace(s: State, es: seq<Event>)
    decreases |es|
  {
    es != [] ==> Prompt(s, es[0]) && PromptTrace(Step(s, es[0]), es[1..])
  }

  /** The row still carries the deadline its claimant was given. */
  ghost predicate DeadlineInv(s: State, k: nat) {
    k < |s.steps| && forall w :: w in s.workers && Inside(s.workers[w], k) ==>
      s.steps[k].row.Some? && s.steps[k].row.value.claimExpiresAt == Some(s.workers[w].claimDeadline)
  }

  lemma LocalDeadline(me: Worker, st: StepState, n: nat, cancelled: bool, now: Time, w: WorkerId, a: Action, k: nat)
    requires Focus(me.pc) == k < n
    requires Inside(me, k) ==> st.row.Some? && st.row.value.claimExpiresAt == Some(me.claimDeadline)
    ensures var l := AtStep(me, st, n, cancelled, now, w, a);
            Inside(l.me, k) ==> l.st.row.Some? && l.st.row.value.claimExpiresAt == Some(l.me.claimDeadline)
  {
  }

  lemma DeadlineInvAct(s: State, now: Time, w: WorkerId, a: Action, k: nat)
    requires OrderInv(s) && HolderInv(s, k) && DeadlineInv(s, k) && w in s.workers
    requires (a.Claim? && s.workers[w].pc == Claiming(k) && IsStarted(s.steps[k])
              && !E.ClaimLive(s.steps[k].row.value, now) && s.steps[k].policy.SafeToRepeat?) ==> !Occupied(s, k)
    ensures DeadlineInv(Perform(s, now, w, a), k)
  {
    hide Perform;
    assert ResultAgrees(s.workers[w], s.steps[k], k);
    if a.Beat? || a.Finish? || Focus(s.workers[w].pc) != k {
      Bystander(s, now, w, a, k);
    } else {
      DeadlineInvAtStep(s, now, w, a, k);
    }
  }

  lemma DeadlineInvAtStep(s: State, now: Time, w: WorkerId, a: Action, k: nat)
    requires OrderInv(s) && HolderInv(s, k) && DeadlineInv(s, k) && w in s.workers && !a.Beat? && !a.Finish?
    requires Focus(s.workers[w].pc) == k
    requires (a.Claim? && s.workers[w].pc == Claiming(k) && IsStarted(s.steps[k])
              && !E.ClaimLive(s.steps[k].row.value, now) && s.steps[k].policy.SafeToRepeat?) ==> !Occupied(s, k)
    ensures DeadlineInv(Perform(s, now, w, a), k)
  {
    var t := Perform(s, now, w, a);
    var me, st := s.workers[w], s.steps[k];
    assert WorkerInOrder(me, s.steps) && ResultAgrees(me, st, k);
    LocalDeadline(me, st, |s.steps|, CancelSeen(s.run), now, w, a, k);
    LocalHolder(me, st, |s.steps|, CancelSeen(s.run), now, w, a, k);
    forall v | v in t.workers && v != w && Inside(t.workers[v], k)
      ensures t.steps[k] == st
    {
      assert t.workers[v] == s.workers[v] && Inside(s.workers[v], k);
    }
  }

  lemma PromptIsCalm(s: State, e: Event, k: nat)
    requires HolderInv(s, k) && DeadlineInv(s, k) && Prompt(s, e)
    ensures Calm(s, e, k)
  {
  }

  lemma DeadlineInvStep(s: State, e: Event, k: nat)
    requires OrderInv(s) && HolderInv(s, k) && DeadlineInv(s, k) && Prompt(s, e)
    ensures Calm(s, e, k) && DeadlineInv(Step(s, e), k)
  {
    PromptIsCalm(s, e, k);
    if e.now >= s.clock && WellFormed(e) {
      var u := s.(clock := e.now);
      assert Occupied(u, k) == Occupied(s, k);
      match e
      case Act(now, w, a) => if w in u.workers { DeadlineInvAct(u, now, w, a, k); }
      case Grant(_, _, _) =>
      case Cancel(_) =>
      case Reap(_, _, _) =>
    }
  }

  /** Prompt traces are calm: the deadlines do what the timing discipline asks of them. */
  lemma {:induction false} PromptTracesAreCalm(s: State, es: seq<Event>, k: nat)
    requires OrderInv(s) && HolderInv(s, k) && DeadlineInv(s, k) && PromptTrace(s, es)
    ensures CalmTrace(s, es, k)
    decreases |es|
  {
    if es != [] {
      OrderInvStep(s, es[0]);
      DeadlineInvStep(s, es[0], k);
      HolderInvStep(s, es[0], k);
      PromptTracesAreCalm(Step(s, es[0]), es[1..], k);
    }
  }

  // ---------------------------------------------------------------- steps that must not repeat

  /** Effects the outside world saw and the body did not deny. */
  function Clean(st: StepState): int { st.applied - st.dirty }

  predicate TallyRow(st: StepState) {
    0 <= Clean(st)
    && match st.row
       case None => st.starts == 0 && st.failures == 0 && st.applied == 0
       case Some(e) =>
         match e.status
         case Failed => st.starts <= st.failures && Clean(st) == 0
         case Started => st.starts <= st.failures + 1 && Clean(st) <= 1
         case Completed => st.starts <= st.failures + 1 && Clean(st) == 1
  }

  /** What the one worker inside the step knows. */
  predicate TallyInside(pc: Pc, st: StepState) {
    match pc
    case Guarding(_) => st.starts <= st.failures && Clean(st) == 0
    case Effecting(_) => Clean(st) == 0
    case Landed(_, _) => Clean(st) == 1
    case Recording(_, _) => Clean(st) == 0
    case _ => true
  }

  ghost predicate TallyInv(s: State, k: nat) {
    && k < |s.steps| && s.steps[k].policy.NeedsReconciliation?
    && TallyRow(s.steps[k])
    && forall w :: w in s.workers && Inside(s.workers[w], k) ==> TallyInside(s.workers[w].pc, s.steps[k])
  }

  lemma LocalTally(me: Worker, st: StepState, n: nat, cancelled: bool, now: Time, w: WorkerId, a: Action, k: nat)
    requires Focus(me.pc) == k < n && st.policy.NeedsReconciliation? && TallyRow(st)
    requires Inside(me, k) ==> IsStarted(st) && TallyInside(me.pc, st)
    ensures var l := AtStep(me, st, n, cancelled, now, w, a);
            && l.st.policy == st.policy && TallyRow(l.st)
            && (Inside(l.me, k) ==> TallyInside(l.me.pc, l.st))
            && l.st.dirty <= st.dirty + (if a.Raise? && a.took then 1 else 0)
  {
  }

  lemma TallyInvAtStep(s: State, now: Time, w: WorkerId, a: Action, k: nat)
    requires OrderInv(s) && HolderInv(s, k) && TallyInv(s, k) && w in s.workers && !a.Beat? && !a.Finish?
    requires Focus(s.workers[w].pc) == k
    ensures TallyInv(Perform(s, now, w, a), k)
    ensures Perform(s, now, w, a).steps[k].dirty <= s.steps[k].dirty + (if a.Raise? && a.took then 1 else 0)
  {
    hide AtStep, DoBeat, DoFinish, Elsewhere, TallyRow, Clean;
    var t := Perform(s, now, w, a);
    var me, st := s.workers[w], s.steps[k];
    assert WorkerInOrder(me, s.steps) && ResultAgrees(me, st, k);
    LocalTally(me, st, |s.steps|, CancelSeen(s.run), now, w, a, k);
    LocalHolder(me, st, |s.steps|, CancelSeen(s.run), now, w, a, k);
    forall v | v in t.workers && v != w && Inside(t.workers[v], k)
      ensures t.steps[k] == st && TallyInside(t.workers[v].pc, st)
    {
      assert t.workers[v] == s.workers[v] && Inside(s.workers[v], k);
    }
  }

  lemma TallyInvAct(s: State, now: Time, w: WorkerId, a: Action, k: nat)
    requires OrderInv(s) && HolderInv(s, k) && TallyInv(s, k) && w in s.workers
    ensures TallyInv(Perform(s, now, w, a), k)
    ensures Perform(s, now, w, a).steps[k].dirty <= s.steps[k].dirty + (if a.Raise? && a.took then 1 else 0)
  {
    hide Perform, TallyRow, Clean;
    assert ResultAgrees(s.workers[w], s.steps[k], k);
    if a.Beat? || a.Finish? || Focus(s.workers[w].pc) != k {
      Bystander(s, now, w, a, k);
    } else {
      TallyInvAtStep(s, now, w, a, k);
    }
  }

  /** Grants, cancels and reaps put nobody inside a step and count nothing. */
  lemma TallyInvQuiet(s: State, t: State, k: nat)
    requires TallyInv(s, k) && k < |t.steps|
    requires forall w :: w in t.workers && Inside(t.workers[w], k) ==> w in s.workers && t.workers[w] == s.workers[w]
    requires t.steps[k] == s.steps[k] || t.steps[k] == s.steps[k].(row := E.ReleasedRow(s.steps[k].row))
    ensures TallyInv(t, k) && t.steps[k].dirty == s.steps[k].dirty
  {
  }

  lemma TallyInvStep(s: State, e: Event, k: nat)
    requires OrderInv(s) && HolderInv(s, k) && TallyInv(s, k)
    ensures TallyInv(Step(s, e), k)
    ensures Step(s, e).steps[k].dirty
            <= s.steps[k].dirty + (if e.Act? && e.action.Raise? && e.action.took then 1 else 0)
  {
    hide Perform, TallyRow;
    if e.now >= s.clock && WellFormed(e) {
      var u := s.(clock := e.now);
      match e
      case Act(now, w, a) => if w in u.workers { TallyInvAct(u, now, w, a, k); }
      case Grant(now, w, lease) => TallyInvQuiet(u, DoGrant(u, now, w, lease), k);
      case Cancel(_) =>
      case Reap(now, grace, random) => TallyInvQuiet(u, DoReap(u, now, grace, random), k);
    }
  }

  /** The three invariants of a step that needs reconciliation, over every trace. */
  lemma {:induction false} TallyInvariant(s: State, es: seq<Event>, k: nat)
    requires OrderInv(s) && HolderInv(s, k) && TallyInv(s, k)
    ensures OrderInv(Play(s, es)) && HolderInv(Play(s, es), k) && TallyInv(Play(s, es), k)
    ensures IsCompleted(s.steps[k]) ==> Play(s, es).steps[k] == s.steps[k]
    ensures Play(s, es).steps[k].dirty <= s.steps[k].dirty + DirtyRaises(es)
    decreases |es|
  {
    if es != [] {
      OrderInvStep(s, es[0]);
      HolderInvStep(s, es[0], k);
      TallyInvStep(s, es[0], k);
      TallyInvariant(Step(s, es[0]), es[1..], k);
    }
  }

  /** Bodies in the trace that raised after the outside world had seen their effect. */
  function DirtyRaises(es: seq<Event>): nat {
    if es == [] then 0
    else (if es[0].Act? && es[0].action.Raise? && es[0].action.took then 1 else 0) + DirtyRaises(es[1..])
  }

  // ---------------------------------------------------------------- what a succeeded run recorded

  /** A succeeded run has completed step k and carries its stored result. */
  ghost predicate SucceededInv(s: State, k: nat) {
    k < |s.steps| &&
    (s.run.status.Succeeded? ==>
       && IsCompleted(s.steps[k])
       && s.run.result.Some? && |s.run.result.value| == |s.steps|
       && s.run.result.value[k] == s.steps[k].row.value.result)
  }

  /** Only a worker that passed every step can turn the run into a success. */
  lemma OnlyCompletingSucceeds(s: State, e: Event)
    requires Step(s, e).run.status.Succeeded?
    ensures (Step(s, e).run.result == s.run.result && s.run.status.Succeeded?)
            || (e.Act? && e.w in s.workers && s.workers[e.w].pc.Completing?
                && Step(s, e).run.result == Some(s.workers[e.w].results))
  {
  }

  lemma SucceededInvStep(s: State, e: Event, k: nat)
    requires OrderInv(s) && HolderInv(s, k) && SucceededInv(s, k) && Calm(s, e, k)
    ensures SucceededInv(Step(s, e), k)
  {
    HolderInvStep(s, e, k);
    StepKeepsPolicies(s, e);
    if Step(s, e).run.status.Succeeded? {
      OnlyCompletingSucceeds(s, e);
      if e.Act? && e.w in s.workers {
        assert WorkerInOrder(s.workers[e.w], s.steps) && ResultAgrees(s.workers[e.w], s.steps[k], k);
      }
    }
  }

  lemma {:induction false} SucceededInvariant(s: State, es: seq<Event>, k: nat)
    requires OrderInv(s) && HolderInv(s, k) && SucceededInv(s, k) && CalmTrace(s, es, k)
    ensures SucceededInv(Play(s, es), k)
    decreases |es|
  {
    if es != [] {
      OrderInvStep(s, es[0]);
      HolderInvStep(s, es[0], k);
      SucceededInvStep(s, es[0], k);
      SucceededInvariant(Step(s, es[0]), es[1..], k);
    }
  }

  lemma InitialTallyInv(s: State, k: nat)
    requires Initial(s) && k < |s.steps|
    ensures s.steps[k].policy.NeedsReconciliation? ==> TallyInv(s, k)
    ensures SucceededInv(s, k) && DeadlineInv(s, k)
  {
    assert s.steps[k] == StepState(s.steps[k].policy, None, 0, 0, 0, 0, 0);
  }

  /** Everything at once, for a step that needs reconciliation. */
  lemma ReconciledInvariants(s: State, es: seq<Event>, k: nat)
    requires Initial(s) && k < |s.steps| && s.steps[k].policy.NeedsReconciliation?
    ensures OrderInv(Play(s, es)) && HolderInv(Play(s, es), k) && TallyInv(Play(s, es), k)
    ensures SucceededInv(Play(s, es), k) && |Play(s, es).steps| == |s.steps|
    ensures Play(s, es).steps[k].dirty <= DirtyRaises(es)
  {
    InitialHolderInv(s, k);
    InitialTallyInv(s, k);
    OrderInvariant(s, es);
    TallyInvariant(s, es, k);
    ReconciledStepsAreCalm(s, es, k);
    SucceededInvariant(s, es, k);
  }
}
