/**
  What every trace of the run protocol keeps about the lease: bounded attempts, fencing,
  timed mutual exclusion, absorbing outcomes, cancellation, and recovery.
 */
module LeaseSafety {
  import opened Prelude
  import opened L = Leases
  import opened P = Protocol

  // ---------------------------------------------------------------- the invariant

  /** Handles never run ahead of the row, never share an attempt, and the holder's is current. */
  ghost predicate HandlesInv(s: State) {
    && (forall w :: w in s.workers ==>
          1 <= s.workers[w].attempt <= s.run.attempt && s.workers[w].maxAttempts == s.run.maxAttempts)
    && (forall w, v :: w in s.workers && v in s.workers && w != v ==> s.workers[w].attempt != s.workers[v].attempt)
    && (s.run.status.Leased? && s.run.leasedBy.Some? ==>
          s.run.leasedBy.value in s.workers && s.workers[s.run.leasedBy.value].attempt == s.run.attempt)
  }

  ghost predicate LeaseInv(s: State) {
    ValidBackoff(s.backoff) && RowInv(s.run) && HandlesInv(s)
  }

  lemma InitialLeaseInv(s: State)
    requires Initial(s)
    ensures LeaseInv(s)
  {
  }

  ghost predicate SameHandles(s: State, t: State) {
    && s.workers.Keys == t.workers.Keys
    && forall w :: w in s.workers ==>
         t.workers[w].attempt == s.workers[w].attempt && t.workers[w].maxAttempts == s.workers[w].maxAttempts
  }

  lemma AtStepKeepsHandle(me: Worker, st: StepState, n: nat, cancelled: bool, now: Time, w: WorkerId, a: Action)
    ensures var m := AtStep(me, st, n, cancelled, now, w, a).me;
            m.attempt == me.attempt && m.maxAttempts == me.maxAttempts
  {
  }

  lemma ElsewhereKeepsHandle(me: Worker, n: nat, cancelled: bool, a: Action)
    ensures var m := Elsewhere(me, n, cancelled, a); m.attempt == me.attempt && m.maxAttempts == me.maxAttempts
  {
  }

  /** Among a worker's actions only a heartbeat and the final write reach the run row. */
  lemma PerformFrame(s: State, now: Time, w: WorkerId, a: Action)
    requires w in s.workers
    ensures var t := Perform(s, now, w, a);
            && SameHandles(s, t) && t.backoff == s.backoff && t.clock == s.clock
            && |t.steps| == |s.steps|
            && (!a.Beat? && !a.Finish? ==> t.run == s.run && t.log == s.log)
  {
    hide AtStep, Elsewhere;
    var me, n := s.workers[w], |s.steps|;
    if 0 <= Focus(me.pc) < n {
      AtStepKeepsHandle(me, s.steps[Focus(me.pc)], n, CancelSeen(s.run), now, w, a);
    } else {
      ElsewhereKeepsHandle(me, n, CancelSeen(s.run), a);
    }
  }

  lemma LeaseInvAct(s: State, now: Time, w: WorkerId, a: Action)
    requires LeaseInv(s) && w in s.workers && WellFormedAction(a)
    ensures LeaseInv(Perform(s, now, w, a))
  {
    hide AtStep, Elsewhere;
    PerformFrame(s, now, w, a);
    match a
    case Beat(_) =>
    case Finish(_) => assert RowInv(FinalRow(s, now, w, a.random));
    case _ =>
  }

  lemma LeaseInvStep(s: State, e: Event)
    requires LeaseInv(s)
    ensures LeaseInv(Step(s, e))
  {
    hide Perform;
    if e.now >= s.clock && WellFormed(e) {
      var u := s.(clock := e.now);
      match e
      case Act(now, w, a) => if w in u.workers { LeaseInvAct(u, now, w, a); }
      case Grant(_, _, _) =>
      case Cancel(_) =>
      case Reap(_, _, _) =>
    }
  }

  /** The lease invariant holds in every reachable state. */
  lemma {:induction false} LeaseInvariant(s: State, es: seq<Event>)
    requires LeaseInv(s)
    ensures LeaseInv(Play(s, es))
    decreases |es|
  {
    if es != [] {
      LeaseInvStep(s, es[0]);
      LeaseInvariant(Step(s, es[0]), es[1..]);
    }
  }

  // ---------------------------------------------------------------- fencing

  /** The handle belongs to an earlier grant than the row's current attempt. */
  predicate Superseded(s: State, w: WorkerId)
    requires w in s.workers
  {
    s.workers[w].attempt < s.run.attempt
  }

  /**
    A zombie: after its run was granted again, nothing a worker does reaches the run row,
    and heartbeat, complete, fail and acknowledge all match no row (so return False).
   */
  lemma SupersededHandleIsFenced(s: State, now: Time, w: WorkerId, a: Action)
    requires LeaseInv(s) && w in s.workers && Superseded(s, w)
    ensures Step(s, Act(now, w, a)).run == s.run
    ensures !HeartbeatMatches(s.run, w) && !CompleteMatches(s.run, w)
    ensures !Held(s.run, w) && !AcknowledgeMatches(s.run, w)
  {
  }

  /** Being superseded is for ever: no trace makes an old handle current again. */
  lemma {:induction false} SupersededForever(s: State, es: seq<Event>, w: WorkerId)
    requires LeaseInv(s) && w in s.workers && Superseded(s, w)
    ensures w in Play(s, es).workers
    ensures Play(s, es).workers[w].attempt == s.workers[w].attempt ==> Superseded(Play(s, es), w)
    decreases |es|
  {
    AttemptsOnlyGrow(s, es);
    HandleKept(s, es, w);
  }

  lemma {:induction false} AttemptsOnlyGrow(s: State, es: seq<Event>)
    ensures s.run.attempt <= Play(s, es).run.attempt
    decreases |es|
  {
    if es != [] {
      AttemptsOnlyGrow(Step(s, es[0]), es[1..]);
    }
  }

  lemma {:induction false} HandleKept(s: State, es: seq<Event>, w: WorkerId)
    requires w in s.workers
    ensures w in Play(s, es).workers
    decreases |es|
  {
    if es != [] {
      HandleKept(Step(s, es[0]), es[1..], w);
    }
  }

  // ---------------------------------------------------------------- timed mutual exclusion

  /** The lock the lease is meant to be: one holder, taken back only after its deadline. */
  datatype Lock = Free | HeldBy(worker: WorkerId, deadline: Time) | Broken

  function LockStep(l: Lock, e: LeaseEntry): Lock {
    match e
    case Granted(w, at, deadline) => if l.Free? then HeldBy(w, deadline) else Broken
    case Extended(w, at, deadline) => if l.HeldBy? && l.worker == w then HeldBy(w, deadline) else Broken
    case Released(w, at, _) => if l.HeldBy? && l.worker == w then Free else Broken
    case Reaped(w, at, _) => if l.HeldBy? && l.worker == w && at > l.deadline then Free else Broken
  }

  function LockAfter(log: seq<LeaseEntry>): Lock {
    if log == [] then Free else LockStep(LockAfter(log[..|log| - 1]), log[|log| - 1])
  }

  function CountGrants(log: seq<LeaseEntry>): nat {
    if log == [] then 0 else CountGrants(log[..|log| - 1]) + (if log[|log| - 1].Granted? then 1 else 0)
  }

  /** The lock the row itself describes. */
  function LockOf(r: Run): Lock {
    if r.status.Leased? && r.leasedBy.Some? && r.leaseExpiresAt.Some?
    then HeldBy(r.leasedBy.value, r.leaseExpiresAt.value)
    else Free
  }

  predicate Closes(e: LeaseEntry) { e.Released? || e.Reaped? }

  ghost predicate Chronological(log: seq<LeaseEntry>, clock: Time) {
    && (forall i :: 0 <= i < |log| ==> log[i].at <= clock)
    && (forall i, j :: 0 <= i < j < |log| ==> log[i].at <= log[j].at)
  }

  /**
    A row nobody holds is as the log left it, except that the cancel route may have ended a
    pending one.
   */
  predicate LeftAs(r: Run, log: seq<LeaseEntry>) {
    if log == [] then r.status.Pending? || r.status.Cancelled?
    else
      var last := log[|log| - 1];
      Closes(last) && (last.outcome == r.status || (last.outcome.Pending? && r.status.Cancelled?))
  }

  /** The log is a run of the lock, ends where the row is, and names the row's outcome. */
  ghost predicate LogMatches(r: Run, log: seq<LeaseEntry>, clock: Time) {
    && LockAfter(log) == LockOf(r)
    && CountGrants(log) == r.attempt
    && Chronological(log, clock)
    && (!r.status.Leased? ==> LeftAs(r, log))
  }

  ghost predicate LogInv(s: State) {
    LogMatches(s.run, s.log, s.clock)
  }

  lemma LogGrows(r: Run, t: Run, log: seq<LeaseEntry>, before: Time, e: LeaseEntry)
    requires LogMatches(r, log, before) && before <= e.at
    requires LockStep(LockOf(r), e) == LockOf(t)
    requires t.attempt == r.attempt + (if e.Granted? then 1 else 0)
    requires !t.status.Leased? ==> Closes(e) && e.outcome == t.status
    ensures LogMatches(t, log + [e], e.at)
  {
    assert (log + [e])[..|log|] == log;
  }

  lemma LogInvFinish(s: State, before: Time, w: WorkerId, random: real)
    requires LeaseInv(s) && LogMatches(s.run, s.log, before) && before <= s.clock && w in s.workers
    ensures LogInv(DoFinish(s, s.clock, w, random))
  {
    var row := FinalRow(s, s.clock, w, random);
    if Ending(s.workers[w].pc) && s.run.status.Leased? && !row.status.Leased? {
      LogGrows(s.run, row, s.log, before, Released(w, s.clock, row.status));
    }
  }

  lemma LogInvAct(s: State, before: Time, w: WorkerId, a: Action)
    requires LeaseInv(s) && LogMatches(s.run, s.log, before) && before <= s.clock && w in s.workers
    ensures LogInv(Perform(s, s.clock, w, a))
  {
    hide AtStep, Elsewhere, DoFinish;
    PerformFrame(s, s.clock, w, a);
    match a
    case Beat(extend) =>
      if HeartbeatMatches(s.run, w) {
        LogGrows(s.run, HeartbeatRow(s.run, w, s.clock, extend), s.log, before, Extended(w, s.clock, s.clock + extend));
      }
    case Finish(random) => LogInvFinish(s, before, w, random);
    case _ =>
  }

  lemma LogInvStep(s: State, e: Event)
    requires LeaseInv(s) && LogInv(s)
    ensures LogInv(Step(s, e))
  {
    hide Perform, LockAfter, CountGrants;
    if e.now >= s.clock && WellFormed(e) {
      var u := s.(clock := e.now);
      match e
      case Act(now, w, a) => if w in u.workers { LogInvAct(u, s.clock, w, a); }
      case Grant(now, w, lease) =>
        if Leasable(u.run, now) {
          LogGrows(u.run, GrantRow(u.run, w, now, lease), u.log, s.clock, Granted(w, now, now + lease));
        }
      case Cancel(_) =>
      case Reap(now, grace, random) =>
        if Reapable(u.run, now, grace) {
          var row := DoReap(u, now, grace, random).run;
          LogGrows(u.run, row, u.log, s.clock, Reaped(u.run.leasedBy.value, now, row.status));
        }
    }
  }

  lemma {:induction false} LogInvariant(s: State, es: seq<Event>)
    requires LeaseInv(s) && LogInv(s)
    ensures LogInv(Play(s, es))
    decreases |es|
  {
    if es != [] {
      LeaseInvStep(s, es[0]);
      LogInvStep(s, es[0]);
      LogInvariant(Step(s, es[0]), es[1..]);
    }
  }

  lemma {:induction false} LockPrefix(log: seq<LeaseEntry>, i: nat)
    requires i <= |log| && !LockAfter(log).Broken?
    ensures !LockAfter(log[..i]).Broken?
    decreases |log|
  {
    if i < |log| {
      assert log[..|log| - 1][..i] == log[..i];
      LockPrefix(log[..|log| - 1], i);
    } else {
      assert log[..i] == log;
    }
  }

  /** `log[k]` ends the grant at `i`: the holder let go, or its latest deadline had passed. */
  ghost predicate EndsGrant(log: seq<LeaseEntry>, i: int, k: int)
    requires 0 <= i < k < |log|
  {
    && log[k].worker == log[i].worker
    && (forall m :: i < m < k ==> log[m].Extended? && log[m].worker == log[i].worker)
    && (log[k].Released?
        || (log[k].Reaped? && !Closes(log[k - 1]) && log[k].at > log[k - 1].deadline))
  }

  /** Scanning forward from a grant: still held by the same worker, or ended in between. */
  lemma {:induction false} GrantHeldOrEnded(log: seq<LeaseEntry>, i: nat, j: nat)
    requires i < j <= |log| && log[i].Granted? && !LockAfter(log).Broken?
    ensures (exists k :: i < k < j && EndsGrant(log, i, k))
            || (&& LockAfter(log[..j]).HeldBy? && LockAfter(log[..j]).worker == log[i].worker
                && !Closes(log[j - 1]) && LockAfter(log[..j]).deadline == log[j - 1].deadline
                && forall m :: i < m < j ==> log[m].Extended? && log[m].worker == log[i].worker)
    decreases j
  {
    LockPrefix(log, j);
    assert log[..j][..j - 1] == log[..j - 1];
    if j > i + 1 {
      GrantHeldOrEnded(log, i, j - 1);
      if !(exists k :: i < k < j - 1 && EndsGrant(log, i, k)) {
        if Closes(log[j - 1]) {
          assert EndsGrant(log, i, j - 1);
        }
      }
    }
  }

  /**
    Timed mutual exclusion over every run: between two grants the first holder released the
    lease itself, or the reaper took it strictly after the last deadline that holder was given.
   */
  lemma MutualExclusion(s: State, es: seq<Event>, i: nat, j: nat)
    requires Initial(s)
    requires var log := Play(s, es).log; i < j < |log| && log[i].Granted? && log[j].Granted?
    ensures var log := Play(s, es).log; exists k :: i < k < j && EndsGrant(log, i, k)
  {
    LogInvariant(s, es);
    var log := Play(s, es).log;
    GrantHeldOrEnded(log, i, j);
    LockPrefix(log, j + 1);
    assert log[..j + 1][..j] == log[..j];
  }

  predicate LastGrant(log: seq<LeaseEntry>, i: nat)
    requires i < |log|
  {
    log[i].Granted? && forall m :: i < m < |log| ==> !log[m].Granted?
  }

  /**
    The outcome belongs to the latest grant: a finished run was closed, with that outcome, by
    the worker of the last grant in the log or by the reaper acting on that worker's lease. The
    one exception is a run cancelled while it was pending again, after that grant was closed.
    A run that was never granted can only have been cancelled.
   */
  lemma OutcomeIsTheLatestGrants(s: State, es: seq<Event>)
    requires Initial(s) && Terminal(Play(s, es).run.status)
    ensures Play(s, es).log == [] ==> Play(s, es).run.status.Cancelled?
    ensures var t := Play(s, es); forall i :: 0 <= i < |t.log| && LastGrant(t.log, i) ==>
              var last := t.log[|t.log| - 1];
              && Closes(last) && last.worker == t.log[i].worker
              && (last.outcome == t.run.status || (last.outcome.Pending? && t.run.status.Cancelled?))
  {
    LogInvariant(s, es);
    var log := Play(s, es).log;
    forall i | 0 <= i < |log| && LastGrant(log, i) ensures log[|log| - 1].worker == log[i].worker {
      GrantHeldOrEnded(log, i, |log|);
      assert log[..|log|] == log;
      var k :| i < k < |log| && EndsGrant(log, i, k);
      if k + 1 < |log| {
        ClosedThenGranted(log, k);
      }
    }
  }

  /** After a lease is closed the only thing the log can record next is a grant. */
  lemma ClosedThenGranted(log: seq<LeaseEntry>, k: nat)
    requires k + 1 < |log| && Closes(log[k]) && !LockAfter(log).Broken?
    ensures log[k + 1].Granted?
  {
    LockPrefix(log, k + 2);
    LockPrefix(log, k + 1);
    assert log[..k + 2][..k + 1] == log[..k + 1];
    assert log[..k + 1][..k] == log[..k];
  }

  // ---------------------------------------------------------------- attempts and outcomes

  /** At most max_attempts grants in any trace, and the row's counter is exactly their number. */
  lemma GrantsAreBounded(s: State, es: seq<Event>)
    requires Initial(s)
    ensures CountGrants(Play(s, es).log) == Play(s, es).run.attempt <= s.run.maxAttempts
    ensures Play(s, es).run.status.Pending? ==> CountGrants(Play(s, es).log) < s.run.maxAttempts
  {
    LeaseInvariant(s, es);
    LogInvariant(s, es);
    MaxAttemptsFixed(s, es);
  }

  lemma {:induction false} MaxAttemptsFixed(s: State, es: seq<Event>)
    ensures Play(s, es).run.maxAttempts == s.run.maxAttempts
    decreases |es|
  {
    if es != [] {
      var e := es[0];
      if e.now >= s.clock && e.Act? && e.w in s.workers {
        PerformFrame(s.(clock := e.now), e.now, e.w, e.action);
      }
      MaxAttemptsFixed(Step(s, e), es[1..]);
    }
  }

  lemma TerminalStep(s: State, e: Event)
    requires LeaseInv(s) && Terminal(s.run.status)
    ensures Step(s, e).run == s.run
  {
    if e.now >= s.clock && e.Act? && e.w in s.workers {
      PerformFrame(s.(clock := e.now), e.now, e.w, e.action);
    }
  }

  /** A terminal row is never written again, whatever zombies, reapers and cancels do. */
  lemma {:induction false} TerminalIsAbsorbing(s: State, es: seq<Event>)
    requires LeaseInv(s) && Terminal(s.run.status)
    ensures Play(s, es).run == s.run
    decreases |es|
  {
    if es != [] {
      TerminalStep(s, es[0]);
      LeaseInvStep(s, es[0]);
      TerminalIsAbsorbing(Step(s, es[0]), es[1..]);
    }
  }

  /** Either nothing that matters changed, or the rank dropped. */
  lemma RankStep(s: State, e: Event)
    requires LeaseInv(s)
    ensures LeaseInv(Step(s, e))
    ensures var t := Step(s, e);
            || (t.run.status == s.run.status && t.run.attempt == s.run.attempt)
            || Rank(t.run) < Rank(s.run)
  {
    LeaseInvStep(s, e);
    if e.now >= s.clock && e.Act? && e.w in s.workers {
      PerformFrame(s.(clock := e.now), e.now, e.w, e.action);
    }
  }

  function StatusChanges(s: State, es: seq<Event>): nat
    decreases |es|
  {
    if es == [] then 0
    else
      var t := Step(s, es[0]);
      (if t.run.status == s.run.status && t.run.attempt == s.run.attempt then 0 else 1) + StatusChanges(t, es[1..])
  }

  /** The lexicographic measure: a run changes status at most 2 * max_attempts + 1 times. */
  lemma {:induction false} StatusChangesAreBounded(s: State, es: seq<Event>)
    requires LeaseInv(s)
    ensures LeaseInv(Play(s, es))
    ensures StatusChanges(s, es) + Rank(Play(s, es).run) <= Rank(s.run)
    decreases |es|
  {
    if es != [] {
      RankStep(s, es[0]);
      StatusChangesAreBounded(Step(s, es[0]), es[1..]);
    }
  }

  /** An unused worker id: grants are made to fresh processes. */
  ghost function FreshWorker(ws: set<WorkerId>): (w: WorkerId)
    ensures w !in ws
    ensures forall v :: v in ws ==> v < w
  {
    if ws == {} then 0
    else
      var v :| v in ws;
      var w := FreshWorker(ws - {v});
      assert forall u :: u in ws ==> u == v || u in ws - {v};
      if w <= v then v + 1 else w
  }

  /** What the platform can do to a run with no help from any worker. */
  ghost function Recover(s: State): Event {
    if s.run.status.Leased? && s.run.leaseExpiresAt.Some? then
      Reap(Max(s.clock, s.run.leaseExpiresAt.value + 1.0), 0.0, 0.0)
    else
      Grant(Max(s.clock, s.run.availableAt), FreshWorker(s.workers.Keys), 60.0)
  }

  lemma RecoverMakesProgress(s: State)
    requires LeaseInv(s) && !Terminal(s.run.status)
    ensures LeaseInv(Step(s, Recover(s))) && Rank(Step(s, Recover(s)).run) < Rank(s.run)
  {
    LeaseInvStep(s, Recover(s));
  }

  /**
    No stuck state: from every reachable state the reaper and fresh grants alone bring the
    run to a terminal status, even if every worker that ever held it is dead.
   */
  lemma {:induction false} AlwaysRecoverable(s: State) returns (es: seq<Event>)
    requires LeaseInv(s)
    ensures Terminal(Play(s, es).run.status)
    ensures forall i :: 0 <= i < |es| ==> es[i].Reap? || es[i].Grant?
    ensures |es| <= Rank(s.run)
    decreases Rank(s.run)
  {
    if Terminal(s.run.status) {
      es := [];
    } else {
      RecoverMakesProgress(s);
      var rest := AlwaysRecoverable(Step(s, Recover(s)));
      es := [Recover(s)] + rest;
    }
  }

  // ---------------------------------------------------------------- cancellation

  lemma CancelStep(s: State, e: Event)
    requires LeaseInv(s) && s.run.status.Leased? && s.run.cancelRequestedAt.Some?
    ensures Step(s, e).run == s.run || Step(s, e).run.status.Cancelled?
  {
    if e.now >= s.clock && e.Act? && e.w in s.workers {
      PerformFrame(s.(clock := e.now), e.now, e.w, e.action);
    }
  }

  /**
    Cancellation wins: once requested on a leased run, no trace extends the deadline,
    completes the run or returns it to pending. The row stays exactly as it is until it
    becomes cancelled, and the first reap past the deadline makes sure that it does.
   */
  lemma {:induction false} CancellationWins(s: State, es: seq<Event>)
    requires LeaseInv(s) && s.run.status.Leased? && s.run.cancelRequestedAt.Some?
    ensures Play(s, es).run == s.run || Play(s, es).run.status.Cancelled?
    ensures forall now, grace, random ::
              WellFormed(Reap(now, grace, random)) && now >= Play(s, es).clock
              && now - grace > s.run.leaseExpiresAt.value
              ==> Step(Play(s, es), Reap(now, grace, random)).run.status.Cancelled?
    decreases |es|
  {
    if es != [] {
      CancelStep(s, es[0]);
      LeaseInvStep(s, es[0]);
      var t := Step(s, es[0]);
      if t.run == s.run {
        CancellationWins(t, es[1..]);
      } else {
        TerminalIsAbsorbing(t, es[1..]);
      }
    }
  }
}
