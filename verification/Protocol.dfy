/**
  One durable run executed by many workers, as a state machine.

  Every database transaction of apps/worker/runner.py, leases.py and side_effects.py is
  one event, and so is every start, landing and failure of an effect body. Workers may
  crash between any two events, stall for any time and wake up as zombies; the reaper
  and the cancel route interleave freely. A trace is any sequence of events: one that
  is not enabled, or whose clock runs backwards, changes nothing.
 */
module Protocol {
  import opened Prelude
  import opened L = Leases
  import E = SideEffects

  /** Why a worker is unwinding. */
  datatype Fault =
    | Transient(retryAfter: Option<real>)
    | Reconciliation
    | RunCancelled
    | Other

  /** Where a worker stands in _execute_leased_body and perform_once. */
  datatype Pc =
    | Polling                        // the first cancellation_point (runner.py:257)
    | Entering(k: nat)               // perform_once's first check (side_effects.py:157)
    | Claiming(k: nat)               // the claim transaction (side_effects.py:161)
    | Guarding(k: nat)               // claimed; the check before the body (side_effects.py:246)
    | Effecting(k: nat)              // the body is running
    | Landed(k: nat, value: Value)   // the body returned, nothing recorded yet
    | Recording(k: nat, why: Fault)  // the body raised; the failure UPDATE is next
    | Closing                        // the second cancellation_point (runner.py:261)
    | Checking                       // raise_if_lost (runner.py:262)
    | Completing                     // leases.complete is next
    | Unwinding(why: Fault)          // leases.fail is next
    | Acknowledging                  // leases.acknowledge_cancellation is next
    | Stopped                        // returned, or dead

  datatype Worker = Worker(
    attempt: nat,          // the attempt recorded in its handle
    maxAttempts: nat,
    pc: Pc,
    results: Results,      // what its perform_once calls returned so far
    claimDeadline: Time,   // expiry of the step claim it last won
    lost: bool)            // the heartbeater saw the lease gone

  /** One (run, step) row, and what has really happened at that step. */
  datatype StepState = StepState(
    policy: E.RetryPolicy,
    row: Option<E.Effect>,
    starts: nat,           // times a body began
    failures: nat,         // failure UPDATEs recorded
    completions: nat,      // completing UPDATEs recorded
    applied: nat,          // times the outside world saw the effect
    dirty: nat)            // of those, times the body raised after taking effect

  /** The lease history of the run. */
  datatype LeaseEntry =
    | Granted(worker: WorkerId, at: Time, deadline: Time)
    | Extended(worker: WorkerId, at: Time, deadline: Time)
    | Released(worker: WorkerId, at: Time, outcome: Status)
    | Reaped(worker: WorkerId, at: Time, outcome: Status)

  datatype State = State(
    clock: Time,
    backoff: Backoff,
    run: Run,
    steps: seq<StepState>,
    workers: map<WorkerId, Worker>,
    log: seq<LeaseEntry>)

  /** What a worker that holds a handle can do next. */
  datatype Action =
    | Beat(extend: Time)
    | Poll
    | Claim(ttl: Time)
    | Land(value: Value)
    | Raise(why: Fault, took: bool)
    | Record
    | Store
    | Check
    | Finish(random: real)
    | DbError
    | Crash

  datatype Event =
    | Grant(now: Time, w: WorkerId, lease: Time)
    | Act(now: Time, w: WorkerId, action: Action)
    | Cancel(now: Time)
    | Reap(now: Time, grace: Time, random: real)

  predicate WellFormedAction(a: Action) {
    match a
    case Beat(extend) => 0.0 <= extend
    case Claim(ttl) => 0.0 <= ttl
    case Raise(why, _) => why.Transient? && why.retryAfter.Some? ==> 0.0 <= why.retryAfter.value
    case Finish(random) => 0.0 <= random <= 1.0
    case _ => true
  }

  predicate WellFormed(e: Event) {
    match e
    case Grant(_, _, lease) => 0.0 <= lease
    case Act(_, _, a) => WellFormedAction(a)
    case Reap(_, grace, random) => 0.0 <= grace && 0.0 <= random <= 1.0
    case Cancel(_) => true
  }

  /** cancellation_point's condition. */
  predicate CancelSeen(r: Run) { r.status.Cancelled? || r.cancelRequestedAt.Some? }

  /** The heartbeat thread lives as long as the with-block. */
  predicate Beating(pc: Pc) { !pc.Stopped? && !pc.Completing? }

  /** The step a position is about, or -1. */
  function Focus(pc: Pc): int {
    match pc
    case Entering(k) => k
    case Claiming(k) => k
    case Guarding(k) => k
    case Effecting(k) => k
    case Landed(k, _) => k
    case Recording(k, _) => k
    case _ => -1
  }

  function NextPc(n: nat, k: nat): Pc { if k < n then Entering(k) else Closing }

  function Unwound(why: Fault): Pc { if why.RunCancelled? then Acknowledging else Unwinding(why) }

  /** perform_once returned `result`: the handler moves on to the next of its n steps. */
  function Returned(me: Worker, n: nat, k: nat, result: Option<Value>): Worker {
    me.(results := me.results + [result], pc := NextPc(n, k + 1))
  }

  // ---------------------------------------------------------------- between the steps

  /** Actions of a worker that is not inside any perform_once call. */
  function Elsewhere(me: Worker, n: nat, cancelled: bool, a: Action): Worker {
    match a
    case Poll =>
      if me.pc.Polling? then me.(pc := if cancelled then Acknowledging else NextPc(n, 0))
      else if me.pc.Closing? then me.(pc := if cancelled then Acknowledging else Checking)
      else me
    case Check =>
      if me.pc.Checking? then me.(pc := if me.lost then Unwinding(Transient(None)) else Completing) else me
    case DbError =>
      if me.pc.Polling? || me.pc.Closing? then me.(pc := Unwinding(Other))
      else if Ending(me.pc) then me.(pc := Stopped)
      else me
    case Crash => me.(pc := Stopped)
    case _ => me
  }

  predicate Ending(pc: Pc) { pc.Completing? || pc.Unwinding? || pc.Acknowledging? }

  // ---------------------------------------------------------------- inside perform_once

  datatype Local = Local(me: Worker, st: StepState)

  /** A cancellation_point; past the second one the body starts. */
  function PollStep(me: Worker, st: StepState, cancelled: bool): Local {
    match me.pc
    case Entering(k) => Local(me.(pc := if cancelled then Acknowledging else Claiming(k)), st)
    case Guarding(k) =>
      if cancelled then Local(me.(pc := Recording(k, RunCancelled)), st)
      else Local(me.(pc := Effecting(k)), st.(starts := st.starts + 1))
    case _ => Local(me, st)
  }

  function ClaimStep(me: Worker, st: StepState, n: nat, now: Time, w: WorkerId, ttl: Time): Local {
    match me.pc
    case Claiming(k) =>
      (match E.ClaimStep(st.row, w, st.policy, now, ttl)
       case Won(row) => Local(me.(pc := Guarding(k), claimDeadline := now + ttl), st.(row := Some(row)))
       case Replay(result, _) => Local(Returned(me, n, k, result), st)
       case Busy => Local(me.(pc := Unwinding(Other)), st)
       case Reconcile(_) => Local(me.(pc := Unwinding(Reconciliation)), st))
    case _ => Local(me, st)
  }

  function LandStep(me: Worker, st: StepState, value: Value): Local {
    match me.pc
    case Effecting(k) => Local(me.(pc := Landed(k, value)), st.(applied := st.applied + 1))
    case _ => Local(me, st)
  }

  /** The body raised; `took` says whether the outside world saw the effect all the same. */
  function RaiseStep(me: Worker, st: StepState, why: Fault, took: bool): Local {
    match me.pc
    case Effecting(k) =>
      var hit := if took then 1 else 0;
      Local(me.(pc := Recording(k, why)), st.(applied := st.applied + hit, dirty := st.dirty + hit))
    case _ => Local(me, st)
  }

  function RecordStep(me: Worker, st: StepState): Local {
    match me.pc
    case Recording(_, why) =>
      Local(me.(pc := Unwound(why)), st.(row := E.FailedRow(st.row), failures := st.failures + 1))
    case _ => Local(me, st)
  }

  function StoreStep(me: Worker, st: StepState, n: nat): Local {
    match me.pc
    case Landed(k, value) =>
      Local(Returned(me, n, k, Some(value)),
            st.(row := E.CompletedRow(st.row, value), completions := st.completions + 1))
    case _ => Local(me, st)
  }

  /** A statement raised: the exception surfaces wherever the code would catch it. */
  function DbErrorStep(me: Worker): Worker {
    match me.pc
    case Effecting(_) => me
    case Guarding(k) => me.(pc := Recording(k, Other))
    case _ => me.(pc := Unwinding(Other))
  }

  /** Actions of a worker inside perform_once: they see and write one row only. */
  function AtStep(me: Worker, st: StepState, n: nat, cancelled: bool, now: Time, w: WorkerId, a: Action): Local {
    match a
    case Poll => PollStep(me, st, cancelled)
    case Claim(ttl) => ClaimStep(me, st, n, now, w, ttl)
    case Land(value) => LandStep(me, st, value)
    case Raise(why, took) => RaiseStep(me, st, why, took)
    case Record => RecordStep(me, st)
    case Store => StoreStep(me, st, n)
    case DbError => Local(DbErrorStep(me), st)
    case Crash => Local(me.(pc := Stopped), st)
    case _ => Local(me, st)
  }

  // ---------------------------------------------------------------- the run row

  function DoGrant(s: State, now: Time, w: WorkerId, lease: Time): State {
    if Leasable(s.run, now) && (w in s.workers ==> s.workers[w].pc.Stopped?) then
      s.(run := GrantRow(s.run, w, now, lease),
         workers := s.workers[w := Worker(s.run.attempt + 1, s.run.maxAttempts, Polling, [], now, false)],
         log := s.log + [Granted(w, now, now + lease)])
    else s
  }

  function DoBeat(s: State, now: Time, w: WorkerId, extend: Time): State
    requires w in s.workers
  {
    if !Beating(s.workers[w].pc) || s.workers[w].lost then s
    else if HeartbeatMatches(s.run, w) then
      s.(run := HeartbeatRow(s.run, w, now, extend), log := s.log + [Extended(w, now, now + extend)])
    else
      s.(workers := s.workers[w := s.workers[w].(lost := true)])
  }

  /** The fenced write that ends an execution, and the row it leaves. */
  function FinalRow(s: State, now: Time, w: WorkerId, random: real): Run
    requires w in s.workers
  {
    var me := s.workers[w];
    match me.pc
    case Completing => CompleteRow(s.run, w, now, me.results)
    case Unwinding(why) =>
      var hint := if why.Transient? then why.retryAfter else None;
      FailRow(s.run, w, now, TerminalFailure(me.attempt, me.maxAttempts, why.Transient?),
              RetryDelay(s.backoff, me.attempt, hint, random))
    case Acknowledging => AcknowledgeRow(s.run, w, now)
    case _ => s.run
  }

  function DoFinish(s: State, now: Time, w: WorkerId, random: real): State
    requires w in s.workers
  {
    if !Ending(s.workers[w].pc) then s
    else
      var row := FinalRow(s, now, w, random);
      s.(run := row, workers := s.workers[w := s.workers[w].(pc := Stopped)],
         log := if s.run.status.Leased? && !row.status.Leased?
                then s.log + [Released(w, now, row.status)] else s.log)
  }

  function ReleaseClaims(steps: seq<StepState>): (r: seq<StepState>)
    ensures |r| == |steps|
    ensures forall k :: 0 <= k < |steps| ==> r[k] == steps[k].(row := E.ReleasedRow(steps[k].row))
  {
    seq(|steps|, k requires 0 <= k < |steps| => steps[k].(row := E.ReleasedRow(steps[k].row)))
  }

  function DoReap(s: State, now: Time, grace: Time, random: real): State {
    if Reapable(s.run, now, grace) then
      var row := ReapRow(s.run, now, grace, ReapDelay(s.backoff, s.run.attempt, random));
      s.(run := row, steps := ReleaseClaims(s.steps),
         log := if s.run.leasedBy.Some? then s.log + [Reaped(s.run.leasedBy.value, now, row.status)] else s.log)
    else s
  }

  function Perform(s: State, now: Time, w: WorkerId, a: Action): State
    requires w in s.workers
  {
    var me, n := s.workers[w], |s.steps|;
    match a
    case Beat(extend) => DoBeat(s, now, w, extend)
    case Finish(random) => DoFinish(s, now, w, random)
    case _ =>
      if 0 <= Focus(me.pc) < n then
        var l := AtStep(me, s.steps[Focus(me.pc)], n, CancelSeen(s.run), now, w, a);
        s.(workers := s.workers[w := l.me], steps := s.steps[Focus(me.pc) := l.st])
      else
        s.(workers := s.workers[w := Elsewhere(me, n, CancelSeen(s.run), a)])
  }

  function Apply(s: State, e: Event): State {
    match e
    case Grant(now, w, lease) => DoGrant(s, now, w, lease)
    case Act(now, w, a) => if w in s.workers then Perform(s, now, w, a) else s
    case Cancel(now) => s.(run := CancelRow(s.run, now))
    case Reap(now, grace, random) => DoReap(s, now, grace, random)
  }

  /** One atomic step. */
  function Step(s: State, e: Event): State {
    if e.now < s.clock || !WellFormed(e) then s else Apply(s.(clock := e.now), e)
  }

  /** A whole trace. */
  function Play(s: State, es: seq<Event>): State
    decreases |es|
  {
    if es == [] then s else Play(Step(s, es[0]), es[1..])
  }

  lemma {:induction false} PlayConcat(s: State, es: seq<Event>, fs: seq<Event>)
    ensures Play(s, es + fs) == Play(Play(s, es), fs)
    decreases |es|
  {
    if es == [] {
      assert es + fs == fs;
    } else {
      assert (es + fs)[1..] == es[1..] + fs;
      PlayConcat(Step(s, es[0]), es[1..], fs);
    }
  }

  lemma PlayNothing(s: State)
    ensures Play(s, []) == s
  {
  }

  lemma PlayOneMore(s: State, es: seq<Event>, e: Event)
    ensures Play(s, es + [e]) == Step(Play(s, es), e)
  {
    PlayConcat(s, es, [e]);
    assert [e][1..] == [];
  }

  lemma StepKeepsPolicies(s: State, e: Event)
    ensures |Step(s, e).steps| == |s.steps|
    ensures forall k :: 0 <= k < |s.steps| ==> Step(s, e).steps[k].policy == s.steps[k].policy
  {
  }

  lemma {:induction false} PlayKeepsPolicies(s: State, es: seq<Event>)
    ensures |Play(s, es).steps| == |s.steps|
    ensures forall k :: 0 <= k < |s.steps| ==> Play(s, es).steps[k].policy == s.steps[k].policy
    decreases |es|
  {
    if es != [] {
      StepKeepsPolicies(s, es[0]);
      PlayKeepsPolicies(Step(s, es[0]), es[1..]);
    }
  }

  /** A run nobody has leased yet, with untouched steps. */
  predicate Initial(s: State) {
    && ValidBackoff(s.backoff) && L.Fresh(s.run)
    && s.workers == map[] && s.log == []
    && forall k :: 0 <= k < |s.steps| ==> s.steps[k] == StepState(s.steps[k].policy, None, 0, 0, 0, 0, 0)
  }
}
