/**
  Admission, relay and sweep (platform_core/correctness/outbox.py, apps/worker/tasks.py): the
  path on which no admitted run is forgotten.

  The runs of all tenants share one table with the outbox. Each run carries the protocol of
  its execution, so everything workers and the reaper may do happens in between.
 */
module Delivery {
  import opened Prelude
  import L = Leases
  import P = Protocol
  import S = LeaseSafety
  import O = Outbox
  import W = Sweeping

  type Key = Option<string>

  /**
    A run with its idempotency key. `lastSent` is history: when the newest pointer to the run
    was handed to the broker, by the relay or the sweep.
   */
  datatype Entry = Entry(model: P.State, key: Key, lastSent: Option<Time>) {
    function Row(): L.Run { model.run }
  }

  /** Run ids are places in the table. */
  datatype Tables = Tables(clock: Time, runs: seq<Entry>, outbox: seq<O.Row>)

  datatype Event =
    | Enqueue(now: Time, key: Key, run: P.State)
    | Execute(id: RunId, e: P.Event)
    | Relay(now: Time, row: nat, sent: bool, committed: bool)
    | Send(now: Time, id: RunId)
    | Mark(now: Time, id: RunId)

  function At(e: Event): Time {
    match e
    case Execute(_, pe) => pe.now
    case Enqueue(now, _, _) => now
    case Relay(now, _, _, _) => now
    case Send(now, _) => now
    case Mark(now, _) => now
  }

  // ---------------------------------------------------------------- the transactions

  /** The row UNIQUE (tenant_id, idempotency_key) conflicts with, or -1; NULL conflicts with nothing. */
  function Existing(runs: seq<Entry>, tenant: TenantId, key: Key): (i: int)
    ensures -1 <= i < |runs|
    ensures i >= 0 ==> runs[i].Row().tenant == tenant && runs[i].key == key && key.Some?
    ensures i < 0 && key.Some? ==> forall j :: 0 <= j < |runs| ==> runs[j].Row().tenant != tenant || runs[j].key != key
  {
    if key.None? || runs == [] then -1
    else
      var n := |runs| - 1;
      if runs[n].Row().tenant == tenant && runs[n].key == key then n else Existing(runs[..n], tenant, key)
  }

  /** enqueue_run: the run and its outbox row in one transaction, or the run that has the key already. */
  function DoEnqueue(s: Tables, key: Key, run: P.State): Tables {
    if Existing(s.runs, run.run.tenant, key) >= 0 || !P.Initial(run) || run.clock > s.clock then s
    else
      s.(runs := s.runs + [Entry(run, key, None)],
         outbox := s.outbox + [O.Row(run.run.tenant, |s.runs|, None, 0)])
  }

  /** UPDATE run SET last_enqueued_at = now() */
  function Marked(e: Entry, now: Time): Entry {
    e.(model := e.model.(run := e.model.run.(lastEnqueuedAt := Some(now))))
  }

  function SentAt(e: Entry, now: Time): Entry { e.(lastSent := Some(now)) }

  /** One row of a drain: published and marked, failed and counted, or published and then lost with its transaction. */
  function DoRelay(s: Tables, now: Time, i: nat, sent: bool, committed: bool): Tables {
    if !O.Pending(s.outbox, i) || s.outbox[i].run >= |s.runs| then s
    else
      var r, row := s.outbox[i].run, s.outbox[i];
      if !sent then
        if committed then s.(outbox := s.outbox[i := row.(attempts := row.attempts + 1)]) else s
      else if !committed then s.(runs := s.runs[r := SentAt(s.runs[r], now)])
      else
        s.(runs := s.runs[r := Marked(SentAt(s.runs[r], now), now)],
           outbox := s.outbox[i := row.(publishedAt := Some(now))])
  }

  function Apply(s: Tables, e: Event): Tables {
    match e
    case Enqueue(_, key, run) => DoEnqueue(s, key, run)
    case Execute(r, pe) => if r < |s.runs| then s.(runs := s.runs[r := s.runs[r].(model := P.Step(s.runs[r].model, pe))]) else s
    case Relay(now, i, sent, committed) => DoRelay(s, now, i, sent, committed)
    case Send(now, r) => if r < |s.runs| then s.(runs := s.runs[r := SentAt(s.runs[r], now)]) else s
    case Mark(now, r) => if r < |s.runs| then s.(runs := s.runs[r := Marked(s.runs[r], now)]) else s
  }

  function Step(s: Tables, e: Event): Tables {
    if At(e) < s.clock then s else Apply(s.(clock := At(e)), e)
  }

  function Play(s: Tables, es: seq<Event>): Tables
    decreases |es|
  {
    if es == [] then s else Play(Step(s, es[0]), es[1..])
  }

  /** The run table as the sweep's query reads it. */
  function Rows(s: Tables): (rows: seq<L.Run>)
    ensures |rows| == |s.runs| && forall i :: 0 <= i < |rows| ==> rows[i] == s.runs[i].Row()
  {
    seq(|s.runs|, i requires 0 <= i < |s.runs| => s.runs[i].Row())
  }

  // ---------------------------------------------------------------- what execution does to the columns delivery reads

  lemma RetryDelayIsPositive(b: L.Backoff, attempt: nat, hint: Option<real>, random: real)
    requires L.ValidBackoff(b) && 0.0 <= random <= 1.0
    ensures L.RetryDelay(b, attempt, hint, random) > 0.0
  {
    L.ExponentialAtLeastBase(b, attempt);
    var floor := if hint.Some? then hint.value else 0.0;
    var base := Max(Min(b.cap, L.Exponential(b, attempt)), floor);
    L.JitterNonNegative(b, base, random);
  }

  /** What the statements of execution leave alone, and where a run that returns to pending is put. */
  predicate Undisturbed(r: L.Run, t: L.Run, now: Time) {
    && t.lastEnqueuedAt == r.lastEnqueuedAt && t.tenant == r.tenant
    && (t.status.Pending? && r.status.Pending? ==> t.availableAt == r.availableAt && t.attempt == r.attempt)
    && (t.status.Pending? && !r.status.Pending? ==> r.status.Leased? && t.availableAt > now)
  }

  lemma FinishUndisturbs(s: P.State, now: Time, w: WorkerId, random: real)
    requires S.LeaseInv(s) && w in s.workers && 0.0 <= random <= 1.0
    ensures Undisturbed(s.run, P.FinalRow(s, now, w, random), now)
  {
    var me := s.workers[w];
    if me.pc.Unwinding? {
      var hint := if me.pc.why.Transient? then me.pc.why.retryAfter else None;
      RetryDelayIsPositive(s.backoff, me.attempt, hint, random);
    }
  }

  lemma ReapUndisturbs(s: P.State, now: Time, grace: Time, random: real)
    requires S.LeaseInv(s) && 0.0 <= random <= 1.0
    ensures Undisturbed(s.run, P.DoReap(s, now, grace, random).run, now)
  {
    L.ReapDelayAgreesWithRetryDelay(s.backoff, s.run.attempt, random);
    RetryDelayIsPositive(s.backoff, s.run.attempt, None, random);
  }

  lemma ExecutionUndisturbs(s: P.State, e: P.Event)
    requires S.LeaseInv(s) && e.now >= s.clock
    ensures Undisturbed(s.run, P.Step(s, e).run, e.now)
  {
    if P.WellFormed(e) {
      var u := s.(clock := e.now);
      match e
      case Act(now, w, a) =>
        if w in u.workers {
          S.PerformFrame(u, now, w, a);
          hide P.AtStep, P.Elsewhere, P.FinalRow;
          if a.Finish? {
            FinishUndisturbs(u, now, w, a.random);
          }
        }
      case Reap(now, grace, random) => ReapUndisturbs(u, now, grace, random);
      case Grant(_, _, _) =>
      case Cancel(_) =>
    }
  }

  lemma ClockFollows(s: P.State, e: P.Event)
    ensures P.Step(s, e).clock <= (if e.now >= s.clock then e.now else s.clock)
  {
    if e.now >= s.clock && P.WellFormed(e) && e.Act? && e.w in s.workers {
      S.PerformFrame(s.(clock := e.now), e.now, e.w, e.action);
    }
  }

  // ---------------------------------------------------------------- one run, one key, one outbox row

  ghost predicate EntryInv(e: Entry, clock: Time) {
    && S.LeaseInv(e.model) && e.model.clock <= clock
    && (e.Row().lastEnqueuedAt.Some? ==> e.lastSent.Some? && e.Row().lastEnqueuedAt.value <= clock)
    && (e.lastSent.Some? ==> e.lastSent.value <= clock)
  }

  /** The i-th outbox row belongs to the i-th run, and says "published" only if a pointer went out. */
  predicate Intent(s: Tables, i: nat)
    requires i < |s.runs| && i < |s.outbox|
  {
    && s.outbox[i].run == i && s.outbox[i].tenant == s.runs[i].Row().tenant
    && (s.outbox[i].publishedAt.Some? ==> s.runs[i].lastSent.Some?)
  }

  ghost predicate Inv(s: Tables) {
    && |s.outbox| == |s.runs|
    && (forall i :: 0 <= i < |s.runs| ==> EntryInv(s.runs[i], s.clock) && Intent(s, i))
    && (forall i, j :: 0 <= i < j < |s.runs| && s.runs[i].key.Some? && s.runs[i].Row().tenant == s.runs[j].Row().tenant ==>
          s.runs[i].key != s.runs[j].key)
  }

  lemma ClockKeepsInv(s: Tables, now: Time)
    requires Inv(s) && s.clock <= now
    ensures Inv(s.(clock := now))
  {
    var t := s.(clock := now);
    forall i | 0 <= i < |t.runs| ensures EntryInv(t.runs[i], now) && Intent(t, i) {
      assert EntryInv(s.runs[i], s.clock) && Intent(s, i);
    }
  }

  /** One run's entry changes, and perhaps its outbox row; tenant and key stay. */
  lemma UpdateKeepsInv(s: Tables, r: RunId, e: Entry, row: O.Row)
    requires Inv(s) && r < |s.runs| && EntryInv(e, s.clock)
    requires e.Row().tenant == s.runs[r].Row().tenant && e.key == s.runs[r].key
    requires row.run == r && row.tenant == s.outbox[r].tenant
    requires row.publishedAt.Some? ==> e.lastSent.Some?
    ensures Inv(s.(runs := s.runs[r := e], outbox := s.outbox[r := row]))
  {
    var t := s.(runs := s.runs[r := e], outbox := s.outbox[r := row]);
    forall i | 0 <= i < |t.runs| ensures EntryInv(t.runs[i], t.clock) && Intent(t, i) {
      assert EntryInv(s.runs[i], s.clock) && Intent(s, i) && Intent(s, r);
    }
  }

  lemma EnqueueKeepsInv(s: Tables, key: Key, run: P.State)
    requires Inv(s)
    ensures Inv(DoEnqueue(s, key, run))
  {
    var t := DoEnqueue(s, key, run);
    if t != s {
      S.InitialLeaseInv(run);
      forall i | 0 <= i < |t.runs| ensures EntryInv(t.runs[i], t.clock) && Intent(t, i) {
        if i < |s.runs| {
          assert EntryInv(s.runs[i], s.clock) && Intent(s, i);
        }
      }
    }
  }

  lemma ExecuteKeepsEntry(e: Entry, pe: P.Event, clock: Time)
    requires EntryInv(e, clock) && pe.now == clock
    ensures EntryInv(e.(model := P.Step(e.model, pe)), clock)
  {
    S.LeaseInvStep(e.model, pe);
    ExecutionUndisturbs(e.model, pe);
    ClockFollows(e.model, pe);
    hide P.Step;
  }

  lemma MarkedKeepsLease(s: P.State, now: Time)
    requires S.LeaseInv(s)
    ensures S.LeaseInv(s.(run := s.run.(lastEnqueuedAt := Some(now))))
  {
  }

  /** The sweep's mark follows its send. */
  predicate SentBefore(s: Tables, e: Event) {
    e.Mark? && e.id < |s.runs| ==> s.runs[e.id].lastSent.Some?
  }

  lemma StepKeepsInv(s: Tables, e: Event)
    requires Inv(s) && SentBefore(s, e)
    ensures Inv(Step(s, e))
  {
    if At(e) >= s.clock {
      ClockKeepsInv(s, At(e));
      var u := s.(clock := At(e));
      match e
      case Enqueue(_, key, run) => EnqueueKeepsInv(u, key, run);
      case Execute(r, pe) =>
        if r < |u.runs| {
          ExecuteKeepsEntry(u.runs[r], pe, u.clock);
          ExecutionUndisturbs(u.runs[r].model, pe);
          hide P.Step;
          assert Intent(u, r);
          UpdateKeepsInv(u, r, u.runs[r].(model := P.Step(u.runs[r].model, pe)), u.outbox[r]);
          assert u.outbox[r := u.outbox[r]] == u.outbox;
        }
      case Relay(now, i, sent, committed) =>
        if O.Pending(u.outbox, i) {
          assert Intent(u, i) && EntryInv(u.runs[i], u.clock);
          MarkedKeepsLease(u.runs[i].model, now);
          var t := DoRelay(u, now, i, sent, committed);
          UpdateKeepsInv(u, i, t.runs[i], t.outbox[i]);
          assert t.runs == u.runs[i := t.runs[i]] && t.outbox == u.outbox[i := t.outbox[i]];
        }
      case Send(now, r) =>
        if r < |u.runs| {
          assert Intent(u, r);
          UpdateKeepsInv(u, r, SentAt(u.runs[r], now), u.outbox[r]);
          assert u.outbox[r := u.outbox[r]] == u.outbox;
        }
      case Mark(now, r) =>
        if r < |u.runs| {
          assert Intent(u, r);
          MarkedKeepsLease(u.runs[r].model, now);
          UpdateKeepsInv(u, r, Marked(u.runs[r], now), u.outbox[r]);
          assert u.outbox[r := u.outbox[r]] == u.outbox;
        }
    }
  }

  /** The sweep marks only what it has sent. */
  predicate Sweeps(s: Tables, es: seq<Event>)
    decreases |es|
  {
    es != [] ==> SentBefore(s, es[0]) && Sweeps(Step(s, es[0]), es[1..])
  }

  /**
    Every admitted run has exactly one outbox row, written with it and never removed; a tenant
    has at most one run per idempotency key; and a mark is never without a pointer behind it.
   */
  lemma {:induction false} IntentIsKept(s: Tables, es: seq<Event>)
    requires Inv(s) && Sweeps(s, es)
    ensures Inv(Play(s, es)) && |s.runs| <= |Play(s, es).runs|
    decreases |es|
  {
    if es != [] {
      StepKeepsInv(s, es[0]);
      IntentIsKept(Step(s, es[0]), es[1..]);
    }
  }

  // ---------------------------------------------------------------- what the sweep passes over

  /** A retried run marked since it came due has had a pointer since it came due. */
  predicate Covered(e: Entry) {
    var r := e.Row();
    r.status.Pending? && r.attempt > 0 && r.lastEnqueuedAt.Some? && r.lastEnqueuedAt.value >= r.availableAt ==>
      e.lastSent.Some? && e.lastSent.value >= r.availableAt
  }

  predicate AllCovered(s: Tables) {
    forall i :: 0 <= i < |s.runs| ==> Covered(s.runs[i])
  }

  /**
    A mark that comes too late: between the sweep's send and its mark the run was taken,
    returned to pending and came due again, and no pointer has gone out since.
   */
  predicate LateMark(s: Tables, e: Event) {
    && e.Mark? && s.clock <= e.now && e.id < |s.runs|
    && var r := s.runs[e.id].Row();
    && r.status.Pending? && r.attempt > 0 && r.availableAt <= e.now
    && (s.runs[e.id].lastSent.Some? ==> s.runs[e.id].lastSent.value < r.availableAt)
  }

  lemma ExecuteKeepsCovered(e: Entry, pe: P.Event, clock: Time)
    requires EntryInv(e, clock) && Covered(e) && pe.now >= clock
    ensures Covered(e.(model := P.Step(e.model, pe)))
  {
    ExecutionUndisturbs(e.model, pe);
    hide P.Step;
  }

  lemma CoveredAfterUpdate(s: Tables, r: RunId, e: Entry)
    requires AllCovered(s) && r < |s.runs|
    ensures AllCovered(s.(runs := s.runs[r := e])) <==> Covered(e)
  {
    var t := s.(runs := s.runs[r := e]);
    if Covered(e) {
      forall i | 0 <= i < |t.runs| ensures Covered(t.runs[i]) {
        assert Covered(s.runs[i]);
      }
    } else {
      assert !Covered(t.runs[r]);
    }
  }

  lemma StepCoversIff(s: Tables, e: Event)
    requires Inv(s) && AllCovered(s)
    ensures AllCovered(Step(s, e)) <==> !LateMark(s, e)
  {
    if At(e) >= s.clock {
      var u := s.(clock := At(e));
      match e
      case Enqueue(_, key, run) =>
        var t := DoEnqueue(u, key, run);
        forall i | 0 <= i < |t.runs| ensures Covered(t.runs[i]) {
          assert i < |s.runs| ==> Covered(s.runs[i]);
        }
      case Execute(r, pe) =>
        if r < |u.runs| {
          assert EntryInv(s.runs[r], s.clock) && Covered(s.runs[r]);
          ExecuteKeepsCovered(u.runs[r], pe, s.clock);
          hide P.Step;
          CoveredAfterUpdate(u, r, u.runs[r].(model := P.Step(u.runs[r].model, pe)));
        }
      case Relay(now, i, sent, committed) =>
        if O.Pending(u.outbox, i) {
          assert Intent(s, i) && EntryInv(s.runs[i], s.clock) && Covered(s.runs[i]);
          CoveredAfterUpdate(u, i, SentAt(u.runs[i], now));
          CoveredAfterUpdate(u, i, Marked(SentAt(u.runs[i], now), now));
        }
      case Send(now, r) =>
        if r < |u.runs| {
          assert EntryInv(s.runs[r], s.clock) && Covered(s.runs[r]);
          CoveredAfterUpdate(u, r, SentAt(u.runs[r], now));
        }
      case Mark(now, r) =>
        if r < |u.runs| {
          assert EntryInv(s.runs[r], s.clock) && Covered(s.runs[r]);
          CoveredAfterUpdate(u, r, Marked(u.runs[r], now));
        }
    }
  }

  predicate NoLateMark(s: Tables, es: seq<Event>)
    decreases |es|
  {
    es != [] ==> !LateMark(s, es[0]) && NoLateMark(Step(s, es[0]), es[1..])
  }

  predicate CoveredThroughout(s: Tables, es: seq<Event>)
    decreases |es|
  {
    AllCovered(s) && (es != [] ==> CoveredThroughout(Step(s, es[0]), es[1..]))
  }

  /**
    Over every run of the system: no mark hides from the sweep's condition a returned run that
    has had no pointer since it came due, if and only if no mark comes late.
   */
  lemma {:induction false} NeverPassedOverIff(s: Tables, es: seq<Event>)
    requires Inv(s) && AllCovered(s) && Sweeps(s, es)
    ensures CoveredThroughout(s, es) <==> NoLateMark(s, es)
    decreases |es|
  {
    if es != [] {
      StepCoversIff(s, es[0]);
      if !LateMark(s, es[0]) {
        StepKeepsInv(s, es[0]);
        NeverPassedOverIff(Step(s, es[0]), es[1..]);
      }
    }
  }

  lemma {:induction false} CoveredAtTheEnd(s: Tables, es: seq<Event>)
    requires CoveredThroughout(s, es)
    ensures AllCovered(Play(s, es))
    decreases |es|
  {
    if es != [] {
      CoveredAtTheEnd(Step(s, es[0]), es[1..]);
    }
  }

  /** Every mark follows the newest pointer within `gap`. */
  predicate PromptMarks(s: Tables, es: seq<Event>, gap: Time)
    decreases |es|
  {
    es != [] ==>
      && (es[0].Mark? && es[0].id < |s.runs| && s.clock <= es[0].now ==>
            s.runs[es[0].id].lastSent.Some? && es[0].now - s.runs[es[0].id].lastSent.value <= gap)
      && PromptMarks(Step(s, es[0]), es[1..], gap)
  }

  predicate Fresh(e: Entry, gap: Time) {
    e.Row().lastEnqueuedAt.Some? && e.lastSent.Some? ==> e.Row().lastEnqueuedAt.value - e.lastSent.value <= gap
  }

  predicate AllFresh(s: Tables, gap: Time) {
    forall i :: 0 <= i < |s.runs| ==> Fresh(s.runs[i], gap)
  }

  lemma FreshAfterUpdate(s: Tables, r: RunId, e: Entry, gap: Time)
    requires AllFresh(s, gap) && r < |s.runs| && Fresh(e, gap)
    ensures AllFresh(s.(runs := s.runs[r := e]), gap)
  {
  }

  lemma StepKeepsFresh(s: Tables, e: Event, gap: Time)
    requires Inv(s) && AllFresh(s, gap) && 0.0 <= gap && PromptMarks(s, [e], gap)
    ensures AllFresh(Step(s, e), gap)
  {
    if At(e) >= s.clock {
      var u := s.(clock := At(e));
      match e
      case Enqueue(_, _, _) =>
      case Execute(r, pe) =>
        if r < |u.runs| {
          assert EntryInv(s.runs[r], s.clock) && Fresh(s.runs[r], gap);
          ExecutionUndisturbs(u.runs[r].model, pe);
          hide P.Step;
          FreshAfterUpdate(u, r, u.runs[r].(model := P.Step(u.runs[r].model, pe)), gap);
        }
      case Relay(now, i, _, _) =>
        if O.Pending(u.outbox, i) {
          assert Intent(s, i) && EntryInv(s.runs[i], s.clock) && Fresh(s.runs[i], gap);
          FreshAfterUpdate(u, i, SentAt(u.runs[i], now), gap);
          FreshAfterUpdate(u, i, Marked(SentAt(u.runs[i], now), now), gap);
        }
      case Send(now, r) =>
        if r < |u.runs| {
          assert EntryInv(s.runs[r], s.clock) && Fresh(s.runs[r], gap);
          FreshAfterUpdate(u, r, SentAt(u.runs[r], now), gap);
        }
      case Mark(now, r) =>
        if r < |u.runs| {
          FreshAfterUpdate(u, r, Marked(u.runs[r], now), gap);
        }
    }
  }

  lemma {:induction false} PromptMarksKeepFresh(s: Tables, es: seq<Event>, gap: Time)
    requires Inv(s) && Sweeps(s, es) && AllFresh(s, gap) && 0.0 <= gap && PromptMarks(s, es, gap)
    ensures AllFresh(Play(s, es), gap)
    decreases |es|
  {
    if es != [] {
      StepKeepsInv(s, es[0]);
      assert [es[0]][1..] == [];
      StepKeepsFresh(s, es[0], gap);
      PromptMarksKeepFresh(Step(s, es[0]), es[1..], gap);
    }
  }

  const NOTHING := Tables(0.0, [], [])

  /**
    No lost intent. From empty tables, through any interleaving of requests, relays, sweeps,
    workers, crashes and reaps: a due run that the sweep does not pick either waits behind 100
    or more stranded runs, or has had a pointer published — within the last 45 s (plus the
    sweep's own lag) if it was never attempted, since its available_at if it was returned —
    provided no mark came late.
   */
  lemma NoLostIntent(es: seq<Event>, gap: Time, i: RunId, now: Time, picked: seq<RunId>)
    requires Sweeps(NOTHING, es) && NoLateMark(NOTHING, es) && PromptMarks(NOTHING, es, gap) && 0.0 <= gap
    requires var s := Play(NOTHING, es);
             s.clock <= now && i < |s.runs| && L.Leasable(s.runs[i].Row(), now)
    requires W.IsSelection(Rows(Play(NOTHING, es)), now, picked, W.SWEEP_LIMIT) && i !in picked
    ensures var s := Play(NOTHING, es);
            var e := s.runs[i];
            if W.Stranded(e.Row(), now) then |W.AheadOf(Rows(s), now, i)| >= W.SWEEP_LIMIT
            else
              && e.lastSent.Some?
              && (if e.Row().attempt == 0 then e.lastSent.value >= now - W.LOST_POINTER_AFTER - gap
                  else e.lastSent.value >= e.Row().availableAt)
  {
    IntentIsKept(NOTHING, es);
    NeverPassedOverIff(NOTHING, es);
    CoveredAtTheEnd(NOTHING, es);
    PromptMarksKeepFresh(NOTHING, es, gap);
    var s := Play(NOTHING, es);
    assert EntryInv(s.runs[i], s.clock) && Covered(s.runs[i]) && Fresh(s.runs[i], gap);
    W.SelectedIff(Rows(s), now, picked, W.SWEEP_LIMIT, i);
  }

  /** A returned run meets the sweep's condition as soon as it is due: its last mark, if any, is older. */
  lemma ReturnedRunIsStranded(e: Entry, pe: P.Event, clock: Time, now: Time)
    requires EntryInv(e, clock) && pe.now >= clock && !e.Row().status.Pending?
    requires var r := P.Step(e.model, pe).run; L.Leasable(r, now) && r.attempt > 0
    ensures W.Stranded(P.Step(e.model, pe).run, now)
  {
    ExecutionUndisturbs(e.model, pe);
    hide P.Step;
  }

  /**
    The condition is not idle: a sweep that stalls between its send and its mark hides a run.
    The pointer goes out, the run is leased and reaped, it comes due again, and the mark
    makes it look sent.
   */
  lemma LateMarkHidesTheRun(run: P.State) returns (es: seq<Event>)
    requires P.Initial(run) && run.clock <= 0.0 && run.run.availableAt <= 1.0 && run.run.maxAttempts >= 2
    ensures var s := Play(NOTHING, es);
            && Sweeps(NOTHING, es) && |s.runs| == 1 && L.Leasable(s.runs[0].Row(), s.clock)
            && !W.Stranded(s.runs[0].Row(), s.clock)
            && s.runs[0].lastSent.Some? && s.runs[0].lastSent.value < s.runs[0].Row().availableAt
  {
    var late := 62.0 + run.backoff.cap;
    var e0, e1 := Enqueue(0.0, None, run), Send(1.0, 0);
    var e2, e3 := Execute(0, P.Grant(1.0, 0, 60.0)), Execute(0, P.Reap(62.0, 0.0, 0.0));
    var e4 := Mark(late, 0);
    var s1 := Step(NOTHING, e0);
    var s2 := Step(s1, e1);
    var s3 := Step(s2, e2);
    assert L.Held(s3.runs[0].Row(), 0) && s3.runs[0].Row().attempt == 1 && s3.runs[0].model.backoff == run.backoff;
    L.ReapDelayAgreesWithRetryDelay(run.backoff, 1, 0.0);
    L.RetryDelayBounds(run.backoff, 1, None, 0.0);
    var s4 := Step(s3, e3);
    assert s4.runs[0].Row().status.Pending? && 62.0 < s4.runs[0].Row().availableAt <= late;
    var s5 := Step(s4, e4);
    es := [e0, e1, e2, e3, e4];
    PlayFive(NOTHING, e0, e1, e2, e3, e4);
  }

  lemma PlayFive(s: Tables, e0: Event, e1: Event, e2: Event, e3: Event, e4: Event)
    ensures Play(s, [e0, e1, e2, e3, e4]) == Step(Step(Step(Step(Step(s, e0), e1), e2), e3), e4)
    ensures SentBefore(s, e0) && SentBefore(Step(s, e0), e1) && SentBefore(Step(Step(s, e0), e1), e2)
            && SentBefore(Step(Step(Step(s, e0), e1), e2), e3) && SentBefore(Step(Step(Step(Step(s, e0), e1), e2), e3), e4) ==>
              Sweeps(s, [e0, e1, e2, e3, e4])
  {
    hide Step, SentBefore;
    assert [e0, e1, e2, e3, e4][1..] == [e1, e2, e3, e4] && [e1, e2, e3, e4][1..] == [e2, e3, e4]
        && [e2, e3, e4][1..] == [e3, e4] && [e3, e4][1..] == [e4] && [e4][1..] == [];
    var s4 := Step(Step(Step(Step(s, e0), e1), e2), e3);
    assert Play(s4, [e4]) == Step(s4, e4);
    assert Sweeps(s4, [e4]) <==> SentBefore(s4, e4);
    var s3 := Step(Step(Step(s, e0), e1), e2);
    assert Play(s3, [e3, e4]) == Step(s4, e4);
    assert Sweeps(s3, [e3, e4]) <==> SentBefore(s3, e3) && Sweeps(s4, [e4]);
    var s2 := Step(Step(s, e0), e1);
    assert Play(s2, [e2, e3, e4]) == Step(s4, e4);
    assert Sweeps(s2, [e2, e3, e4]) <==> SentBefore(s2, e2) && Sweeps(s3, [e3, e4]);
    assert Play(Step(s, e0), [e1, e2, e3, e4]) == Step(s4, e4);
    assert Sweeps(Step(s, e0), [e1, e2, e3, e4]) <==> SentBefore(Step(s, e0), e1) && Sweeps(s2, [e2, e3, e4]);
  }
}
