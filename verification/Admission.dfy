/**
  enqueue_run, drain and the re-publication loop of sweep on the tables themselves
  (platform_core/correctness/outbox.py, apps/worker/tasks.py), each proved to be a trace of
  the delivery protocol.
 */
module Admission {
  import opened Prelude
  import L = Leases
  import P = Protocol
  import E = SideEffects
  import O = Outbox
  import W = Sweeping
  import opened D = Delivery

  /** The columns the code reads and writes, against the tables of the protocol. */
  ghost predicate Mirrors(m: Tables, clock: Time, runs: seq<L.Run>, keys: seq<Key>, outbox: seq<O.Row>) {
    && m.clock == clock && m.outbox == outbox && |runs| == |keys| == |m.runs|
    && forall i :: 0 <= i < |runs| ==> runs[i] == m.runs[i].Row() && keys[i] == m.runs[i].key
  }

  /** SELECT id FROM run WHERE tenant_id = … AND idempotency_key = … */
  function Find(runs: seq<L.Run>, keys: seq<Key>, tenant: TenantId, key: Key): int
    requires |keys| == |runs|
  {
    if key.None? || runs == [] then -1
    else
      var n := |runs| - 1;
      if runs[n].tenant == tenant && keys[n] == key then n else Find(runs[..n], keys[..n], tenant, key)
  }

  lemma {:induction false} FindIsExisting(es: seq<Entry>, runs: seq<L.Run>, keys: seq<Key>, tenant: TenantId, key: Key)
    requires |es| == |keys| == |runs|
    requires forall i :: 0 <= i < |runs| ==> runs[i] == es[i].Row() && keys[i] == es[i].key
    ensures Find(runs, keys, tenant, key) == Existing(es, tenant, key)
    decreases |es|
  {
    if runs != [] {
      var n := |runs| - 1;
      FindIsExisting(es[..n], runs[..n], keys[..n], tenant, key);
    }
  }

  function NewRun(tenant: TenantId, workload: string, maxAttempts: nat, priority: int, now: Time): L.Run {
    L.Run(tenant, workload, L.Pending, None, None, 0, maxAttempts, now, None, None, None, None, priority, now)
  }

  ghost function NewState(run: L.Run, backoff: L.Backoff, policies: seq<E.RetryPolicy>, now: Time): P.State {
    P.State(now, backoff, run,
            seq(|policies|, k requires 0 <= k < |policies| => P.StepState(policies[k], None, 0, 0, 0, 0, 0)), map[], [])
  }

  lemma {:induction false} FindFinds(runs: seq<L.Run>, keys: seq<Key>, tenant: TenantId, key: Key)
    requires |keys| == |runs|
    ensures var i := Find(runs, keys, tenant, key);
            && -1 <= i < |runs|
            && (i >= 0 ==> runs[i].tenant == tenant && keys[i] == key && key.Some?)
            && (i < 0 <==> key.None? || forall j :: 0 <= j < |runs| ==> runs[j].tenant != tenant || keys[j] != key)
    decreases |runs|
  {
    if runs != [] {
      FindFinds(runs[..|runs| - 1], keys[..|runs| - 1], tenant, key);
    }
  }

  lemma StateIsInitial(run: L.Run, backoff: L.Backoff, policies: seq<E.RetryPolicy>, now: Time)
    requires L.ValidBackoff(backoff) && L.Fresh(run)
    ensures P.Initial(NewState(run, backoff, policies, now)) && NewState(run, backoff, policies, now).run == run
    ensures NewState(run, backoff, policies, now).clock == now
  {
  }

  /** enqueue_run, on the columns. */
  lemma EnqueueMirrors(m: Tables, clock: Time, runs: seq<L.Run>, keys: seq<Key>, outbox: seq<O.Row>, now: Time, key: Key, state: P.State)
    requires Inv(m) && Mirrors(m, clock, runs, keys, outbox) && clock <= now && P.Initial(state) && state.clock == now
    ensures var t := Step(m, Enqueue(now, key, state));
            && Inv(t)
            && if Find(runs, keys, state.run.tenant, key) >= 0 then Mirrors(t, now, runs, keys, outbox)
               else Mirrors(t, now, runs + [state.run], keys + [key], outbox + [O.Row(state.run.tenant, |runs|, None, 0)])
  {
    StepKeepsInv(m, Enqueue(now, key, state));
    FindIsExisting(m.runs, runs, keys, state.run.tenant, key);
    hide Inv, P.Initial, Find, Existing;
  }

  function CountOk(batch: seq<nat>, ok: nat -> bool): nat {
    if batch == [] then 0 else CountOk(batch[..|batch| - 1], ok) + (if ok(batch[|batch| - 1]) then 1 else 0)
  }

  /** One row of a drain, on the columns. */
  lemma RelayMirrors(m: Tables, clock: Time, runs: seq<L.Run>, keys: seq<Key>, outbox: seq<O.Row>, now: Time, i: nat, ok: bool)
    requires Inv(m) && Mirrors(m, clock, runs, keys, outbox) && O.Pending(outbox, i) && clock <= now
    ensures outbox[i].run == i < |runs|
    ensures var t := Step(m, Relay(now, i, ok, true));
            && Inv(t)
            && Mirrors(t, now,
                 if ok then runs[i := runs[i].(lastEnqueuedAt := Some(now))] else runs, keys,
                 outbox[i := if ok then outbox[i].(publishedAt := Some(now)) else outbox[i].(attempts := outbox[i].attempts + 1)])
  {
    StepKeepsInv(m, Relay(now, i, ok, true));
    assert Intent(m, i);
    hide Inv;
  }

  lemma DrainedOneMore(rows: seq<O.Row>, batch: seq<nat>, ok: nat -> bool, now: Time, i: nat)
    requires i < |rows| && i !in batch
    ensures O.Drained(rows, batch + [i], ok, now)
            == O.Drained(rows, batch, ok, now)[i := if ok(i) then rows[i].(publishedAt := Some(now))
                                                    else rows[i].(attempts := rows[i].attempts + 1)]
  {
  }

  /** What drain does to the run rows: last_enqueued_at where the publish went through. */
  function Enqueued(runs: seq<L.Run>, batch: seq<nat>, ok: nat -> bool, now: Time): (r: seq<L.Run>)
    ensures |r| == |runs|
    ensures forall i :: 0 <= i < |runs| ==>
              r[i] == if i in batch && ok(i) then runs[i].(lastEnqueuedAt := Some(now)) else runs[i]
  {
    seq(|runs|, i requires 0 <= i < |runs| =>
      if i in batch && ok(i) then runs[i].(lastEnqueuedAt := Some(now)) else runs[i])
  }

  lemma EnqueuedOneMore(runs: seq<L.Run>, batch: seq<nat>, ok: nat -> bool, now: Time, i: nat)
    requires i < |runs| && i !in batch
    ensures Enqueued(runs, batch + [i], ok, now)
            == if ok(i) then Enqueued(runs, batch, ok, now)[i := runs[i].(lastEnqueuedAt := Some(now))]
               else Enqueued(runs, batch, ok, now)
  {
  }

  lemma BatchIsDistinct(rows: seq<O.Row>, batch: seq<nat>, n: nat, k: nat)
    requires O.IsBatch(rows, batch, n) && k < |batch|
    ensures O.Pending(rows, batch[k]) && batch[k] !in batch[..k]
  {
    forall j | 0 <= j < k ensures batch[j] != batch[k] {
      assert O.Ahead(rows, batch[j], batch[k]);
    }
  }

  lemma {:induction false} PlayConcat(s: Tables, xs: seq<Event>, ys: seq<Event>)
    ensures Play(s, xs + ys) == Play(Play(s, xs), ys)
    ensures NoLateMark(s, xs + ys) <==> NoLateMark(s, xs) && NoLateMark(Play(s, xs), ys)
    ensures Sweeps(s, xs + ys) <==> Sweeps(s, xs) && Sweeps(Play(s, xs), ys)
    decreases |xs|
  {
    hide Step, LateMark, SentBefore;
    if xs == [] {
      assert xs + ys == ys;
    } else {
      assert (xs + ys)[1..] == xs[1..] + ys;
      PlayConcat(Step(s, xs[0]), xs[1..], ys);
    }
  }

  lemma PlayOneMore(s: Tables, es: seq<Event>, e: Event)
    ensures Play(s, es + [e]) == Step(Play(s, es), e)
    ensures NoLateMark(s, es + [e]) <==> NoLateMark(s, es) && !LateMark(Play(s, es), e)
    ensures Sweeps(s, es + [e]) <==> Sweeps(s, es) && SentBefore(Play(s, es), e)
  {
    hide Step, LateMark, SentBefore;
    PlayConcat(s, es, [e]);
    assert [e][1..] == [];
  }

  /** A send and then its mark, with nobody in between: the mark is never late. */
  lemma SendThenMark(m: Tables, clock: Time, runs: seq<L.Run>, keys: seq<Key>, outbox: seq<O.Row>, r: RunId, sent: Time, marked: Time)
    requires Inv(m) && Mirrors(m, clock, runs, keys, outbox) && r < |runs| && clock <= sent <= marked
    requires runs[r].availableAt <= sent
    ensures var u := Step(m, Send(sent, r));
            var t := Step(u, Mark(marked, r));
            && Inv(t) && Mirrors(t, marked, runs[r := runs[r].(lastEnqueuedAt := Some(marked))], keys, outbox)
            && !LateMark(m, Send(sent, r)) && !LateMark(u, Mark(marked, r))
            && SentBefore(m, Send(sent, r)) && SentBefore(u, Mark(marked, r))
  {
    StepKeepsInv(m, Send(sent, r));
    StepKeepsInv(Step(m, Send(sent, r)), Mark(marked, r));
    hide Inv;
  }

  /** The trace so far, from `before` to the tables as they stand. */
  ghost predicate Follows(before: Tables, es: seq<Event>, m: Tables, clock: Time, runs: seq<L.Run>, keys: seq<Key>, outbox: seq<O.Row>) {
    && Inv(m) && Mirrors(m, clock, runs, keys, outbox)
    && m == Play(before, es) && NoLateMark(before, es) && Sweeps(before, es)
  }

  lemma FollowsFromStart(m: Tables, clock: Time, runs: seq<L.Run>, keys: seq<Key>, outbox: seq<O.Row>)
    requires Inv(m) && Mirrors(m, clock, runs, keys, outbox)
    ensures Follows(m, [], m, clock, runs, keys, outbox)
  {
  }

  /** Where drain's loop stands after the rows in `done`. */
  ghost predicate Draining(rows: seq<O.Row>, was: seq<L.Run>, done: seq<nat>, ok: nat -> bool, now: Time,
                           runs: seq<L.Run>, outbox: seq<O.Row>, published: nat) {
    && outbox == O.Drained(rows, done, ok, now) && runs == Enqueued(was, done, ok, now)
    && published == CountOk(done, ok) && |was| == |rows|
  }

  lemma DrainStep(before: Tables, es: seq<Event>, m: Tables, clock: Time, runs: seq<L.Run>, keys: seq<Key>, outbox: seq<O.Row>,
                  now: Time, i: nat, ok: nat -> bool)
    requires Follows(before, es, m, clock, runs, keys, outbox) && clock <= now && O.Pending(outbox, i)
    ensures outbox[i].run == i < |runs|
    ensures var e := Relay(now, i, ok(i), true);
            Follows(before, es + [e], Step(m, e), now,
              if ok(i) then runs[i := runs[i].(lastEnqueuedAt := Some(now))] else runs, keys,
              outbox[i := if ok(i) then outbox[i].(publishedAt := Some(now)) else outbox[i].(attempts := outbox[i].attempts + 1)])
  {
    hide Inv, Mirrors, Play, NoLateMark, Sweeps, Step;
    RelayMirrors(m, clock, runs, keys, outbox, now, i, ok(i));
    PlayOneMore(before, es, Relay(now, i, ok(i), true));
  }

  lemma DrainingOneMore(rows: seq<O.Row>, was: seq<L.Run>, done: seq<nat>, ok: nat -> bool, now: Time,
                        runs: seq<L.Run>, outbox: seq<O.Row>, published: nat, i: nat)
    requires Draining(rows, was, done, ok, now, runs, outbox, published) && O.Pending(rows, i) && i !in done
    ensures O.Pending(outbox, i) && i < |outbox| && i < |runs|
    ensures Draining(rows, was, done + [i], ok, now,
              if ok(i) then runs[i := runs[i].(lastEnqueuedAt := Some(now))] else runs,
              outbox[i := if ok(i) then outbox[i].(publishedAt := Some(now)) else outbox[i].(attempts := outbox[i].attempts + 1)],
              if ok(i) then published + 1 else published)
  {
    DrainedOneMore(rows, done, ok, now, i);
    EnqueuedOneMore(was, done, ok, now, i);
    assert (done + [i])[..|done|] == done;
    hide O.Drained, Enqueued;
  }

  lemma NothingDrained(rows: seq<O.Row>, was: seq<L.Run>, ok: nat -> bool, now: Time)
    requires |was| == |rows|
    ensures Draining(rows, was, [], ok, now, was, rows, 0)
  {
    assert O.Drained(rows, [], ok, now) == rows;
    assert Enqueued(was, [], ok, now) == was;
  }

  /** What republishing the runs in `done` has left of the table. */
  ghost predicate Republished(was: seq<L.Run>, done: seq<nat>, ok: nat -> bool, runs: seq<L.Run>) {
    && |runs| == |was|
    && forall r :: 0 <= r < |runs| ==>
         if r in done && ok(r) then
           && runs[r].lastEnqueuedAt.Some? && runs[r].lastEnqueuedAt.value >= was[r].availableAt
           && runs[r] == was[r].(lastEnqueuedAt := runs[r].lastEnqueuedAt)
         else runs[r] == was[r]
  }

  lemma RepublishedOneMore(was: seq<L.Run>, done: seq<nat>, ok: nat -> bool, runs: seq<L.Run>, r: RunId, marked: Time)
    requires Republished(was, done, ok, runs) && r < |runs| && was[r].availableAt <= marked
    ensures runs[r].availableAt == was[r].availableAt
    ensures Republished(was, done + [r], ok, if ok(r) then runs[r := runs[r].(lastEnqueuedAt := Some(marked))] else runs)
  {
  }

  lemma NothingRepublished(was: seq<L.Run>, ok: nat -> bool)
    ensures Republished(was, [], ok, was) && CountOk([], ok) == 0
  {
  }

  lemma CountOneMore(done: seq<nat>, i: nat, ok: nat -> bool)
    ensures CountOk(done + [i], ok) == CountOk(done, ok) + (if ok(i) then 1 else 0)
  {
    assert (done + [i])[..|done|] == done;
  }

  lemma RepublishStep(before: Tables, es: seq<Event>, m: Tables, clock: Time, runs: seq<L.Run>, keys: seq<Key>, outbox: seq<O.Row>,
                      r: RunId, sent: Time, marked: Time)
    requires Follows(before, es, m, clock, runs, keys, outbox) && clock <= sent <= marked
    requires r < |runs| && runs[r].availableAt <= sent
    ensures Follows(before, es + [Send(sent, r)] + [Mark(marked, r)], Step(Step(m, Send(sent, r)), Mark(marked, r)), marked,
              runs[r := runs[r].(lastEnqueuedAt := Some(marked))], keys, outbox)
  {
    hide Inv, Mirrors, Play, NoLateMark, Sweeps, Step, LateMark, SentBefore;
    SendThenMark(m, clock, runs, keys, outbox, r, sent, marked);
    PlayOneMore(before, es, Send(sent, r));
    PlayOneMore(before, es + [Send(sent, r)], Mark(marked, r));
  }

  class Queue {
    const backoff: L.Backoff
    var clock: Time
    var runs: seq<L.Run>
    var keys: seq<Key>
    var outbox: seq<O.Row>
    ghost var model: Tables

    ghost predicate Valid()
      reads this
    {
      Inv(model) && Mirrors(model, clock, runs, keys, outbox) && L.ValidBackoff(backoff)
    }

    constructor (backoff: L.Backoff)
      requires L.ValidBackoff(backoff)
      ensures Valid() && runs == [] && outbox == [] && model == NOTHING
    {
      this.backoff := backoff;
      clock, runs, keys, outbox := 0.0, [], [], [];
      model := NOTHING;
    }

    /** now(), as the next transaction reads it. */
    method Now() returns (now: Time)
      ensures now >= clock
    {
      var elapsed: Time :| elapsed >= 0.0;
      now := clock + elapsed;
    }

    /**
      enqueue_run: a key the tenant has used resolves to its run and writes nothing; otherwise
      the run and its outbox row appear together.
     */
    method EnqueueRun(tenant: TenantId, workload: string, key: Key, maxAttempts: nat, priority: int,
                      ghost policies: seq<E.RetryPolicy>)
      returns (id: RunId, created: bool, ghost e: Event)
      requires Valid() && maxAttempts >= 1
      modifies this
      ensures Valid() && model == Step(old(model), e)
      ensures id < |runs| && keys[id] == key && runs[id].tenant == tenant
      ensures created <==> key.None? || forall i :: 0 <= i < |old(runs)| ==> old(runs)[i].tenant != tenant || old(keys)[i] != key
      ensures !created ==> runs == old(runs) && outbox == old(outbox)
      ensures created ==> id == |old(runs)| && runs == old(runs) + [NewRun(tenant, workload, maxAttempts, priority, clock)]
      ensures created ==> outbox == old(outbox) + [O.Row(tenant, id, None, 0)]
    {
      var now := Now();
      var row := NewRun(tenant, workload, maxAttempts, priority, now);
      ghost var state := NewState(row, backoff, policies, now);
      StateIsInitial(row, backoff, policies, now);
      EnqueueMirrors(model, clock, runs, keys, outbox, now, key, state);
      FindFinds(runs, keys, tenant, key);
      hide Inv, Mirrors, Step, P.Initial, Find;
      e := Enqueue(now, key, state);
      clock := now;
      model := Step(model, e);
      var existing := Find(runs, keys, tenant, key);
      if existing >= 0 {
        return existing, false, e;
      }
      id, created := |runs|, true;
      runs := runs + [row];
      keys := keys + [key];
      outbox := outbox + [O.Row(tenant, id, None, 0)];
    }

    /** The loop of drain, inside its one transaction. */
    method PublishAll(batch: seq<nat>, n: nat, ok: nat -> bool, now: Time) returns (published: nat, ghost es: seq<Event>)
      requires Follows(model, [], model, clock, runs, keys, outbox) && clock <= now
      requires O.IsBatch(outbox, batch, n) && Draining(outbox, runs, [], ok, now, runs, outbox, 0)
      modifies this
      ensures old(clock) <= clock <= now && keys == old(keys)
      ensures Follows(old(model), es, model, clock, runs, keys, outbox)
      ensures Draining(old(outbox), old(runs), batch, ok, now, runs, outbox, published)
    {
      hide *;
      published, es := 0, [];
      assert batch[..0] == [];
      for k := 0 to |batch|
        invariant old(clock) <= clock <= now && keys == old(keys)
        invariant Follows(old(model), es, model, clock, runs, keys, outbox)
        invariant Draining(old(outbox), old(runs), batch[..k], ok, now, runs, outbox, published)
      {
        var i := batch[k];
        BatchIsDistinct(old(outbox), batch, n, k);
        DrainingOneMore(old(outbox), old(runs), batch[..k], ok, now, runs, outbox, published, i);
        DrainStep(old(model), es, model, clock, runs, keys, outbox, now, i, ok);
        assert batch[..k + 1] == batch[..k] + [i];
        ghost var e := Relay(now, i, ok(i), true);
        es, model := es + [e], Step(model, e);
        clock := now;
        if ok(i) {
          var r := outbox[i].run;
          outbox := outbox[i := outbox[i].(publishedAt := Some(now))];
          runs := runs[r := runs[r].(lastEnqueuedAt := Some(now))];
          published := published + 1;
        } else {
          outbox := outbox[i := outbox[i].(attempts := outbox[i].attempts + 1)];
        }
      }
      assert batch[..|batch|] == batch;
    }

    /** drain, over the rows its query returned; `ok` is what publish does with each. */
    method Drain(batch: seq<nat>, n: nat, ok: nat -> bool) returns (published: nat, now: Time, ghost es: seq<Event>)
      requires Valid() && O.IsBatch(outbox, batch, n)
      modifies this
      ensures Valid() && now >= clock >= old(clock) && keys == old(keys)
      ensures model == Play(old(model), es) && NoLateMark(old(model), es) && Sweeps(old(model), es)
      ensures outbox == O.Drained(old(outbox), batch, ok, now)
      ensures runs == Enqueued(old(runs), batch, ok, now)
      ensures published == CountOk(batch, ok)
    {
      FollowsFromStart(model, clock, runs, keys, outbox);
      now := Now();
      NothingDrained(outbox, runs, ok, now);
      published, es := PublishAll(batch, n, ok, now);
    }

    /** The loop of sweep over the stranded runs. */
    method RepublishAll(stranded: seq<RunId>, ok: nat -> bool) returns (republished: nat, ghost es: seq<Event>)
      requires Follows(model, [], model, clock, runs, keys, outbox)
      requires forall k :: 0 <= k < |stranded| ==> stranded[k] < |runs| && runs[stranded[k]].availableAt <= clock
      modifies this
      ensures clock >= old(clock) && keys == old(keys) && outbox == old(outbox)
      ensures Follows(old(model), es, model, clock, runs, keys, outbox)
      ensures Republished(old(runs), stranded, ok, runs) && republished == CountOk(stranded, ok)
    {
      hide *;
      republished, es := 0, [];
      assert stranded[..0] == [];
      NothingRepublished(runs, ok);
      for k := 0 to |stranded|
        invariant clock >= old(clock) && keys == old(keys) && outbox == old(outbox) && |runs| == |old(runs)|
        invariant Follows(old(model), es, model, clock, runs, keys, outbox)
        invariant Republished(old(runs), stranded[..k], ok, runs)
        invariant republished == CountOk(stranded[..k], ok)
      {
        var r := stranded[k];
        assert stranded[..k + 1] == stranded[..k] + [r];
        CountOneMore(stranded[..k], r, ok);
        var sent := Now();
        var lag: Time :| lag >= 0.0;
        var marked := sent + lag;
        RepublishedOneMore(old(runs), stranded[..k], ok, runs, r, marked);
        if ok(r) {
          RepublishStep(old(model), es, model, clock, runs, keys, outbox, r, sent, marked);
          model := Step(Step(model, Send(sent, r)), Mark(marked, r));
          es := es + [Send(sent, r)] + [Mark(marked, r)];
          clock := marked;
          runs := runs[r := runs[r].(lastEnqueuedAt := Some(marked))];
          republished := republished + 1;
        }
      }
      assert stranded[..|stranded|] == stranded;
    }

    /**
      The re-publication loop of sweep, over the runs its query picked: each is sent and then
      marked; one that cannot be sent is left for the next sweep. Uninterrupted, it
      never marks late.
     */
    method Republish(stranded: seq<RunId>, ok: nat -> bool) returns (republished: nat, ghost es: seq<Event>)
      requires Valid() && W.IsSelection(runs, clock, stranded, W.SWEEP_LIMIT)
      modifies this
      ensures Valid() && clock >= old(clock) && keys == old(keys) && outbox == old(outbox)
      ensures model == Play(old(model), es) && NoLateMark(old(model), es) && Sweeps(old(model), es)
      ensures Republished(old(runs), stranded, ok, runs)
      ensures republished == CountOk(stranded, ok)
    {
      FollowsFromStart(model, clock, runs, keys, outbox);
      assert forall k :: 0 <= k < |stranded| ==> stranded[k] in W.StrandedRows(runs, clock);
      republished, es := RepublishAll(stranded, ok);
    }
  }
}
