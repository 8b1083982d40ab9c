/**
  The budget ledger (platform_core/observability/ledger.py): reserve, release, settle and
  record as transactions over one tenant's reservation and usage tables.

  The daily token budget and the monthly cost budget follow the same rules; a `Dim` says
  which of the two a statement is about.
 */
module Ledger {
  import opened Prelude

  datatype Dim = Tokens | Cost

  datatype Amount = Amount(tokens: int, cost: real) {
    function Of(d: Dim): real { if d.Tokens? then tokens as real else cost }
  }

  /** What a UsageRecord charges. */
  datatype Charge = Charge(input: int, output: int, cost: real) {
    /** The CHECK constraints of llm_usage and budget_reservation. */
    predicate Valid() { 0 <= input && 0 <= output && 0.0 <= cost }
    function Metered(): Amount { Amount(input + output, cost) }
  }

  datatype Status = Reserved | Settled | Released | Expired

  datatype Reservation = Reservation(
    estimate: Amount, expiresAt: Time, status: Status, settledAt: Option<Time>, actual: Option<Amount>)

  /**
    A usage row. `source` and `covered` are history, not columns: the reservation the row
    settled, and the headroom that reservation was still holding for it.
   */
  datatype Usage = Usage(at: Time, amount: Amount, covered: Amount, source: Option<nat>)

  /** date_trunc('day', ·) and date_trunc('month', ·). */
  datatype Calendar = Calendar(day: Time -> Time, month: Time -> Time) {
    function Start(d: Dim, now: Time): Time { if d.Tokens? then day(now) else month(now) }
    ghost predicate Valid() {
      forall d: Dim, s: Time, t: Time :: s <= t ==> Start(d, s) <= Start(d, t)
    }
  }

  datatype Caps = Caps(daily: int, monthly: real) {
    function Of(d: Dim): real { if d.Tokens? then daily as real else monthly }
  }

  datatype Policy = Policy(calendar: Calendar, caps: Caps)

  /** A reservation's id is its place in the table. */
  datatype State = State(clock: Time, reservations: seq<Reservation>, usage: seq<Usage>)

  datatype Event =
    | Reserve(now: Time, estimate: Amount, ttl: Time)
    | Release(now: Time, which: nat)
    | Settle(now: Time, id: Option<nat>, charge: Charge)
    | Record(now: Time, charge: Charge)
    | Tick(now: Time)

  // ---------------------------------------------------------------- sums

  function Sum(s: seq<real>): real {
    if s == [] then 0.0 else Sum(s[..|s| - 1]) + s[|s| - 1]
  }

  lemma SumAppend(s: seq<real>, x: real)
    ensures Sum(s + [x]) == Sum(s) + x
  {
    assert (s + [x])[..|s|] == s;
  }

  lemma {:induction false} SumUpdate(s: seq<real>, i: nat, x: real)
    requires i < |s|
    ensures Sum(s[i := x]) == Sum(s) - s[i] + x
    decreases |s|
  {
    var n := |s| - 1;
    if i == n {
      assert s[i := x][..n] == s[..n];
    } else {
      assert s[i := x][..n] == s[..n][i := x];
      SumUpdate(s[..n], i, x);
    }
  }

  lemma {:induction false} SumMonotone(s: seq<real>, t: seq<real>)
    requires |s| == |t| && forall i :: 0 <= i < |s| ==> s[i] <= t[i]
    ensures Sum(s) <= Sum(t)
    decreases |s|
  {
    if s != [] {
      SumMonotone(s[..|s| - 1], t[..|t| - 1]);
    }
  }

  lemma {:induction false} SumAdds(s: seq<real>, t: seq<real>, u: seq<real>)
    requires |s| == |t| == |u| && forall i :: 0 <= i < |s| ==> u[i] == s[i] + t[i]
    ensures Sum(u) == Sum(s) + Sum(t)
    decreases |s|
  {
    if s != [] {
      SumAdds(s[..|s| - 1], t[..|s| - 1], u[..|s| - 1]);
    }
  }

  // ---------------------------------------------------------------- the totals

  predicate Live(r: Reservation, now: Time) { r.status.Reserved? && r.expiresAt > now }

  function Hold(r: Reservation, d: Dim, now: Time): real {
    if Live(r, now) then r.estimate.Of(d) else 0.0
  }

  function Holds(rs: seq<Reservation>, d: Dim, now: Time): seq<real> {
    seq(|rs|, i requires 0 <= i < |rs| => Hold(rs[i], d, now))
  }

  /** Headroom held by reservations that are neither closed nor lapsed. */
  function Held(s: State, d: Dim, now: Time): real { Sum(Holds(s.reservations, d, now)) }

  /** A per-row quantity, summed over the usage rows of the current window. */
  function InWindow(us: seq<Usage>, f: Usage -> real, start: Time): seq<real> {
    seq(|us|, i requires 0 <= i < |us| => if us[i].at >= start then f(us[i]) else 0.0)
  }

  function Spend(d: Dim): Usage -> real { (u: Usage) => u.amount.Of(d) }

  /** The part of a charge no live reservation had set aside. */
  function Excess(d: Dim): Usage -> real { (u: Usage) => Max(0.0, u.amount.Of(d) - u.covered.Of(d)) }

  function Absorbed(d: Dim): Usage -> real { (u: Usage) => Min(u.amount.Of(d), u.covered.Of(d)) }

  function Total(p: Policy, s: State, f: Usage -> real, d: Dim, now: Time): real {
    Sum(InWindow(s.usage, f, p.calendar.Start(d, now)))
  }

  /** tokens_today / cost_month. */
  function Used(p: Policy, s: State, d: Dim, now: Time): real { Total(p, s, Spend(d), d, now) }

  /** Overshoots of estimates, settlements of lapsed reservations and unreserved records. */
  function Overshoot(p: Policy, s: State, d: Dim, now: Time): real { Total(p, s, Excess(d), d, now) }

  // ---------------------------------------------------------------- the transactions

  /** UPDATE … SET status = 'expired' WHERE status = 'reserved' AND expires_at <= now() */
  function Lapse(r: Reservation, now: Time): Reservation {
    if r.status.Reserved? && r.expiresAt <= now then r.(status := Expired) else r
  }

  function Sweep(rs: seq<Reservation>, now: Time): (swept: seq<Reservation>)
    ensures |swept| == |rs| && forall i :: 0 <= i < |rs| ==> swept[i] == Lapse(rs[i], now)
  {
    seq(|rs|, i requires 0 <= i < |rs| => Lapse(rs[i], now))
  }

  predicate NonNegative(a: Amount) { 0 <= a.tokens && 0.0 <= a.cost }

  /** projected >= cap refuses, in either dimension. */
  predicate Fits(p: Policy, s: State, d: Dim, now: Time, estimate: Amount) {
    Used(p, s, d, now) + Held(s, d, now) + estimate.Of(d) < p.caps.Of(d)
  }

  function DoReserve(p: Policy, s: State, now: Time, estimate: Amount, ttl: Time): State {
    if !NonNegative(estimate) then s
    else
      var swept := s.(reservations := Sweep(s.reservations, now));
      if Fits(p, swept, Tokens, now, estimate) && Fits(p, swept, Cost, now, estimate) then
        swept.(reservations := swept.reservations + [Reservation(estimate, now + ttl, Reserved, None, None)])
      else s   // the refusal rolls the expiry back with everything else
  }

  function DoRelease(s: State, now: Time, id: nat): State {
    if id < |s.reservations| && s.reservations[id].status.Reserved? then
      s.(reservations := s.reservations[id := s.reservations[id].(status := Released, settledAt := Some(now))])
    else s
  }

  function DoRecord(s: State, now: Time, charge: Charge): State {
    if charge.Valid() then s.(usage := s.usage + [Usage(now, charge.Metered(), Amount(0, 0.0), None)]) else s
  }

  predicate Settleable(r: Reservation) { r.status.Reserved? || r.status.Expired? }

  function DoSettle(s: State, now: Time, id: Option<nat>, charge: Charge): State {
    match id
    case None => DoRecord(s, now, charge)
    case Some(i) =>
      if i < |s.reservations| && Settleable(s.reservations[i]) && charge.Valid() then
        var r := s.reservations[i];
        var covered := if Live(r, now) then r.estimate else Amount(0, 0.0);
        s.(reservations := s.reservations[i :=
             r.(status := Settled, settledAt := Some(now), actual := Some(charge.Metered()))],
           usage := s.usage + [Usage(now, charge.Metered(), covered, Some(i))])
      else s
  }

  function Do(p: Policy, s: State, e: Event): State {
    match e
    case Reserve(now, estimate, ttl) => DoReserve(p, s, now, estimate, ttl)
    case Release(now, id) => DoRelease(s, now, id)
    case Settle(now, id, charge) => DoSettle(s, now, id, charge)
    case Record(now, charge) => DoRecord(s, now, charge)
    case Tick(_) => s
  }

  /** One transaction at its now(); the clock never runs backwards. */
  function Step(p: Policy, s: State, e: Event): State {
    if e.now < s.clock then s else Do(p, s.(clock := e.now), e)
  }

  function Play(p: Policy, s: State, es: seq<Event>): State
    decreases |es|
  {
    if es == [] then s else Play(p, Step(p, s, es[0]), es[1..])
  }

  function Empty(clock: Time): State { State(clock, [], []) }

  // ---------------------------------------------------------------- no over-commitment

  /** The tables hold only what the CHECK constraints let in. */
  predicate WellFormed(s: State) {
    && (forall i :: 0 <= i < |s.reservations| ==> NonNegative(s.reservations[i].estimate))
    && (forall i :: 0 <= i < |s.usage| ==> NonNegative(s.usage[i].amount) && NonNegative(s.usage[i].covered))
  }

  /** Spend that reservations had set aside, plus what live ones still hold. */
  function Committed(p: Policy, s: State, d: Dim, now: Time): real {
    Total(p, s, Absorbed(d), d, now) + Held(s, d, now)
  }

  predicate Bounded(p: Policy, s: State, d: Dim) {
    WellFormed(s) && Committed(p, s, d, s.clock) < p.caps.Of(d)
  }

  /** Time alone only gives headroom back: windows roll over and reservations lapse. */
  lemma TimeOnlyFrees(p: Policy, s: State, d: Dim, now: Time, later: Time)
    requires WellFormed(s) && p.calendar.Valid() && now <= later
    ensures Committed(p, s, d, later) <= Committed(p, s, d, now)
  {
    SumMonotone(Holds(s.reservations, d, later), Holds(s.reservations, d, now));
    var f := Absorbed(d);
    assert p.calendar.Start(d, now) <= p.calendar.Start(d, later);
    SumMonotone(InWindow(s.usage, f, p.calendar.Start(d, later)), InWindow(s.usage, f, p.calendar.Start(d, now)));
  }

  lemma UsedSplits(p: Policy, s: State, d: Dim, now: Time)
    ensures Used(p, s, d, now) == Total(p, s, Absorbed(d), d, now) + Overshoot(p, s, d, now)
  {
    var start := p.calendar.Start(d, now);
    SumAdds(InWindow(s.usage, Absorbed(d), start), InWindow(s.usage, Excess(d), start), InWindow(s.usage, Spend(d), start));
  }

  lemma OvershootNonNegative(p: Policy, s: State, d: Dim, now: Time)
    ensures 0.0 <= Overshoot(p, s, d, now)
  {
    var over := InWindow(s.usage, Excess(d), p.calendar.Start(d, now));
    var zero := seq(|over|, _ => 0.0);
    SumOfZeros(zero);
    SumMonotone(zero, over);
  }

  lemma {:induction false} SumOfZeros(s: seq<real>)
    requires forall i :: 0 <= i < |s| ==> s[i] == 0.0
    ensures Sum(s) == 0.0
    decreases |s|
  {
    if s != [] {
      SumOfZeros(s[..|s| - 1]);
    }
  }

  lemma SweepKeepsHeld(s: State, d: Dim, now: Time)
    ensures Held(s.(reservations := Sweep(s.reservations, now)), d, now) == Held(s, d, now)
  {
    assert Holds(Sweep(s.reservations, now), d, now) == Holds(s.reservations, d, now);
  }

  lemma HeldAfterAppend(rs: seq<Reservation>, r: Reservation, d: Dim, now: Time)
    ensures Sum(Holds(rs + [r], d, now)) == Sum(Holds(rs, d, now)) + Hold(r, d, now)
  {
    assert Holds(rs + [r], d, now) == Holds(rs, d, now) + [Hold(r, d, now)];
    SumAppend(Holds(rs, d, now), Hold(r, d, now));
  }

  lemma HeldAfterUpdate(rs: seq<Reservation>, i: nat, r: Reservation, d: Dim, now: Time)
    requires i < |rs|
    ensures Sum(Holds(rs[i := r], d, now)) == Sum(Holds(rs, d, now)) - Hold(rs[i], d, now) + Hold(r, d, now)
  {
    assert Holds(rs[i := r], d, now) == Holds(rs, d, now)[i := Hold(r, d, now)];
    SumUpdate(Holds(rs, d, now), i, Hold(r, d, now));
  }

  lemma TotalAfterAppend(us: seq<Usage>, u: Usage, f: Usage -> real, start: Time)
    ensures Sum(InWindow(us + [u], f, start)) == Sum(InWindow(us, f, start)) + (if u.at >= start then f(u) else 0.0)
  {
    var x := if u.at >= start then f(u) else 0.0;
    assert InWindow(us + [u], f, start) == InWindow(us, f, start) + [x];
    SumAppend(InWindow(us, f, start), x);
  }

  lemma ReserveKeepsBound(p: Policy, s: State, now: Time, estimate: Amount, ttl: Time, d: Dim)
    requires Bounded(p, s, d) && s.clock == now
    ensures Bounded(p, DoReserve(p, s, now, estimate, ttl), d)
  {
    var swept := s.(reservations := Sweep(s.reservations, now));
    SweepKeepsHeld(s, d, now);
    UsedSplits(p, swept, d, now);
    OvershootNonNegative(p, swept, d, now);
    HeldAfterAppend(swept.reservations, Reservation(estimate, now + ttl, Reserved, None, None), d, now);
  }

  lemma SettleKeepsBound(p: Policy, s: State, now: Time, id: Option<nat>, charge: Charge, d: Dim)
    requires Bounded(p, s, d) && s.clock == now
    ensures Bounded(p, DoSettle(s, now, id, charge), d)
  {
    var after := DoSettle(s, now, id, charge);
    if after != s {
      var u := after.usage[|s.usage|];
      TotalAfterAppend(s.usage, u, Absorbed(d), p.calendar.Start(d, now));
      if id.Some? {
        HeldAfterUpdate(s.reservations, id.value, after.reservations[id.value], d, now);
      }
    }
  }

  lemma StepKeepsBound(p: Policy, s: State, e: Event, d: Dim)
    requires Bounded(p, s, d) && p.calendar.Valid()
    ensures Bounded(p, Step(p, s, e), d)
  {
    if e.now >= s.clock {
      TimeOnlyFrees(p, s, d, s.clock, e.now);
      var at := s.(clock := e.now);
      match e
      case Reserve(now, estimate, ttl) => ReserveKeepsBound(p, at, now, estimate, ttl, d);
      case Release(now, id) =>
        if id < |s.reservations| {
          HeldAfterUpdate(s.reservations, id, DoRelease(at, now, id).reservations[id], d, now);
        }
      case Settle(now, id, charge) => SettleKeepsBound(p, at, now, id, charge, d);
      case Record(now, charge) => SettleKeepsBound(p, at, now, None, charge, d);
      case Tick(_) =>
    }
  }

  lemma {:induction false} PlayKeepsBound(p: Policy, s: State, es: seq<Event>, d: Dim)
    requires Bounded(p, s, d) && p.calendar.Valid()
    ensures Bounded(p, Play(p, s, es), d)
    decreases |es|
  {
    if es != [] {
      StepKeepsBound(p, s, es[0], d);
      PlayKeepsBound(p, Step(p, s, es[0]), es[1..], d);
    }
  }

  /**
    In every reachable state, and at every later instant before the next transaction, spend
    plus live reservations stay below the cap plus exactly the overshoot of this window;
    with no overshoot the cap is never reached.
   */
  lemma NeverOverCommitted(p: Policy, start: Time, es: seq<Event>, d: Dim, now: Time)
    requires p.calendar.Valid() && 0.0 < p.caps.Of(d)
    requires Play(p, Empty(start), es).clock <= now
    ensures var s := Play(p, Empty(start), es);
            && Used(p, s, d, now) + Held(s, d, now) < p.caps.Of(d) + Overshoot(p, s, d, now)
            && (Overshoot(p, s, d, now) == 0.0 ==> Used(p, s, d, now) + Held(s, d, now) < p.caps.Of(d))
  {
    PlayKeepsBound(p, Empty(start), es, d);
    var s := Play(p, Empty(start), es);
    TimeOnlyFrees(p, s, d, s.clock, now);
    UsedSplits(p, s, d, now);
  }

  /** There is no overshoot exactly when every charge of the window was covered by a live reservation. */
  lemma NoOvershootIff(p: Policy, s: State, d: Dim, now: Time)
    ensures Overshoot(p, s, d, now) == 0.0 <==>
            forall k :: 0 <= k < |s.usage| && s.usage[k].at >= p.calendar.Start(d, now) ==>
              s.usage[k].amount.Of(d) <= s.usage[k].covered.Of(d)
  {
    var over := InWindow(s.usage, Excess(d), p.calendar.Start(d, now));
    ZeroSumIff(over);
    assert forall k :: 0 <= k < |s.usage| ==>
      (over[k] == 0.0 <==> (s.usage[k].at >= p.calendar.Start(d, now) ==>
                              s.usage[k].amount.Of(d) <= s.usage[k].covered.Of(d)));
  }

  lemma {:induction false} ZeroSumIff(s: seq<real>)
    requires forall i :: 0 <= i < |s| ==> 0.0 <= s[i]
    ensures 0.0 <= Sum(s)
    ensures Sum(s) == 0.0 <==> forall i :: 0 <= i < |s| ==> s[i] == 0.0
    decreases |s|
  {
    if s != [] {
      ZeroSumIff(s[..|s| - 1]);
      assert forall i :: 0 <= i < |s| - 1 ==> s[i] == s[..|s| - 1][i];
    }
  }

  // ---------------------------------------------------------------- settlement and conservation

  function ActualOf(r: Reservation, d: Dim): real {
    if r.status.Settled? && r.actual.Some? then r.actual.value.Of(d) else 0.0
  }

  function Actuals(rs: seq<Reservation>, d: Dim): seq<real> {
    seq(|rs|, i requires 0 <= i < |rs| => ActualOf(rs[i], d))
  }

  function Amounts(us: seq<Usage>, d: Dim): seq<real> {
    seq(|us|, i requires 0 <= i < |us| => us[i].amount.Of(d))
  }

  function DirectOf(u: Usage, d: Dim): real { if u.source.None? then u.amount.Of(d) else 0.0 }

  /** Charges recorded without a reservation. */
  function Direct(us: seq<Usage>, d: Dim): seq<real> {
    seq(|us|, i requires 0 <= i < |us| => DirectOf(us[i], d))
  }

  /** At most one usage row per reservation, there exactly when it is settled, with its amount. */
  ghost predicate SettledOnce(s: State) {
    && (forall k :: 0 <= k < |s.usage| && s.usage[k].source.Some? ==>
          var i := s.usage[k].source.value;
          i < |s.reservations| && s.reservations[i].status.Settled? &&
          s.reservations[i].actual == Some(s.usage[k].amount))
    && (forall k, m :: 0 <= k < m < |s.usage| && s.usage[k].source.Some? ==> s.usage[k].source != s.usage[m].source)
    && (forall i :: 0 <= i < |s.reservations| && s.reservations[i].status.Settled? ==> HasUsage(s.usage, i))
  }

  ghost predicate HasUsage(us: seq<Usage>, i: nat) {
    exists k :: 0 <= k < |us| && us[k].source == Some(i)
  }

  ghost predicate Conserved(s: State, d: Dim) {
    Sum(Amounts(s.usage, d)) == Sum(Actuals(s.reservations, d)) + Sum(Direct(s.usage, d))
  }

  lemma SettleSettlesOnce(s: State, now: Time, id: Option<nat>, charge: Charge)
    requires SettledOnce(s)
    ensures SettledOnce(DoSettle(s, now, id, charge))
  {
    var t := DoSettle(s, now, id, charge);
    if t != s {
      var n := |s.usage|;
      assert t.usage[..n] == s.usage;
      assert forall k :: 0 <= k < n ==> t.usage[k] == s.usage[k];
      assert t.usage[n].source == id;
      forall i | 0 <= i < |t.reservations| && t.reservations[i].status.Settled? ensures HasUsage(t.usage, i) {
        if id != Some(i) {
          assert HasUsage(s.usage, i);
          var k :| 0 <= k < n && s.usage[k].source == Some(i);
          assert t.usage[k].source == Some(i);
        }
      }
    }
  }

  /** The usage table and the settled rows are left alone. */
  lemma QuietSettlesOnce(s: State, t: State)
    requires SettledOnce(s) && t.usage == s.usage && |s.reservations| <= |t.reservations|
    requires forall i :: 0 <= i < |s.reservations| && s.reservations[i].status.Settled? ==> t.reservations[i] == s.reservations[i]
    requires forall i :: 0 <= i < |t.reservations| && t.reservations[i].status.Settled? ==>
               i < |s.reservations| && s.reservations[i].status.Settled?
    ensures SettledOnce(t)
  {
    forall i | 0 <= i < |t.reservations| && t.reservations[i].status.Settled? ensures HasUsage(t.usage, i) {
      assert HasUsage(s.usage, i);
    }
  }

  lemma StepSettlesOnce(p: Policy, s: State, e: Event)
    requires SettledOnce(s)
    ensures SettledOnce(Step(p, s, e))
  {
    if e.now >= s.clock {
      var u := s.(clock := e.now);
      match e
      case Settle(now, id, charge) => SettleSettlesOnce(u, now, id, charge);
      case Record(now, charge) => SettleSettlesOnce(u, now, None, charge);
      case Reserve(_, _, _) => QuietSettlesOnce(s, Step(p, s, e));
      case Release(_, _) => QuietSettlesOnce(s, Step(p, s, e));
      case Tick(_) => QuietSettlesOnce(s, Step(p, s, e));
    }
  }

  /** A usage row appears: metered spend and direct records grow by what it says. */
  lemma UsageAppended(us: seq<Usage>, u: Usage, d: Dim)
    ensures Sum(Amounts(us + [u], d)) == Sum(Amounts(us, d)) + u.amount.Of(d)
    ensures Sum(Direct(us + [u], d)) == Sum(Direct(us, d)) + DirectOf(u, d)
  {
    hide Sum;
    assert Amounts(us + [u], d) == Amounts(us, d) + [u.amount.Of(d)];
    SumAppend(Amounts(us, d), u.amount.Of(d));
    assert Direct(us + [u], d) == Direct(us, d) + [DirectOf(u, d)];
    SumAppend(Direct(us, d), DirectOf(u, d));
  }

  /** A reservation that had no actual gets one. */
  lemma ActualSettled(rs: seq<Reservation>, i: nat, r: Reservation, d: Dim)
    requires i < |rs| && ActualOf(rs[i], d) == 0.0
    ensures Sum(Actuals(rs[i := r], d)) == Sum(Actuals(rs, d)) + ActualOf(r, d)
  {
    hide Sum, ActualOf;
    assert Actuals(rs[i := r], d) == Actuals(rs, d)[i := ActualOf(r, d)];
    SumUpdate(Actuals(rs, d), i, ActualOf(r, d));
  }

  lemma SettleConserves(s: State, now: Time, id: Option<nat>, charge: Charge, d: Dim)
    requires Conserved(s, d)
    ensures Conserved(DoSettle(s, now, id, charge), d)
  {
    hide Sum, Amounts, Direct, Actuals;
    var t := DoSettle(s, now, id, charge);
    if t != s {
      UsageAppended(s.usage, t.usage[|s.usage|], d);
      if id.Some? {
        ActualSettled(s.reservations, id.value, t.reservations[id.value], d);
      }
    }
  }

  lemma ReserveConserves(p: Policy, s: State, now: Time, estimate: Amount, ttl: Time, d: Dim)
    requires Conserved(s, d)
    ensures Conserved(DoReserve(p, s, now, estimate, ttl), d)
  {
    var t := DoReserve(p, s, now, estimate, ttl);
    if t != s {
      assert Actuals(t.reservations, d) == Actuals(s.reservations, d) + [0.0];
      SumAppend(Actuals(s.reservations, d), 0.0);
    }
  }

  lemma StepConserves(p: Policy, s: State, e: Event, d: Dim)
    requires Conserved(s, d)
    ensures Conserved(Step(p, s, e), d)
  {
    if e.now >= s.clock {
      var u := s.(clock := e.now);
      match e
      case Settle(now, id, charge) => SettleConserves(u, now, id, charge, d);
      case Record(now, charge) => SettleConserves(u, now, None, charge, d);
      case Reserve(now, estimate, ttl) => ReserveConserves(p, u, now, estimate, ttl, d);
      case Release(now, id) => assert Actuals(DoRelease(u, now, id).reservations, d) == Actuals(s.reservations, d);
      case Tick(_) =>
    }
  }

  /**
    Over every run: metered spend is exactly the settled actuals plus the direct records, and
    each reservation is behind at most one usage row however often its settlement is retried.
   */
  lemma {:induction false} SpendIsConserved(p: Policy, s: State, es: seq<Event>, d: Dim)
    requires SettledOnce(s) && Conserved(s, d)
    ensures SettledOnce(Play(p, s, es)) && Conserved(Play(p, s, es), d)
    decreases |es|
  {
    if es != [] {
      StepSettlesOnce(p, s, es[0]);
      StepConserves(p, s, es[0], d);
      SpendIsConserved(p, Step(p, s, es[0]), es[1..], d);
    }
  }

  /** So it is in every state a ledger can reach. */
  lemma MeteredSpendAddsUp(p: Policy, start: Time, es: seq<Event>, d: Dim)
    ensures var s := Play(p, Empty(start), es);
            && SettledOnce(s)
            && Sum(Amounts(s.usage, d)) == Sum(Actuals(s.reservations, d)) + Sum(Direct(s.usage, d))
  {
    SpendIsConserved(p, Empty(start), es, d);
  }

  /** Settled and released rows never change again, and no usage row is ever altered. */
  lemma {:induction false} ClosedForever(p: Policy, s: State, es: seq<Event>, id: nat)
    requires id < |s.reservations| && (s.reservations[id].status.Settled? || s.reservations[id].status.Released?)
    ensures var t := Play(p, s, es);
            id < |t.reservations| && t.reservations[id] == s.reservations[id] && s.usage <= t.usage
    decreases |es|
  {
    if es != [] {
      var t := Step(p, s, es[0]);
      assert s.usage <= t.usage;
      ClosedForever(p, t, es[1..], id);
    }
  }

  // ---------------------------------------------------------------- lazy against eager expiry

  /** The same ledger with an expiry job that never lags: rows lapse the moment they are due. */
  function EagerStep(p: Policy, s: State, e: Event): State {
    if e.now < s.clock then s
    else Do(p, State(e.now, Sweep(s.reservations, e.now), s.usage), e)
  }

  /** Released only after it had already lapsed. */
  predicate LateRelease(r: Reservation) {
    r.status.Released? && r.settledAt.Some? && r.expiresAt <= r.settledAt.value
  }

  /** What the eager ledger has where the lazy one has `r`. */
  function Eagerly(r: Reservation, now: Time): Reservation {
    if LateRelease(r) then r.(status := Expired, settledAt := None) else Lapse(r, now)
  }

  predicate Related(lazy: State, eager: State) {
    && lazy.clock == eager.clock && lazy.usage == eager.usage
    && |lazy.reservations| == |eager.reservations|
    && forall i :: 0 <= i < |lazy.reservations| ==>
         && Lapse(eager.reservations[i], eager.clock) == Eagerly(lazy.reservations[i], lazy.clock)
         && (lazy.reservations[i].status.Reserved? ==> lazy.reservations[i].settledAt.None?)
  }

  /** The charge the lazy ledger refuses and the eager one records. */
  predicate LostCharge(lazy: State, e: Event) {
    && e.Settle? && e.id.Some? && e.charge.Valid() && lazy.clock <= e.now
    && e.id.value < |lazy.reservations| && LateRelease(lazy.reservations[e.id.value])
  }

  predicate NoLostCharge(p: Policy, lazy: State, es: seq<Event>)
    decreases |es|
  {
    es != [] ==> !LostCharge(lazy, es[0]) && NoLostCharge(p, Step(p, lazy, es[0]), es[1..])
  }

  /** The two ledgers show the same recorded spend and the same live holds. */
  ghost predicate SameTotals(lazy: State, eager: State) {
    && lazy.usage == eager.usage
    && forall d: Dim, now: Time :: lazy.clock <= now ==> Held(lazy, d, now) == Held(eager, d, now)
  }

  ghost predicate SameTotalsThroughout(p: Policy, lazy: State, eager: State, es: seq<Event>)
    decreases |es|
  {
    && SameTotals(lazy, eager)
    && (es != [] ==> SameTotalsThroughout(p, Step(p, lazy, es[0]), EagerStep(p, eager, es[0]), es[1..]))
  }

  lemma RelatedTotals(lazy: State, eager: State)
    requires Related(lazy, eager)
    ensures SameTotals(lazy, eager)
  {
    forall d: Dim, now: Time | lazy.clock <= now ensures Held(lazy, d, now) == Held(eager, d, now) {
      forall i | 0 <= i < |lazy.reservations|
        ensures Hold(lazy.reservations[i], d, now) == Hold(eager.reservations[i], d, now)
      {
        assert Lapse(eager.reservations[i], eager.clock) == Eagerly(lazy.reservations[i], lazy.clock);
      }
      assert Holds(lazy.reservations, d, now) == Holds(eager.reservations, d, now);
    }
  }

  lemma RelatedSweep(lazy: State, eager: State, now: Time)
    requires Related(lazy, eager) && lazy.clock <= now
    ensures Related(lazy.(clock := now), State(now, Sweep(eager.reservations, now), eager.usage))
  {
    forall i | 0 <= i < |lazy.reservations|
      ensures Lapse(Sweep(eager.reservations, now)[i], now) == Eagerly(lazy.reservations[i], now)
    {
      assert Lapse(eager.reservations[i], eager.clock) == Eagerly(lazy.reservations[i], lazy.clock);
    }
  }

  lemma RelatedReserve(p: Policy, lazy: State, eager: State, now: Time, estimate: Amount, ttl: Time)
    requires Related(lazy, eager) && lazy.clock == now
    ensures Related(DoReserve(p, lazy, now, estimate, ttl), DoReserve(p, eager, now, estimate, ttl))
  {
    var l := lazy.(reservations := Sweep(lazy.reservations, now));
    var e := eager.(reservations := Sweep(eager.reservations, now));
    RelatedTotals(lazy, eager);
    forall d: Dim ensures Fits(p, l, d, now, estimate) == Fits(p, e, d, now, estimate) {
      SweepKeepsHeld(lazy, d, now);
      SweepKeepsHeld(eager, d, now);
    }
    forall i | 0 <= i < |l.reservations| ensures Lapse(e.reservations[i], now) == Eagerly(l.reservations[i], now) {
      assert Lapse(eager.reservations[i], now) == Eagerly(lazy.reservations[i], now);
    }
  }

  /** One transaction: the ledgers stay related, unless a charge is lost and their spend parts. */
  lemma StepAgreement(p: Policy, lazy: State, eager: State, e: Event)
    requires Related(lazy, eager)
    ensures !LostCharge(lazy, e) ==> Related(Step(p, lazy, e), EagerStep(p, eager, e))
    ensures LostCharge(lazy, e) ==> Step(p, lazy, e).usage != EagerStep(p, eager, e).usage
  {
    if e.now >= lazy.clock {
      RelatedSweep(lazy, eager, e.now);
      var l, g := lazy.(clock := e.now), State(e.now, Sweep(eager.reservations, e.now), eager.usage);
      assert forall i :: 0 <= i < |l.reservations| ==> g.reservations[i] == Eagerly(l.reservations[i], e.now);
      match e
      case Reserve(now, estimate, ttl) => RelatedReserve(p, l, g, now, estimate, ttl);
      case Release(now, id) =>
      case Settle(now, id, charge) =>
        if LostCharge(lazy, e) {
          assert g.reservations[id.value].status.Expired?;
          assert |DoSettle(g, now, id, charge).usage| == |g.usage| + 1;
          assert DoSettle(l, now, id, charge) == l;
        }
      case Record(now, charge) =>
      case Tick(_) =>
    }
  }

  /**
    Lazy expiry gives the totals of eager expiry at every instant of a run if and only if no
    charge is settled against a reservation that was released after it had lapsed: that
    settlement the lazy ledger refuses, and the spend goes unrecorded.
   */
  lemma {:induction false} LazyIsEagerIff(p: Policy, lazy: State, eager: State, es: seq<Event>)
    requires Related(lazy, eager)
    ensures SameTotalsThroughout(p, lazy, eager, es) <==> NoLostCharge(p, lazy, es)
    decreases |es|
  {
    RelatedTotals(lazy, eager);
    if es != [] {
      StepAgreement(p, lazy, eager, es[0]);
      if !LostCharge(lazy, es[0]) {
        LazyIsEagerIff(p, Step(p, lazy, es[0]), EagerStep(p, eager, es[0]), es[1..]);
      } else {
        assert !SameTotals(Step(p, lazy, es[0]), EagerStep(p, eager, es[0]));
      }
    }
  }

  /** The smallest such run: reserve for 30 s, release at 40 s, settle at 50 s. */
  lemma LateReleaseLosesTheCharge(p: Policy)
    requires 10.0 < p.caps.Of(Tokens) && 0.0 < p.caps.Of(Cost)
    ensures var es := [Reserve(0.0, Amount(10, 0.0), 30.0), Release(40.0, 0), Settle(50.0, Some(0), Charge(5, 5, 0.0))];
            Play(p, Empty(0.0), es).usage == [] && !NoLostCharge(p, Empty(0.0), es)
  {
    var s0 := Empty(0.0);
    var e0, e1, e2 := Reserve(0.0, Amount(10, 0.0), 30.0), Release(40.0, 0), Settle(50.0, Some(0), Charge(5, 5, 0.0));
    var es := [e0, e1, e2];
    forall d: Dim ensures Used(p, s0, d, 0.0) == 0.0 && Held(s0, d, 0.0) == 0.0 {
    }
    assert Sweep(s0.reservations, 0.0) == [];
    var s1 := Step(p, s0, e0);
    assert s1.reservations == [Reservation(Amount(10, 0.0), 30.0, Reserved, None, None)];
    var s2 := Step(p, s1, e1);
    var s3 := Step(p, s2, e2);
    assert es[1..] == [e1, e2] && [e1, e2][1..] == [e2] && [e2][1..] == [];
    assert Play(p, s2, [e2]) == s3;
    assert Play(p, s1, [e1, e2]) == s3;
    assert Play(p, s0, es) == s3;
    assert LostCharge(s2, e2);
    assert !NoLostCharge(p, s2, [e2]);
    assert !NoLostCharge(p, s1, [e1, e2]);
  }

  // ---------------------------------------------------------------- the ledger itself

  datatype ReserveResult = Admitted(id: nat) | Unmetered | NegativeEstimate | BudgetExceeded

  datatype SettleResult = Recorded | AlreadySettled | Unrecorded

  /** PostgresLedger over one tenant's tables. */
  class PostgresLedger {
    const policy: Policy
    var clock: Time
    var reservations: seq<Reservation>
    var usage: seq<Usage>
    ghost const openedAt: Time
    ghost var history: seq<Event>

    ghost predicate Valid()
      reads this
    {
      && policy.calendar.Valid() && 0.0 < policy.caps.Of(Tokens) && 0.0 < policy.caps.Of(Cost)
      && Model() == Play(policy, Empty(openedAt), history)
    }

    function Model(): State
      reads this
    {
      State(clock, reservations, usage)
    }

    constructor (policy: Policy, now: Time)
      requires policy.calendar.Valid() && 0.0 < policy.caps.Of(Tokens) && 0.0 < policy.caps.Of(Cost)
      ensures Valid() && Model() == Empty(now) && this.policy == policy
    {
      this.policy := policy;
      clock, reservations, usage := now, [], [];
      openedAt := now;
      history := [];
    }

    /** Grow the history by one transaction. */
    ghost method Log(e: Event, before: State)
      requires before == Play(policy, Empty(openedAt), history) && Model() == Step(policy, before, e)
      requires policy.calendar.Valid() && 0.0 < policy.caps.Of(Tokens) && 0.0 < policy.caps.Of(Cost)
      modifies this`history
      ensures history == old(history) + [e] && Valid()
    {
      PlayOneMore(policy, Empty(openedAt), history, e);
      history := history + [e];
    }

    /**
      With the database out of reach the call goes ahead unmetered for a task that fails open,
      and is refused otherwise; `failsOpen` is fails_open(task) and not budget_fail_closed.
     */
    method Reserve(now: Time, estimate: Amount, ttl: Time, reachable: bool, failsOpen: bool) returns (r: ReserveResult)
      requires Valid() && clock <= now
      modifies this
      ensures Valid() && history == old(history) + if reachable then [Event.Reserve(now, estimate, ttl)] else []
      ensures Model() == if reachable then Step(policy, old(Model()), Event.Reserve(now, estimate, ttl)) else old(Model())
      ensures r.NegativeEstimate? <==> !NonNegative(estimate)
      ensures r.Unmetered? <==> NonNegative(estimate) && !reachable && failsOpen
      ensures r.Admitted? ==> r.id == |old(reservations)| && |reservations| == r.id + 1
      ensures r.Admitted? ==> reservations[r.id] == Reservation(estimate, now + ttl, Reserved, None, None)
      ensures r.Admitted? <==> reachable && NonNegative(estimate) && Fits(policy, old(Model()), Tokens, now, estimate) && Fits(policy, old(Model()), Cost, now, estimate)
      ensures !r.Admitted? ==> reservations == old(reservations) && usage == old(usage)
    {
      if !reachable {
        r := if !NonNegative(estimate) then NegativeEstimate else if failsOpen then Unmetered else BudgetExceeded;
        assert history + [] == history;
        return;
      }
      ghost var before := Model();
      SweepKeepsHeld(before, Tokens, now);
      SweepKeepsHeld(before, Cost, now);
      assert forall s: State :: s.usage == usage ==> Used(policy, s, Tokens, now) == Used(policy, before, Tokens, now) && Used(policy, s, Cost, now) == Used(policy, before, Cost, now);
      clock := now;
      if estimate.tokens < 0 || estimate.cost < 0.0 {
        r := NegativeEstimate;
      } else {
        var held := reservations;
        reservations := Sweep(reservations, now);
        var projectedTokens := Used(policy, Model(), Tokens, now) + Held(Model(), Tokens, now) + estimate.Of(Tokens);
        var projectedCost := Used(policy, Model(), Cost, now) + Held(Model(), Cost, now) + estimate.Of(Cost);
        if projectedTokens >= policy.caps.Of(Tokens) || projectedCost >= policy.caps.Of(Cost) {
          reservations := held;
          r := BudgetExceeded;
        } else {
          r := Admitted(|reservations|);
          reservations := reservations + [Reservation(estimate, now + ttl, Reserved, None, None)];
        }
      }
      Log(Event.Reserve(now, estimate, ttl), before);
    }

    method Release(now: Time, id: nat)
      requires Valid() && clock <= now
      modifies this
      ensures Valid() && history == old(history) + [Event.Release(now, id)]
      ensures Model() == Step(policy, old(Model()), Event.Release(now, id))
      ensures usage == old(usage) && |reservations| == old(|reservations|)
      ensures id < |reservations| ==> !reservations[id].status.Reserved?
    {
      ghost var before := Model();
      clock := now;
      if id < |reservations| && reservations[id].status.Reserved? {
        reservations := reservations[id := reservations[id].(status := Released, settledAt := Some(now))];
      }
      Log(Event.Release(now, id), before);
    }

    /** The result only names which log line the ledger writes; settle itself never raises. */
    method Settle(now: Time, id: Option<nat>, charge: Charge) returns (r: SettleResult)
      requires Valid() && clock <= now
      modifies this
      ensures Valid() && history == old(history) + [Event.Settle(now, id, charge)]
      ensures Model() == Step(policy, old(Model()), Event.Settle(now, id, charge))
      ensures r.Recorded? <==> |usage| == old(|usage|) + 1
      ensures !r.Recorded? ==> usage == old(usage) && reservations == old(reservations)
      ensures r.AlreadySettled? <==> id.Some? && id.value < |old(reservations)| && old(reservations)[id.value].status.Settled?
    {
      ghost var before := Model();
      clock := now;
      match id {
        case None =>
          r := Append(charge, Amount(0, 0.0), None);
        case Some(i) =>
          if i >= |reservations| {
            r := Unrecorded;
          } else if Settleable(reservations[i]) {
            var covered := if Live(reservations[i], now) then reservations[i].estimate else Amount(0, 0.0);
            r := Append(charge, covered, id);
            if r.Recorded? {
              reservations := reservations[i :=
                reservations[i].(status := Settled, settledAt := Some(now), actual := Some(charge.Metered()))];
            }
          } else {
            r := if reservations[i].status.Settled? then AlreadySettled else Unrecorded;
          }
      }
      Log(Event.Settle(now, id, charge), before);
    }

    /** _insert_usage, refused by the CHECK constraints when a figure is negative. */
    method Append(charge: Charge, covered: Amount, source: Option<nat>) returns (r: SettleResult)
      modifies this`usage
      ensures r == if charge.Valid() then Recorded else Unrecorded
      ensures usage == if charge.Valid() then old(usage) + [Usage(clock, charge.Metered(), covered, source)] else old(usage)
    {
      if charge.Valid() {
        usage := usage + [Usage(clock, charge.Metered(), covered, source)];
        r := Recorded;
      } else {
        r := Unrecorded;
      }
    }

    method Record(now: Time, charge: Charge)
      requires Valid() && clock <= now
      modifies this
      ensures Valid() && history == old(history) + [Event.Record(now, charge)]
      ensures Model() == Step(policy, old(Model()), Event.Record(now, charge))
      ensures reservations == old(reservations)
    {
      ghost var before := Model();
      clock := now;
      var _ := Append(charge, Amount(0, 0.0), None);
      Log(Event.Record(now, charge), before);
    }

    /** What an operator reads is always below the cap plus the overshoot. */
    method Status(d: Dim, now: Time) returns (used: real, reserved: real)
      requires Valid() && clock <= now
      ensures used == Used(policy, Model(), d, now) && reserved == Held(Model(), d, now)
      ensures used + reserved < policy.caps.Of(d) + Overshoot(policy, Model(), d, now)
    {
      used, reserved := Used(policy, Model(), d, now), Held(Model(), d, now);
      NeverOverCommitted(policy, openedAt, history, d, now);
    }
  }

  lemma {:induction false} PlayConcat(p: Policy, s: State, es: seq<Event>, fs: seq<Event>)
    ensures Play(p, s, es + fs) == Play(p, Play(p, s, es), fs)
    decreases |es|
  {
    if es == [] {
      assert es + fs == fs;
    } else {
      assert (es + fs)[1..] == es[1..] + fs;
      PlayConcat(p, Step(p, s, es[0]), es[1..], fs);
    }
  }

  lemma PlayOneMore(p: Policy, s: State, es: seq<Event>, e: Event)
    ensures Play(p, s, es + [e]) == Step(p, Play(p, s, es), e)
  {
    PlayConcat(p, s, es, [e]);
    assert [e][1..] == [];
  }
}
