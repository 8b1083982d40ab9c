/**
  The in-process fallback of the fixed-window limiter (platform_core/security/rate_limit.py).
 */
module RateLimit {
  import opened Prelude

  /** bucket, window and subject digest: the window length is part of the key. */
  type Key = string

  datatype Entry = Entry(count: nat, expires: Time)

  type Table = map<Key, Entry>

  datatype LimitDecision = LimitDecision(allowed: bool, limit: nat, remaining: nat, retryAfter: nat)

  datatype Call = Call(key: Key, now: Time, limit: nat, window: nat)

  /** The size beyond which expired entries are dropped. */
  const PURGE_ABOVE: nat := 10_000

  function Decision(count: nat, ttl: int, limit: nat, window: nat): LimitDecision {
    var wait := if ttl > 0 then ttl else window;
    LimitDecision(count <= limit, limit, if limit > count then limit - count else 0,
                  if count > limit then (if wait > 1 then wait else 1) else 0)
  }

  predicate Live(t: Table, key: Key, now: Time) {
    key in t && t[key].expires > now
  }

  /** The entry this call counts into, with the call counted. */
  function Counted(t: Table, c: Call): Entry {
    if Live(t, c.key, c.now) then t[c.key].(count := t[c.key].count + 1)
    else Entry(1, c.now + c.window as real)
  }

  function Purged(t: Table, now: Time): Table {
    map k | k in t && t[k].expires > now :: t[k]
  }

  /** The table after a call; `cap` is None for a limiter that never purges. */
  function After(t: Table, c: Call, cap: Option<nat>): Table {
    var counted := t[c.key := Counted(t, c)];
    if cap.Some? && |counted| > cap.value then Purged(counted, c.now) else counted
  }

  function Answer(t: Table, c: Call): LimitDecision {
    var e := Counted(t, c);
    var left := (e.expires - c.now).Floor;
    Decision(e.count, if left > 1 then left else 1, c.limit, c.window)
  }

  function Run(t: Table, calls: seq<Call>, cap: Option<nat>): Table
    decreases |calls|
  {
    if calls == [] then t else Run(After(t, calls[0], cap), calls[1..], cap)
  }

  function Answers(t: Table, calls: seq<Call>, cap: Option<nat>): (ds: seq<LimitDecision>)
    ensures |ds| == |calls|
    decreases |calls|
  {
    if calls == [] then [] else [Answer(t, calls[0])] + Answers(After(t, calls[0], cap), calls[1..], cap)
  }

  /** Clock reads never go backwards. */
  predicate Monotone(calls: seq<Call>) {
    forall i, j :: 0 <= i < j < |calls| ==> calls[i].now <= calls[j].now
  }

  // ---------------------------------------------------------------- purging changes nothing

  /** Two tables that agree on every entry still live at `now`. */
  ghost predicate AgreeFrom(t: Table, u: Table, now: Time) {
    forall k: Key :: Live(t, k, now) || Live(u, k, now) ==> k in t && k in u && t[k] == u[k]
  }

  lemma AgreementLasts(t: Table, u: Table, c: Call, cap: Option<nat>, now: Time)
    requires AgreeFrom(t, u, now) && now <= c.now
    ensures Answer(t, c) == Answer(u, c)
    ensures AgreeFrom(After(t, c, cap), After(u, c, None), c.now)
  {
    assert Live(t, c.key, c.now) ==> Live(t, c.key, now);
    assert Live(u, c.key, c.now) ==> Live(u, c.key, now);
    var s := t[c.key := Counted(t, c)];
    forall k: Key | Live(After(t, c, cap), k, c.now) || Live(After(u, c, None), k, c.now)
      ensures k in After(t, c, cap) && k in After(u, c, None) && After(t, c, cap)[k] == After(u, c, None)[k]
    {
      if k != c.key {
        assert Live(t, k, c.now) ==> Live(t, k, now);
        assert Live(u, k, c.now) ==> Live(u, k, now);
      }
      assert k in s && s[k].expires > c.now;
    }
  }

  lemma {:induction false} AgreeingTablesAnswerAlike(t: Table, u: Table, calls: seq<Call>, cap: Option<nat>, now: Time)
    requires AgreeFrom(t, u, now) && Monotone(calls) && (calls != [] ==> now <= calls[0].now)
    ensures Answers(t, calls, cap) == Answers(u, calls, None)
    decreases |calls|
  {
    if calls != [] {
      AgreementLasts(t, u, calls[0], cap, now);
      AgreeingTablesAnswerAlike(After(t, calls[0], cap), After(u, calls[0], None), calls[1..], cap, calls[0].now);
    }
  }

  /** Dropping expired entries, at whatever size, never changes a decision. */
  lemma PurgingIsInvisible(calls: seq<Call>, cap: nat)
    requires Monotone(calls)
    ensures Answers(map[], calls, Some(cap)) == Answers(map[], calls, None)
  {
    if calls != [] {
      AgreeingTablesAnswerAlike(map[], map[], calls, Some(cap), calls[0].now);
    }
  }

  // ---------------------------------------------------------------- how many get through

  predicate Within(c: Call, key: Key, from: Time, until: Time) {
    c.key == key && from <= c.now < until
  }

  /** Calls of `key` in [from, until) that were allowed. */
  function Admitted(calls: seq<Call>, ds: seq<LimitDecision>, key: Key, from: Time, until: Time): nat
    requires |ds| == |calls|
    decreases |calls|
  {
    if calls == [] then 0
    else (if Within(calls[0], key, from, until) && ds[0].allowed then 1 else 0)
         + Admitted(calls[1..], ds[1..], key, from, until)
  }

  /** Calls of `key` in [from, until), allowed or not. */
  function Asked(calls: seq<Call>, key: Key, from: Time, until: Time): nat
    decreases |calls|
  {
    if calls == [] then 0
    else (if Within(calls[0], key, from, until) then 1 else 0) + Asked(calls[1..], key, from, until)
  }

  /** One limit and one window length per key. */
  predicate Uniform(calls: seq<Call>, key: Key, limit: nat, window: nat) {
    forall i :: 0 <= i < |calls| && calls[i].key == key ==> calls[i].limit == limit && calls[i].window == window
  }

  function Spent(e: Entry, limit: nat): nat {
    if e.count <= limit then e.count else limit
  }

  /** The most that can be admitted with an untouched budget: the first call of a window sits at its start. */
  function Most(limit: nat): nat {
    if limit == 0 then 0 else 2 * limit - 1
  }

  /** How many more calls of `key` can be admitted in [from, from + window) once the table is `t`. */
  function Room(t: Table, key: Key, from: Time, limit: nat, window: nat): int {
    if key !in t || t[key].expires <= from then Most(limit)
    else
      var opening := t[key].expires - window as real;
      if opening < from then 2 * limit - Spent(t[key], limit)
      else if opening < from + window as real then limit - Spent(t[key], limit)
      else 0
  }

  /** The entry has been counted into, and its window had begun by `now`. */
  predicate Opened(t: Table, key: Key, window: nat, now: Time) {
    key in t ==> t[key].count > 0 && t[key].expires - window as real <= now
  }

  lemma RoomShrinks(t: Table, c: Call, key: Key, from: Time, limit: nat, window: nat)
    requires c.key == key ==> c.limit == limit && c.window == window
    requires Opened(t, key, window, c.now)
    ensures var u := After(t, c, None);
            && Opened(u, key, window, c.now)
            && (if Within(c, key, from, from + window as real) && Answer(t, c).allowed then 1 else 0)
               + Room(u, key, from, limit, window) <= Room(t, key, from, limit, window)
  {
  }

  lemma {:induction false} AdmittedWithinRoom(t: Table, calls: seq<Call>, key: Key, from: Time, limit: nat, window: nat)
    requires Uniform(calls, key, limit, window) && Monotone(calls)
    requires calls != [] ==> Opened(t, key, window, calls[0].now)
    ensures Admitted(calls, Answers(t, calls, None), key, from, from + window as real)
            <= Room(t, key, from, limit, window)
    decreases |calls|
  {
    if calls != [] {
      RoomShrinks(t, calls[0], key, from, limit, window);
      AdmittedWithinRoom(After(t, calls[0], None), calls[1..], key, from, limit, window);
      assert Answers(t, calls, None)[1..] == Answers(After(t, calls[0], None), calls[1..], None);
    }
  }

  /**
    In any half-open interval as long as the window, wherever it starts, at most
    2 * limit - 1 calls of a key are admitted, and none when the limit is 0.
   */
  lemma AtMostTwiceTheLimit(calls: seq<Call>, key: Key, from: Time, limit: nat, window: nat)
    requires Monotone(calls) && Uniform(calls, key, limit, window)
    ensures Admitted(calls, Answers(map[], calls, Some(PURGE_ABOVE)), key, from, from + window as real) <= Most(limit)
  {
    PurgingIsInvisible(calls, PURGE_ABOVE);
    AdmittedWithinRoom(map[], calls, key, from, limit, window);
  }

  /** The bound is reached: with a limit of 2, three calls within 10 seconds. */
  lemma TheBoundIsReached(key: Key)
    ensures var calls := [Call(key, 0.0, 2, 10), Call(key, 9.0, 2, 10), Call(key, 10.0, 2, 10), Call(key, 10.0, 2, 10)];
            Monotone(calls) && Uniform(calls, key, 2, 10) &&
            Admitted(calls, Answers(map[], calls, None), key, 1.0, 11.0) == Most(2) == 3
  {
    var c0, c1, c2 := Call(key, 0.0, 2, 10), Call(key, 9.0, 2, 10), Call(key, 10.0, 2, 10);
    var t1 := After(map[], c0, None);
    var t2 := After(t1, c1, None);
    var t3 := After(t2, c2, None);
    assert t1[key] == Entry(1, 10.0) && t2[key] == Entry(2, 10.0) && t3[key] == Entry(1, 20.0);
    assert [c0, c1, c2, c2][1..] == [c1, c2, c2] && [c1, c2, c2][1..] == [c2, c2] && [c2, c2][1..] == [c2] && [c2][1..] == [];
    var d3 := Answers(t3, [c2], None);
    assert Admitted([c2], d3, key, 1.0, 11.0) == 1;
    var d2 := Answers(t2, [c2, c2], None);
    assert d2[1..] == d3 && Admitted([c2, c2], d2, key, 1.0, 11.0) == 2;
    var d1 := Answers(t1, [c1, c2, c2], None);
    assert d1[1..] == d2 && Admitted([c1, c2, c2], d1, key, 1.0, 11.0) == 3;
    var d0 := Answers(map[], [c0, c1, c2, c2], None);
    assert d0[1..] == d1;
  }

  lemma {:induction false} OpenWindowCounts(t: Table, calls: seq<Call>, key: Key, from: Time, limit: nat, window: nat)
    requires Uniform(calls, key, limit, window) && Monotone(calls) && (calls != [] ==> from <= calls[0].now)
    requires key in t && t[key].count > 0 && t[key].expires == from + window as real
    ensures Admitted(calls, Answers(t, calls, None), key, from, from + window as real)
            == Least(Asked(calls, key, from, from + window as real), limit - Spent(t[key], limit))
    decreases |calls|
  {
    if calls != [] {
      var u := After(t, calls[0], None);
      assert Answers(t, calls, None)[1..] == Answers(u, calls[1..], None);
      if calls[0].key == key && calls[0].now >= from + window as real {
        NothingLater(calls, Answers(t, calls, None), key, from, from + window as real);
      } else {
        OpenWindowCounts(u, calls[1..], key, from, limit, window);
      }
    }
  }

  function Least(a: nat, b: nat): nat { if a <= b then a else b }

  lemma {:induction false} NothingLater(calls: seq<Call>, ds: seq<LimitDecision>, key: Key, from: Time, until: Time)
    requires |ds| == |calls| && Monotone(calls) && (calls != [] ==> until <= calls[0].now)
    ensures Admitted(calls, ds, key, from, until) == Asked(calls, key, from, until) == 0
    decreases |calls|
  {
    if calls != [] {
      NothingLater(calls[1..], ds[1..], key, from, until);
    }
  }

  /**
    Each window admits exactly its first `limit` calls: from a call that finds no live entry
    to the end of the window it opens, the number admitted is the smaller of the limit and
    the number that asked.
   */
  lemma WindowAdmitsExactlyTheLimit(t: Table, calls: seq<Call>, limit: nat, window: nat)
    requires calls != [] && Monotone(calls) && Uniform(calls, calls[0].key, limit, window) && window > 0
    requires !Live(t, calls[0].key, calls[0].now)
    ensures var key, from := calls[0].key, calls[0].now;
            Admitted(calls, Answers(t, calls, None), key, from, from + window as real)
            == Least(Asked(calls, key, from, from + window as real), limit)
  {
    var u := After(t, calls[0], None);
    assert Answers(t, calls, None)[1..] == Answers(u, calls[1..], None);
    OpenWindowCounts(u, calls[1..], calls[0].key, calls[0].now, limit, window);
  }

  // ---------------------------------------------------------------- the limiter itself

  class RateLimiter {
    var local: Table
    ghost var calls: seq<Call>
    ghost var answers: seq<LimitDecision>

    ghost predicate Valid()
      reads this
    {
      && Monotone(calls)
      && local == Run(map[], calls, Some(PURGE_ABOVE))
      && answers == Answers(map[], calls, Some(PURGE_ABOVE))
    }

    constructor ()
      ensures Valid() && calls == []
    {
      local, calls, answers := map[], [], [];
    }

    /** _check_local, at a clock read that is no earlier than the last. */
    method CheckLocal(key: Key, limit: nat, window: nat, now: Time) returns (d: LimitDecision)
      requires Valid() && (calls != [] ==> calls[|calls| - 1].now <= now)
      modifies this
      ensures Valid() && calls == old(calls) + [Call(key, now, limit, window)] && answers == old(answers) + [d]
      ensures answers == Answers(map[], calls, None)
    {
      ghost var c := Call(key, now, limit, window);
      AnswersOneMore(map[], calls, c, Some(PURGE_ABOVE));
      hide Run, Answers;
      ghost var before := local;
      var entry := if key in local then local[key] else Entry(0, now + window as real);
      if entry.expires <= now {
        entry := Entry(0, now + window as real);
      }
      entry := entry.(count := entry.count + 1);
      local := local[key := entry];
      if |local| > PURGE_ABOVE {
        local := Purged(local, now);
      }
      var left := (entry.expires - now).Floor;
      d := Decision(entry.count, if left > 1 then left else 1, limit, window);
      assert local == After(before, c, Some(PURGE_ABOVE)) && d == Answer(before, c);
      calls, answers := calls + [c], answers + [d];
      PurgingIsInvisible(calls, PURGE_ABOVE);
    }
  }

  lemma {:induction false} AnswersOneMore(t: Table, calls: seq<Call>, c: Call, cap: Option<nat>)
    ensures Run(t, calls + [c], cap) == After(Run(t, calls, cap), c, cap)
    ensures Answers(t, calls + [c], cap) == Answers(t, calls, cap) + [Answer(Run(t, calls, cap), c)]
    decreases |calls|
  {
    if calls == [] {
      assert [c][1..] == [] && calls + [c] == [c];
    } else {
      assert (calls + [c])[1..] == calls[1..] + [c];
      AnswersOneMore(After(t, calls[0], cap), calls[1..], c, cap);
    }
  }
}
