/**
  The builds of one collection (platform_core/corpus/builds.py) and the reindex workload
  that drives them (workloads/reindex/workload.py).
 */
module Builds {
  import opened Prelude

  type Version = nat
  type ChunkId = string

  datatype Status = Building | Live | Superseded | Failed

  datatype Build = Build(status: Status, chunkCount: Option<nat>, error: Option<string>)

  /** collection_build rows by version, and chunk rows by build_version. */
  datatype State = State(builds: map<Version, Build>, chunks: map<Version, set<ChunkId>>)

  datatype Op =
    | Begin
    | Write(version: Version, id: ChunkId)
    | Promote(version: Version)
    | Fail(version: Version, error: string)
    | Reap

  function ChunksOf(s: State, v: Version): set<ChunkId> {
    if v in s.chunks then s.chunks[v] else {}
  }

  predicate IsLive(s: State, v: Version) {
    v in s.builds && s.builds[v].status.Live?
  }

  // ---------------------------------------------------------------- the transactions

  lemma {:induction false} MaxExists(s: set<Version>)
    requires s != {}
    ensures exists m :: m in s && forall x :: x in s ==> x <= m
    decreases s
  {
    var x :| x in s;
    if s != {x} {
      MaxExists(s - {x});
      var m :| m in s - {x} && forall y :: y in s - {x} ==> y <= m;
      var top := if x <= m then m else x;
      forall y | y in s ensures y <= top {
        assert y == x || y in s - {x};
      }
      assert top in s;
    }
  }

  /** COALESCE(max(…), 0) */
  function Highest(s: set<Version>): (m: Version)
    ensures forall x :: x in s ==> x <= m
    ensures s != {} ==> m in s
  {
    if s == {} then 0
    else
      MaxExists(s);
      var m :| m in s && forall x :: x in s ==> x <= m;
      m
  }

  function NextVersion(s: State): Version { Highest(s.builds.Keys) + 1 }

  function DoBegin(s: State): State {
    s.(builds := s.builds[NextVersion(s) := Build(Building, None, None)])
  }

  /** INSERT INTO chunk … ON CONFLICT DO NOTHING */
  function DoWrite(s: State, v: Version, id: ChunkId): State {
    s.(chunks := s.chunks[v := ChunksOf(s, v) + {id}])
  }

  function Demoted(builds: map<Version, Build>): map<Version, Build> {
    map v | v in builds :: if builds[v].status.Live? then builds[v].(status := Superseded) else builds[v]
  }

  predicate Promotable(s: State, v: Version) { ChunksOf(s, v) != {} }

  /** The guard looks at the chunks only; the last UPDATE matches no row when the build is gone. */
  function DoPromote(s: State, v: Version): State {
    if !Promotable(s, v) then s
    else
      var demoted := Demoted(s.builds);
      s.(builds := if v in demoted then demoted[v := demoted[v].(status := Live, chunkCount := Some(|ChunksOf(s, v)|))]
                   else demoted)
  }

  /** The DELETE asks nothing about the status; only the UPDATE does. */
  function DoFail(s: State, v: Version, error: string): State {
    State(if v in s.builds && s.builds[v].status.Building?
          then s.builds[v := s.builds[v].(status := Failed, error := Some(error))] else s.builds,
          s.chunks - {v})
  }

  function LiveVersions(s: State): set<Version> {
    set v | v in s.builds && IsLive(s, v)
  }

  /** Builds once served whose version is below the live one. */
  function Predecessors(s: State, live: Version): set<Version> {
    set v | v in s.builds && v < live && (s.builds[v].status.Live? || s.builds[v].status.Superseded?)
  }

  function Kept(s: State, live: Version): set<Version> {
    if Predecessors(s, live) == {} then {live} else {live, Highest(Predecessors(s, live))}
  }

  function DoReap(s: State): State {
    if LiveVersions(s) == {} then s
    else
      var doomed := s.builds.Keys - Kept(s, Highest(LiveVersions(s)));
      State(s.builds - doomed, s.chunks - doomed)
  }

  function Step(s: State, op: Op): State {
    match op
    case Begin => DoBegin(s)
    case Write(v, id) => DoWrite(s, v, id)
    case Promote(v) => DoPromote(s, v)
    case Fail(v, error) => DoFail(s, v, error)
    case Reap => DoReap(s)
  }

  function Play(s: State, ops: seq<Op>): State
    decreases |ops|
  {
    if ops == [] then s else Play(Step(s, ops[0]), ops[1..])
  }

  // ---------------------------------------------------------------- what readers see

  /** The live version with its chunks: what every read resolves to. */
  function View(s: State): set<(Version, set<ChunkId>)> {
    set v | v in LiveVersions(s) :: (v, ChunksOf(s, v))
  }

  ghost predicate OneLive(s: State) {
    forall v, w :: IsLive(s, v) && IsLive(s, w) ==> v == w
  }

  lemma ViewOf(s: State, v: Version)
    requires OneLive(s) && IsLive(s, v)
    ensures View(s) == {(v, ChunksOf(s, v))} && LiveVersions(s) == {v}
  {
    assert forall w :: w in LiveVersions(s) ==> IsLive(s, w);
    assert LiveVersions(s) == {v};
  }

  lemma StepKeepsOneLive(s: State, op: Op)
    requires OneLive(s)
    ensures OneLive(Step(s, op))
  {
    var t := Step(s, op);
    forall v, w | IsLive(t, v) && IsLive(t, w) ensures v == w {
      assert (IsLive(s, v) || op == Promote(v)) && (IsLive(s, w) || op == Promote(w));
    }
  }

  /** At most one build is live, whatever happens. */
  lemma {:induction false} OneLiveThroughout(s: State, ops: seq<Op>)
    requires OneLive(s)
    ensures OneLive(Play(s, ops))
    decreases |ops|
  {
    if ops != [] {
      StepKeepsOneLive(s, ops[0]);
      OneLiveThroughout(Step(s, ops[0]), ops[1..]);
    }
  }

  /** The operations that reach into the build being served. */
  predicate TouchesLive(s: State, op: Op) {
    match op
    case Fail(v, _) => IsLive(s, v) && ChunksOf(s, v) != {}
    case Write(v, id) => IsLive(s, v) && id !in ChunksOf(s, v)
    case _ => false
  }

  lemma SameViewIff(s: State, t: State, v: Version)
    requires OneLive(s) && IsLive(s, v) && LiveVersions(t) == LiveVersions(s)
    ensures View(t) == View(s) <==> ChunksOf(t, v) == ChunksOf(s, v)
  {
    ViewOf(s, v);
    assert LiveVersions(t) == {v};
    assert View(t) == {(v, ChunksOf(t, v))};
    assert (v, ChunksOf(t, v)) in View(t) && (v, ChunksOf(s, v)) in View(s);
  }

  lemma LiveUntouched(s: State, op: Op)
    requires OneLive(s) && !op.Promote?
    ensures LiveVersions(Step(s, op)) == LiveVersions(s)
  {
    if op.Reap? && LiveVersions(s) != {} {
      var live := Highest(LiveVersions(s));
      assert forall v :: v in LiveVersions(s) ==> IsLive(s, v) && v == live;
    }
  }

  /** Only promote changes what readers see, unless a build is failed, or written to, while it is live. */
  lemma ViewChangesOnlyAtPromote(s: State, op: Op)
    requires OneLive(s) && !op.Promote?
    ensures View(Step(s, op)) == View(s) <==> !TouchesLive(s, op)
  {
    var t := Step(s, op);
    LiveUntouched(s, op);
    if TouchesLive(s, op) {
      assert op.version in LiveVersions(s);
      SameViewIff(s, t, op.version);
    } else if LiveVersions(s) == {} {
      assert View(s) == {} && View(t) == {};
    } else {
      var v :| v in LiveVersions(s);
      assert IsLive(s, v);
      SameViewIff(s, t, v);
    }
  }

  /** A promotion serves exactly the promoted build — or nothing at all, if its row had been reaped. */
  lemma PromotionServes(s: State, v: Version)
    requires OneLive(s)
    ensures !Promotable(s, v) ==> DoPromote(s, v) == s
    ensures Promotable(s, v) && v in s.builds ==> View(DoPromote(s, v)) == {(v, ChunksOf(s, v))}
    ensures Promotable(s, v) ==> (View(DoPromote(s, v)) != {} <==> v in s.builds)
  {
    var t := DoPromote(s, v);
    if Promotable(s, v) {
      if v in s.builds {
        ViewOf(t, v);
      } else {
        assert LiveVersions(t) == {};
      }
    }
  }

  /** The served build has chunks. */
  ghost predicate Serving(s: State) {
    exists v :: IsLive(s, v) && ChunksOf(s, v) != {}
  }

  predicate Careful(s: State, op: Op) {
    match op
    case Promote(v) => Promotable(s, v) ==> v in s.builds
    case Fail(v, _) => !IsLive(s, v)
    case _ => true
  }

  predicate CarefulRun(s: State, ops: seq<Op>)
    decreases |ops|
  {
    ops != [] ==> Careful(s, ops[0]) && CarefulRun(Step(s, ops[0]), ops[1..])
  }

  ghost predicate ServingThroughout(s: State, ops: seq<Op>)
    decreases |ops|
  {
    Serving(s) && (ops != [] ==> ServingThroughout(Step(s, ops[0]), ops[1..]))
  }

  /** One operation leaves a served collection served exactly when it is careful. */
  lemma StaysServedIff(s: State, op: Op)
    requires OneLive(s) && Serving(s)
    ensures Serving(Step(s, op)) <==> Careful(s, op)
  {
    var t := Step(s, op);
    var v :| IsLive(s, v) && ChunksOf(s, v) != {};
    if op.Promote? {
      PromotionServes(s, op.version);
      if Promotable(s, op.version) {
        if op.version in s.builds {
          assert IsLive(t, op.version) && ChunksOf(t, op.version) != {};
        } else {
          assert forall w :: w in t.builds ==> !t.builds[w].status.Live?;
        }
      } else {
        assert t == s;
      }
    } else {
      LiveUntouched(s, op);
      assert v in LiveVersions(t) && IsLive(t, v);
      if op.Fail? && op.version == v {
        assert ChunksOf(t, v) == {};
        assert forall w :: IsLive(t, w) ==> w in LiveVersions(s) && IsLive(s, w);
      } else {
        assert op.Reap? ==> v in Kept(s, Highest(LiveVersions(s)));
        assert ChunksOf(s, v) <= ChunksOf(t, v);
      }
    }
  }

  /** Over a whole run, a collection never goes dark if and only if every step is careful. */
  lemma {:induction false} NeverDarkIff(s: State, ops: seq<Op>)
    requires OneLive(s) && Serving(s)
    ensures ServingThroughout(s, ops) <==> CarefulRun(s, ops)
    decreases |ops|
  {
    if ops != [] {
      StaysServedIff(s, ops[0]);
      StepKeepsOneLive(s, ops[0]);
      if Careful(s, ops[0]) {
        NeverDarkIff(Step(s, ops[0]), ops[1..]);
      }
    }
  }

  lemma TwoAtMost(s: set<Version>, a: Version, b: Version)
    requires s <= {a, b}
    ensures |s| <= 2
  {
    if a in s {
      assert s == {a} + (s - {a});
      assert s - {a} <= {b};
      if b in s - {a} {
        assert s - {a} == {b};
      } else {
        assert s - {a} == {};
      }
    } else if b in s {
      assert s == {b};
    } else {
      assert s == {};
    }
  }

  /**
    After a reap with a live build v, the builds are v and the newest once-served build below
    it; both keep their chunks, and no row of any other build is left.
   */
  lemma ReapKeepsTwo(s: State, v: Version)
    requires OneLive(s) && IsLive(s, v)
    ensures var t := DoReap(s);
            && |t.builds.Keys| <= 2 && v in t.builds && View(t) == View(s)
            && (forall w :: w in t.builds ==> t.builds[w] == s.builds[w] && ChunksOf(t, w) == ChunksOf(s, w))
            && (forall w :: w in t.builds && w != v ==>
                  w in Predecessors(s, v) && forall x :: x in Predecessors(s, v) ==> x <= w)
            && (Predecessors(s, v) != {} ==> exists w :: w in t.builds && w in Predecessors(s, v))
            && (forall w :: w in s.builds && w !in t.builds ==> ChunksOf(t, w) == {})
  {
    ViewOf(s, v);
    var t := DoReap(s);
    assert Highest(LiveVersions(s)) == v;
    var p := Highest(Predecessors(s, v));
    assert t.builds.Keys <= {v, p};
    TwoAtMost(t.builds.Keys, v, p);
    ViewChangesOnlyAtPromote(s, Reap);
    if Predecessors(s, v) != {} {
      assert p in Predecessors(s, v) && p in t.builds;
    }
  }

  // ---------------------------------------------------------------- reap as several statements

  /** The DELETEs of reap, on tables that may have moved since its SELECTs chose what to keep. */
  function FinishReap(t: State, keep: set<Version>, doomed: set<Version>): State {
    State(t.builds - (t.builds.Keys - keep), t.chunks - doomed)
  }

  /** With nothing in between, the statements are the one step of DoReap. */
  lemma UninterruptedReap(s: State, v: Version)
    requires OneLive(s) && IsLive(s, v)
    ensures FinishReap(s, Kept(s, v), s.builds.Keys - Kept(s, v)) == DoReap(s)
  {
    ViewOf(s, v);
    HighestIs({v}, v);
  }

  /**
    Each statement of reap sees its own snapshot. If one operation commits between its SELECTs
    and its DELETEs, a build is still served afterwards unless that operation promotes a build
    reap has decided against: then the newly live build is deleted.
   */
  lemma TornReapIff(s: State, v: Version, op: Op)
    requires OneLive(s) && IsLive(s, v)
    ensures var after := FinishReap(Step(s, op), Kept(s, v), s.builds.Keys - Kept(s, v));
            View(after) == {} <==> op.Promote? && Promotable(s, op.version) && op.version !in Kept(s, v)
  {
    var t := Step(s, op);
    var after := FinishReap(t, Kept(s, v), s.builds.Keys - Kept(s, v));
    ViewEmptyIff(after);
    if op.Promote? && Promotable(s, op.version) {
      assert forall w :: IsLive(t, w) ==> w == op.version;
      if op.version in Kept(s, v) {
        assert op.version in s.builds && IsLive(after, op.version);
      }
    } else {
      ViewOf(s, v);
      if !op.Promote? {
        LiveUntouched(s, op);
      }
      assert v in LiveVersions(s);
      assert v in LiveVersions(t) && IsLive(after, v);
    }
  }

  lemma ViewEmptyIff(s: State)
    ensures View(s) == {} <==> forall w :: !IsLive(s, w)
  {
    if w :| IsLive(s, w) {
      assert w in LiveVersions(s) && (w, ChunksOf(s, w)) in View(s);
    }
  }

  lemma HighestIs(s: set<Version>, m: Version)
    requires m in s && forall x :: x in s ==> x <= m
    ensures Highest(s) == m
  {
  }

  // ---------------------------------------------------------------- stray chunks

  /** No chunk stands under a version that has no build row. */
  ghost predicate Clean(s: State) {
    forall v :: v !in s.builds ==> ChunksOf(s, v) == {}
  }

  /** A chunk arrives for a version whose row is gone, or never was: nothing in the schema forbids it. */
  predicate StrayWrite(s: State, op: Op) {
    op.Write? && op.version !in s.builds
  }

  lemma StepKeepsCleanIff(s: State, op: Op)
    requires Clean(s)
    ensures Clean(Step(s, op)) <==> !StrayWrite(s, op)
  {
    var t := Step(s, op);
    if StrayWrite(s, op) {
      assert op.id in ChunksOf(t, op.version) && op.version !in t.builds;
    } else {
      forall v | v !in t.builds ensures ChunksOf(t, v) == {} {
        if v !in s.builds {
          assert ChunksOf(s, v) == {};
        }
      }
    }
  }

  predicate NoStrayWrite(s: State, ops: seq<Op>)
    decreases |ops|
  {
    ops != [] ==> !StrayWrite(s, ops[0]) && NoStrayWrite(Step(s, ops[0]), ops[1..])
  }

  ghost predicate CleanThroughout(s: State, ops: seq<Op>)
    decreases |ops|
  {
    Clean(s) && (ops != [] ==> CleanThroughout(Step(s, ops[0]), ops[1..]))
  }

  /** Over a whole run, no version number is ever reused with chunks left under it iff no write is stray. */
  lemma {:induction false} CleanIff(s: State, ops: seq<Op>)
    requires Clean(s)
    ensures CleanThroughout(s, ops) <==> NoStrayWrite(s, ops)
    decreases |ops|
  {
    if ops != [] {
      StepKeepsCleanIff(s, ops[0]);
      if !StrayWrite(s, ops[0]) {
        CleanIff(Step(s, ops[0]), ops[1..]);
      }
    }
  }

  // ---------------------------------------------------------------- the reindex workload

  /** Where an exception, if any, leaves workloads/reindex/workload.py's try block. */
  datatype Ending = Done | RaisedBeforePromote | RaisedInReap | RaisedAfterReap

  function Writes(v: Version, ids: seq<ChunkId>): seq<Op> {
    seq(|ids|, i requires 0 <= i < |ids| => Write(v, ids[i]))
  }

  function Ids(ids: seq<ChunkId>): set<ChunkId> { set id | id in ids }

  /** What a run has under its version when it comes to promote: its writes and whatever was left there. */
  function Gathered(s: State, ids: seq<ChunkId>): set<ChunkId> { ChunksOf(s, NextVersion(s)) + Ids(ids) }

  /** The operations one run performs from state s, in order; promote refuses when there is no chunk. */
  function ReindexOps(s: State, ids: seq<ChunkId>, ending: Ending): seq<Op> {
    var v := NextVersion(s);
    [Begin] + Writes(v, ids) +
    (if ending.RaisedBeforePromote? || Gathered(s, ids) == {} then [Fail(v, "raised")]
     else match ending
          case Done => [Promote(v), Reap]
          case RaisedInReap => [Promote(v), Fail(v, "raised")]
          case _ => [Promote(v), Reap, Fail(v, "raised")])
  }

  lemma {:induction false} PlayConcat(s: State, xs: seq<Op>, ys: seq<Op>)
    ensures Play(s, xs + ys) == Play(Play(s, xs), ys)
    decreases |xs|
  {
    if xs == [] {
      assert xs + ys == ys;
    } else {
      assert (xs + ys)[1..] == xs[1..] + ys;
      PlayConcat(Step(s, xs[0]), xs[1..], ys);
    }
  }

  lemma {:induction false} WritesOnly(s: State, v: Version, ids: seq<ChunkId>)
    ensures var t := Play(s, Writes(v, ids));
            && t.builds == s.builds && ChunksOf(t, v) == ChunksOf(s, v) + Ids(ids)
            && forall w :: w != v ==> ChunksOf(t, w) == ChunksOf(s, w)
    decreases |ids|
  {
    if ids != [] {
      assert Writes(v, ids)[1..] == Writes(v, ids[1..]);
      WritesOnly(DoWrite(s, v, ids[0]), v, ids[1..]);
      assert Ids(ids) == {ids[0]} + Ids(ids[1..]);
    }
  }

  /** The state just before promote or fail. */
  lemma Prepared(s: State, ids: seq<ChunkId>) returns (t: State)
    requires OneLive(s)
    ensures t == Play(s, [Begin] + Writes(NextVersion(s), ids)) && OneLive(t) && View(t) == View(s)
    ensures !IsLive(t, NextVersion(s)) && NextVersion(s) in t.builds
    ensures ChunksOf(t, NextVersion(s)) == Gathered(s, ids)
  {
    var v := NextVersion(s);
    var b := Step(s, Begin);
    assert ([Begin] + Writes(v, ids))[1..] == Writes(v, ids);
    WritesOnly(b, v, ids);
    t := Play(b, Writes(v, ids));
    ViewChangesOnlyAtPromote(s, Begin);
    assert LiveVersions(t) == LiveVersions(b);
    assert forall w :: w in LiveVersions(b) ==> w != v && ChunksOf(t, w) == ChunksOf(b, w);
    assert View(t) == View(b);
    OneLiveThroughout(s, [Begin] + Writes(v, ids));
  }

  /**
    From any state, a reindex leaves readers with the old build, or with the chunks it wrote
    and those that already stood under the number it got — unless something raises after
    promote has committed: then its own clean-up empties the build it has just made live, and
    readers are left with a live build of no chunks.
   */
  lemma ReindexOutcome(s: State, ids: seq<ChunkId>, ending: Ending)
    requires OneLive(s)
    ensures var v := NextVersion(s);
            View(Play(s, ReindexOps(s, ids, ending))) ==
              if ending.RaisedBeforePromote? || Gathered(s, ids) == {} then View(s)
              else if ending.Done? then {(v, Gathered(s, ids))}
              else {(v, {})}
  {
    var v := NextVersion(s);
    var t := Prepared(s, ids);
    var head := [Begin] + Writes(v, ids);
    if ending.RaisedBeforePromote? || Gathered(s, ids) == {} {
      PlayConcat(s, head, [Fail(v, "raised")]);
      PlayOne(t, Fail(v, "raised"));
      ViewChangesOnlyAtPromote(t, Fail(v, "raised"));
    } else {
      PromotionServes(t, v);
      StepKeepsOneLive(t, Promote(v));
      hide Gathered, Step;
      PromotedOutcome(s, t, head, ending);
    }
  }

  /** From promote on. */
  lemma PromotedOutcome(s: State, t: State, head: seq<Op>, ending: Ending)
    requires t == Play(s, head) && OneLive(t) && NextVersion(s) in t.builds && Promotable(t, NextVersion(s))
    requires !ending.RaisedBeforePromote?
    ensures var v := NextVersion(s);
            var tail := (match ending
                         case Done => [Promote(v), Reap]
                         case RaisedInReap => [Promote(v), Fail(v, "raised")]
                         case _ => [Promote(v), Reap, Fail(v, "raised")]);
            View(Play(s, head + tail)) == if ending.Done? then {(v, ChunksOf(t, v))} else {(v, {})}
  {
    var v := NextVersion(s);
    var u := Step(t, Promote(v));
    PromotionServes(t, v);
    StepKeepsOneLive(t, Promote(v));
    StepKeepsOneLive(u, Reap);
    ViewChangesOnlyAtPromote(u, Reap);
    match ending
    case Done =>
      PlayConcat(s, head, [Promote(v), Reap]);
      PlayTwo(t, Promote(v), Reap);
    case RaisedInReap =>
      PlayConcat(s, head, [Promote(v), Fail(v, "raised")]);
      PlayTwo(t, Promote(v), Fail(v, "raised"));
      FailingTheLiveBuild(u, v);
    case RaisedAfterReap =>
      PlayConcat(s, head, [Promote(v), Reap, Fail(v, "raised")]);
      PlayConcat(t, [Promote(v), Reap], [Fail(v, "raised")]);
      PlayTwo(t, Promote(v), Reap);
      PlayOne(Step(u, Reap), Fail(v, "raised"));
      assert [Promote(v), Reap] + [Fail(v, "raised")] == [Promote(v), Reap, Fail(v, "raised")];
      LiveUntouched(u, Reap);
      assert v in LiveVersions(Step(u, Reap));
      FailingTheLiveBuild(Step(u, Reap), v);
  }

  /** A completed reindex serves exactly what it wrote iff nothing else was left under its number; a clean state has nothing. */
  lemma ServesExactlyItsWritesIff(s: State, ids: seq<ChunkId>)
    requires OneLive(s) && Gathered(s, ids) != {}
    ensures View(Play(s, ReindexOps(s, ids, Done))) == {(NextVersion(s), Ids(ids))} <==> ChunksOf(s, NextVersion(s)) <= Ids(ids)
    ensures Clean(s) ==> ChunksOf(s, NextVersion(s)) == {}
  {
    ReindexOutcome(s, ids, Done);
    var v := NextVersion(s);
    assert {(v, Gathered(s, ids))} == {(v, Ids(ids))} <==> Gathered(s, ids) == Ids(ids) by {
      assert (v, Gathered(s, ids)) in {(v, Gathered(s, ids))};
    }
  }

  /**
    Such a number comes up: build 2 is reaped while a slow writer still holds it, its last
    chunk lands after the reap, and the next reindex gets number 2 again.
   */
  lemma StaleChunkIsServed() returns (ops: seq<Op>, s: State)
    ensures s == Play(State(map[], map[]), ops) && OneLive(s) && !NoStrayWrite(State(map[], map[]), ops)
    ensures NextVersion(s) == 2 && View(s) == {(1, {"a"})}
    ensures View(Play(s, ReindexOps(s, ["new"], Done))) == {(2, {"stale", "new"})}
  {
    var s0 := State(map[], map[]);
    ops := [Begin, Write(1, "a"), Promote(1), Begin, Reap, Write(2, "stale")];
    var s3 := FirstBuildLive();
    var s5 := AbandonedBuildReaped(s3);
    PlaySix(s0, ops);
    OneLiveThroughout(s0, ops);
    s := StaleState(s5);
    hide Play, NoStrayWrite, DoReap, ReindexOps, Gathered, View;
    ReindexOutcome(s, ["new"], Done);
  }

  lemma StaleState(was: State) returns (s: State)
    requires was == State(map[1 := FIRST], map[1 := {"a"}])
    ensures s == Step(was, Write(2, "stale")) && StrayWrite(was, Write(2, "stale"))
    ensures NextVersion(s) == 2 && View(s) == {(1, {"a"})} && Gathered(s, ["new"]) == {"stale", "new"}
  {
    s := Step(was, Write(2, "stale"));
    HighestIs(s.builds.Keys, 1);
    assert IsLive(s, 1) && ChunksOf(s, 1) == {"a"};
    ViewOf(s, 1);
    assert Ids(["new"]) == {"new"};
    assert Gathered(s, ["new"]) == {"stale", "new"};
  }

  const FIRST := Build(Live, Some(1), None)

  lemma FirstBuildLive() returns (s: State)
    ensures s == Step(Step(Step(State(map[], map[]), Begin), Write(1, "a")), Promote(1))
    ensures s == State(map[1 := FIRST], map[1 := {"a"}])
  {
    var s1 := Step(State(map[], map[]), Begin);
    assert s1 == State(map[1 := Build(Building, None, None)], map[]);
    assert ChunksOf(s1, 1) + {"a"} == {"a"};
    var s2 := Step(s1, Write(1, "a"));
    assert |ChunksOf(s2, 1)| == 1;
    s := Step(s2, Promote(1));
    assert s.builds == map[1 := FIRST];
  }

  lemma AbandonedBuildReaped(s: State) returns (t: State)
    requires s == State(map[1 := FIRST], map[1 := {"a"}])
    ensures t == Step(Step(s, Begin), Reap) && t == s
  {
    HighestIs(s.builds.Keys, 1);
    var u := Step(s, Begin);
    assert u.builds == map[1 := FIRST, 2 := Build(Building, None, None)];
    assert LiveVersions(u) == {1};
    HighestIs({1}, 1);
    assert Predecessors(u, 1) == {};
    assert u.builds.Keys - {1} == {2};
    t := Step(u, Reap);
    assert t.builds == s.builds && t.chunks == s.chunks;
  }

  lemma PlaySix(s: State, ops: seq<Op>)
    requires |ops| == 6
    ensures var t := Step(Step(Step(Step(Step(s, ops[0]), ops[1]), ops[2]), ops[3]), ops[4]);
            && Play(s, ops) == Step(t, ops[5])
            && (StrayWrite(t, ops[5]) ==> !NoStrayWrite(s, ops))
  {
    hide Step, StrayWrite;
    var s1 := Step(s, ops[0]);
    var s2 := Step(s1, ops[1]);
    var s3 := Step(s2, ops[2]);
    var s4 := Step(s3, ops[3]);
    var s5 := Step(s4, ops[4]);
    assert ops[5..][1..] == [];
    assert Play(s5, ops[5..]) == Step(s5, ops[5]) && (StrayWrite(s5, ops[5]) ==> !NoStrayWrite(s5, ops[5..]));
    UnfoldOne(s4, ops, 4);
    UnfoldOne(s3, ops, 3);
    UnfoldOne(s2, ops, 2);
    UnfoldOne(s1, ops, 1);
    UnfoldOne(s, ops, 0);
    assert ops[0..] == ops;
  }

  lemma UnfoldOne(s: State, ops: seq<Op>, n: nat)
    requires n < |ops|
    ensures Play(s, ops[n..]) == Play(Step(s, ops[n]), ops[n + 1..])
    ensures !NoStrayWrite(Step(s, ops[n]), ops[n + 1..]) ==> !NoStrayWrite(s, ops[n..])
  {
    hide Step, StrayWrite;
    assert ops[n..][1..] == ops[n + 1..];
  }

  /** fail on the version being served: the row stays live, its chunks go. */
  lemma FailingTheLiveBuild(s: State, v: Version)
    requires OneLive(s) && IsLive(s, v)
    ensures View(Step(s, Fail(v, "raised"))) == {(v, {})}
  {
    var t := Step(s, Fail(v, "raised"));
    StepKeepsOneLive(s, Fail(v, "raised"));
    assert IsLive(t, v);
    ViewOf(t, v);
  }

  lemma PlayOne(s: State, op: Op)
    ensures Play(s, [op]) == Step(s, op)
  {
    assert [op][1..] == [];
  }

  lemma PlayTwo(s: State, a: Op, b: Op)
    ensures Play(s, [a, b]) == Step(Step(s, a), b)
  {
    assert [a, b][1..] == [b];
    PlayOne(Step(s, a), b);
  }

  // ---------------------------------------------------------------- the module itself

  class CorpusBuilds {
    var builds: map<Version, Build>
    var chunks: map<Version, set<ChunkId>>

    function Model(): State
      reads this
    {
      State(builds, chunks)
    }

    ghost predicate Valid()
      reads this
    {
      OneLive(Model())
    }

    constructor ()
      ensures Valid() && Model() == State(map[], map[])
    {
      builds, chunks := map[], map[];
    }

    /** live_version_or_none */
    method LiveVersion() returns (v: Option<Version>)
      requires Valid()
      ensures v.Some? ==> View(Model()) == {(v.value, ChunksOf(Model(), v.value))}
      ensures v.None? <==> View(Model()) == {}
    {
      var live := LiveVersions(Model());
      if live == {} {
        assert View(Model()) == {};
        v := None;
      } else {
        v := Some(Highest(live));
        ViewOf(Model(), v.value);
      }
    }

    method Begin() returns (v: Version)
      requires Valid()
      modifies this
      ensures Valid() && Model() == Step(old(Model()), Op.Begin) && View(Model()) == old(View(Model()))
      ensures v !in old(builds) && v in builds && builds[v].status.Building? && forall w :: w in old(builds) ==> w < v
    {
      ViewChangesOnlyAtPromote(Model(), Op.Begin);
      StepKeepsOneLive(Model(), Op.Begin);
      v := Highest(builds.Keys) + 1;
      builds := builds[v := Build(Building, None, None)];
    }

    method WriteChunk(v: Version, id: ChunkId)
      requires Valid()
      modifies this`chunks
      ensures Valid() && Model() == Step(old(Model()), Write(v, id))
      ensures !IsLive(Model(), v) ==> View(Model()) == old(View(Model()))
    {
      ViewChangesOnlyAtPromote(Model(), Write(v, id));
      StepKeepsOneLive(Model(), Write(v, id));
      chunks := chunks[v := ChunksOf(Model(), v) + {id}];
    }

    /** False when promote raises ValueError. */
    method Promote(v: Version) returns (ok: bool)
      requires Valid()
      modifies this`builds
      ensures Valid() && Model() == Step(old(Model()), Op.Promote(v))
      ensures ok <==> ChunksOf(Model(), v) != {}
      ensures !ok ==> builds == old(builds)
      ensures ok && v in builds ==> View(Model()) == {(v, ChunksOf(Model(), v))}
    {
      PromotionServes(Model(), v);
      StepKeepsOneLive(Model(), Op.Promote(v));
      var count := |ChunksOf(Model(), v)|;
      if count == 0 {
        return false;
      }
      builds := map w | w in builds :: if builds[w].status.Live? then builds[w].(status := Superseded) else builds[w];
      if v in builds {
        builds := builds[v := builds[v].(status := Live, chunkCount := Some(count))];
      }
      ok := true;
    }

    method Fail(v: Version, error: string)
      requires Valid()
      modifies this
      ensures Valid() && Model() == Step(old(Model()), Op.Fail(v, error))
      ensures !old(IsLive(Model(), v)) ==> View(Model()) == old(View(Model()))
    {
      ViewChangesOnlyAtPromote(Model(), Op.Fail(v, error));
      StepKeepsOneLive(Model(), Op.Fail(v, error));
      chunks := chunks - {v};
      if v in builds && builds[v].status.Building? {
        builds := builds[v := builds[v].(status := Failed, error := Some(error))];
      }
    }

    /** DELETE FROM chunk, one doomed build at a time. */
    method DeleteChunks(doomed: set<Version>)
      modifies this`chunks
      ensures chunks == old(chunks) - doomed
    {
      var rest := doomed;
      while rest != {}
        invariant rest <= doomed && chunks == old(chunks) - (doomed - rest)
        decreases rest
      {
        var w :| w in rest;
        chunks := chunks - {w};
        assert doomed - (rest - {w}) == (doomed - rest) + {w};
        rest := rest - {w};
      }
      assert doomed - rest == doomed;
    }

    /** Deletes every build but the live one and its predecessor, chunks first. */
    method Reap() returns (doomed: set<Version>)
      requires Valid()
      modifies this
      ensures Valid() && Model() == Step(old(Model()), Op.Reap) && View(Model()) == old(View(Model()))
      ensures doomed == old(builds).Keys - builds.Keys
      ensures old(LiveVersions(Model())) == {} ==> doomed == {} && chunks == old(chunks)
      ensures old(LiveVersions(Model())) != {} ==> |builds.Keys| <= 2
    {
      ghost var before := Model();
      ViewChangesOnlyAtPromote(before, Op.Reap);
      StepKeepsOneLive(before, Op.Reap);
      var live := LiveVersions(Model());
      if live == {} {
        return {};
      }
      var v := Highest(live);
      BoundHolds(before, v);
      hide View, OneLive, Kept, LiveVersions, Highest;
      doomed := builds.Keys - Kept(Model(), v);
      DeleteChunks(doomed);
      builds := builds - doomed;
    }
  }

  lemma BoundHolds(s: State, v: Version)
    requires OneLive(s) && v in LiveVersions(s)
    ensures Highest(LiveVersions(s)) == v && |DoReap(s).builds.Keys| <= 2
  {
    ReapKeepsTwo(s, v);
    ViewOf(s, v);
  }
}
