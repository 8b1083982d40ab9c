/**
  The tamper-evident audit log (platform_core/observability/audit.py) of one tenant, with
  the retention purge that advances its anchor (migration 0023).

  SHA-256 over canonical JSON is taken to be injective: a digest is a term that records
  what it was computed from. A stored hash may also be anything else.
 */
module AuditChain {
  import opened Prelude

  /** What _digest covers. */
  datatype Fields = Fields(
    tenant: TenantId, actor: string, action: string, resourceType: Option<string>, resourceId: Option<string>,
    outcome: string, detail: string, at: Time)

  /** What a row also holds, outside the digest. */
  datatype Context = Context(principal: nat, request: Option<nat>, run: Option<RunId>, release: string)

  datatype Hash = Digest(fields: Fields, prev: Option<Hash>) | Forged(text: string)

  datatype Row = Row(id: nat, fields: Fields, context: Context, prev: Option<Hash>, hash: Hash)

  /** audit_chain_anchor */
  datatype Anchor = Anchor(through: nat, hash: Hash, anchored: nat)

  /** The rows in id order; `next` is the identity column, `appended` the number of events ever written. */
  datatype Chain = Chain(rows: seq<Row>, anchor: Option<Anchor>, next: nat, appended: nat)

  // ---------------------------------------------------------------- appending

  function AnchorHash(anchor: Option<Anchor>): Option<Hash> {
    if anchor.Some? then Some(anchor.value.hash) else None
  }

  /** coalesce(hash of the last row, through_hash of the anchor) */
  function Head(rows: seq<Row>, anchor: Option<Anchor>): Option<Hash> {
    if rows == [] then AnchorHash(anchor) else Some(rows[|rows| - 1].hash)
  }

  /** Other tenants may have taken `skip` ids since the last append. */
  function Append(c: Chain, fields: Fields, context: Context, skip: nat): Chain {
    var prev := Head(c.rows, c.anchor);
    c.(rows := c.rows + [Row(c.next + skip, fields, context, prev, Digest(fields, prev))],
       next := c.next + skip + 1, appended := c.appended + 1)
  }

  // ---------------------------------------------------------------- purging

  /** Rows older than the cutoff among the first n. */
  function Aged(rows: seq<Row>, cutoff: Time, n: nat): nat
    requires n <= |rows|
  {
    if n == 0 then 0 else Aged(rows, cutoff, n - 1) + (if rows[n - 1].fields.at < cutoff then 1 else 0)
  }

  /** The boundary row's place plus one: the last of the first `batch` aged rows; 0 when none is aged. */
  function Boundary(rows: seq<Row>, cutoff: Time, batch: nat, n: nat): (b: nat)
    requires n <= |rows|
    ensures b <= n
    ensures b > 0 ==> rows[b - 1].fields.at < cutoff && Aged(rows, cutoff, b) <= batch
    ensures forall i :: b <= i < n && rows[i].fields.at < cutoff ==> Aged(rows, cutoff, i + 1) > batch
  {
    if n == 0 then 0
    else if rows[n - 1].fields.at < cutoff && Aged(rows, cutoff, n) <= batch then n
    else Boundary(rows, cutoff, batch, n - 1)
  }

  /** The anchor takes the boundary's hash and counts its rank among the aged rows; everything up to it goes. */
  function Purge(c: Chain, cutoff: Time, batch: nat): Chain {
    var b := Boundary(c.rows, cutoff, batch, |c.rows|);
    if b == 0 then c
    else
      var before := if c.anchor.Some? then c.anchor.value.anchored else 0;
      c.(rows := c.rows[b..],
         anchor := Some(Anchor(c.rows[b - 1].id, c.rows[b - 1].hash, before + Aged(c.rows, cutoff, b))))
  }

  datatype Op =
    | Appending(fields: Fields, context: Context, skip: nat)
    | Purging(cutoff: Time, batch: nat)

  function Step(c: Chain, op: Op): Chain {
    match op
    case Appending(fields, context, skip) => Append(c, fields, context, skip)
    case Purging(cutoff, batch) => Purge(c, cutoff, batch)
  }

  function Play(c: Chain, ops: seq<Op>): Chain
    decreases |ops|
  {
    if ops == [] then c else Play(Step(c, ops[0]), ops[1..])
  }

  const EMPTY := Chain([], None, 0, 0)

  // ---------------------------------------------------------------- verification

  datatype Reason = BeforeAnchor | WrongPredecessor | Altered

  /** What the loop of verify_chain objects to in a row, in the order it asks. */
  function Objection(row: Row, anchor: Option<Anchor>, expected: Option<Hash>): Option<Reason> {
    if anchor.Some? && row.id <= anchor.value.through then Some(BeforeAnchor)
    else if row.prev != expected then Some(WrongPredecessor)
    else if Digest(row.fields, row.prev) != row.hash then Some(Altered)
    else None
  }

  /** Row i, given that its predecessor is what it is. */
  function ObjectionAt(rows: seq<Row>, anchor: Option<Anchor>, i: nat): Option<Reason>
    requires i < |rows|
  {
    Objection(rows[i], anchor, Head(rows[..i], anchor))
  }

  predicate Intact(rows: seq<Row>, anchor: Option<Anchor>) {
    forall i :: 0 <= i < |rows| ==> ObjectionAt(rows, anchor, i).None?
  }

  lemma IntactPrefix(rows: seq<Row>, anchor: Option<Anchor>, n: nat)
    requires n <= |rows|
    ensures Intact(rows[..n], anchor) <==> forall i :: 0 <= i < n ==> ObjectionAt(rows, anchor, i).None?
  {
    forall i | 0 <= i < n ensures ObjectionAt(rows[..n], anchor, i) == ObjectionAt(rows, anchor, i) {
      assert rows[..n][..i] == rows[..i];
    }
  }

  // ---------------------------------------------------------------- honest chains verify

  predicate IdsAscend(c: Chain) {
    && (forall i :: 0 <= i < |c.rows| ==> c.rows[i].id < c.next)
    && (forall i, j :: 0 <= i < j < |c.rows| ==> c.rows[i].id < c.rows[j].id)
    && (c.anchor.Some? ==> c.anchor.value.through < c.next)
  }

  predicate Honest(c: Chain) {
    IdsAscend(c) && Intact(c.rows, c.anchor)
  }

  lemma AppendKeepsHonest(c: Chain, fields: Fields, context: Context, skip: nat)
    requires Honest(c)
    ensures Honest(Append(c, fields, context, skip))
  {
    var d := Append(c, fields, context, skip);
    var n := |c.rows|;
    assert d.rows[..n] == c.rows;
    forall i | 0 <= i < |d.rows| ensures ObjectionAt(d.rows, d.anchor, i).None? {
      if i < n {
        assert d.rows[..i] == c.rows[..i] && ObjectionAt(c.rows, c.anchor, i).None?;
      }
    }
  }

  lemma PurgeKeepsHonest(c: Chain, cutoff: Time, batch: nat)
    requires Honest(c)
    ensures Honest(Purge(c, cutoff, batch))
  {
    var d := Purge(c, cutoff, batch);
    var b := Boundary(c.rows, cutoff, batch, |c.rows|);
    if b > 0 {
      forall i | 0 <= i < |d.rows| ensures ObjectionAt(d.rows, d.anchor, i).None? {
        assert ObjectionAt(c.rows, c.anchor, b + i).None?;
        assert Head(d.rows[..i], d.anchor) == Head(c.rows[..b + i], c.anchor);
      }
    }
  }

  /** Any interleaving of appends, by either path, and purges verifies as intact. */
  lemma {:induction false} HonestChainsVerify(c: Chain, ops: seq<Op>)
    requires Honest(c)
    ensures Honest(Play(c, ops))
    decreases |ops|
  {
    if ops != [] {
      match ops[0] {
        case Appending(fields, context, skip) => AppendKeepsHonest(c, fields, context, skip);
        case Purging(cutoff, batch) => PurgeKeepsHonest(c, cutoff, batch);
      }
      HonestChainsVerify(Step(c, ops[0]), ops[1..]);
    }
  }

  // ---------------------------------------------------------------- what the anchor counts

  function Accounted(c: Chain): nat {
    (if c.anchor.Some? then c.anchor.value.anchored else 0) + |c.rows|
  }

  /** A purge removes only rows older than its cutoff. */
  predicate CleanPurge(c: Chain, op: Op) {
    op.Purging? ==>
      forall i :: 0 <= i < Boundary(c.rows, op.cutoff, op.batch, |c.rows|) ==> c.rows[i].fields.at < op.cutoff
  }

  predicate CleanPurges(c: Chain, ops: seq<Op>)
    decreases |ops|
  {
    ops != [] ==> CleanPurge(c, ops[0]) && CleanPurges(Step(c, ops[0]), ops[1..])
  }

  lemma {:induction false} AgedCounts(rows: seq<Row>, cutoff: Time, n: nat)
    requires n <= |rows|
    ensures Aged(rows, cutoff, n) <= n
    ensures Aged(rows, cutoff, n) == n <==> forall i :: 0 <= i < n ==> rows[i].fields.at < cutoff
    decreases n
  {
    if n > 0 {
      AgedCounts(rows, cutoff, n - 1);
    }
  }

  lemma StepAccounts(c: Chain, op: Op)
    ensures Step(c, op).appended - Accounted(Step(c, op)) >= c.appended - Accounted(c)
    ensures Step(c, op).appended - Accounted(Step(c, op)) == c.appended - Accounted(c) <==> CleanPurge(c, op)
  {
    if op.Purging? {
      AgedCounts(c.rows, op.cutoff, Boundary(c.rows, op.cutoff, op.batch, |c.rows|));
    }
  }

  lemma {:induction false} ShortfallNeverShrinks(c: Chain, ops: seq<Op>)
    ensures Play(c, ops).appended - Accounted(Play(c, ops)) >= c.appended - Accounted(c)
    decreases |ops|
  {
    if ops != [] {
      StepAccounts(c, ops[0]);
      ShortfallNeverShrinks(Step(c, ops[0]), ops[1..]);
    }
  }

  /**
    events_anchored plus the remaining rows never exceed the events appended, and equal them
    exactly when no purge swept up a row younger than its cutoff. (`at` is the transaction's
    start, so a row with a later id may be older than one with an earlier id.)
   */
  lemma {:induction false} AccountedIff(c: Chain, ops: seq<Op>)
    requires Accounted(c) == c.appended
    ensures Accounted(Play(c, ops)) <= Play(c, ops).appended
    ensures Accounted(Play(c, ops)) == Play(c, ops).appended <==> CleanPurges(c, ops)
    decreases |ops|
  {
    ShortfallNeverShrinks(c, ops);
    if ops != [] {
      StepAccounts(c, ops[0]);
      if CleanPurge(c, ops[0]) {
        AccountedIff(Step(c, ops[0]), ops[1..]);
      } else {
        ShortfallNeverShrinks(Step(c, ops[0]), ops[1..]);
      }
    }
  }

  /** Timestamps follow ids, as they do when appending transactions do not overlap. */
  predicate TimesAscend(rows: seq<Row>) {
    forall i, j :: 0 <= i < j < |rows| ==> rows[i].fields.at <= rows[j].fields.at
  }

  predicate InOrder(c: Chain, ops: seq<Op>)
    decreases |ops|
  {
    ops != [] ==>
      && (ops[0].Appending? && c.rows != [] ==> c.rows[|c.rows| - 1].fields.at <= ops[0].fields.at)
      && InOrder(Step(c, ops[0]), ops[1..])
  }

  lemma {:induction false} OrderedAppendsAreAccounted(c: Chain, ops: seq<Op>)
    requires TimesAscend(c.rows) && InOrder(c, ops)
    ensures CleanPurges(c, ops)
    decreases |ops|
  {
    if ops != [] {
      OrderedAppendsAreAccounted(Step(c, ops[0]), ops[1..]);
    }
  }

  /** Two overlapping transactions: the younger row is purged with the older one and never counted. */
  lemma OverlapMiscounts(young: Fields, old_: Fields, context: Context)
    requires old_.at < young.at
    ensures var c := Play(EMPTY, [Appending(young, context, 0), Appending(old_, context, 0), Purging(young.at, 100)]);
            c.appended == 2 && c.rows == [] && c.anchor.Some? && c.anchor.value.anchored == 1
  {
    var a, b, p := Appending(young, context, 0), Appending(old_, context, 0), Purging(young.at, 100);
    var c := Step(Step(EMPTY, a), b);
    assert [a, b, p][1..] == [b, p] && [b, p][1..] == [p] && [p][1..] == [];
    assert Aged(c.rows, young.at, 0) == 0 && Aged(c.rows, young.at, 1) == 0 && Aged(c.rows, young.at, 2) == 1;
    assert Boundary(c.rows, young.at, 100, 2) == 2;
    assert Play(c, [p]) == Step(c, p);
    assert Play(Step(EMPTY, a), [b, p]) == Step(c, p);
  }

  // ---------------------------------------------------------------- what tampering shows

  /** How many links lie under a hash. */
  function Depth(h: Option<Hash>): nat {
    match h
    case None => 0
    case Some(Forged(_)) => 1
    case Some(Digest(_, prev)) => Depth(prev) + 1
  }

  /** Each intact row sits strictly deeper than everything before it, so no hash ever recurs. */
  lemma {:induction false} ChainDeepens(rows: seq<Row>, anchor: Option<Anchor>)
    requires Intact(rows, anchor)
    ensures Depth(Head(rows, anchor)) == Depth(AnchorHash(anchor)) + |rows|
    decreases |rows|
  {
    if rows != [] {
      var n := |rows| - 1;
      assert ObjectionAt(rows, anchor, n).None?;
      IntactPrefix(rows, anchor, n);
      ChainDeepens(rows[..n], anchor);
    }
  }

  /** In an intact log no two rows have the same hash, and none has the anchor's. */
  lemma NoHashRecurs(rows: seq<Row>, anchor: Option<Anchor>, i: nat, j: nat)
    requires Intact(rows, anchor) && i < j < |rows|
    ensures rows[i].hash != rows[j].hash && AnchorHash(anchor) != Some(rows[j].hash)
  {
    IntactPrefix(rows, anchor, i + 1);
    IntactPrefix(rows, anchor, j + 1);
    ChainDeepens(rows[..i + 1], anchor);
    ChainDeepens(rows[..j + 1], anchor);
    assert Head(rows[..i + 1], anchor) == Some(rows[i].hash) && Head(rows[..j + 1], anchor) == Some(rows[j].hash);
  }

  /**
    verify_chain reads the anchor and the rows in two statements. If one operation commits in
    between, an honest log still reads as intact unless that operation is a purge that moved
    the anchor and left rows behind.
   */
  lemma TornReadIff(c: Chain, op: Op)
    requires Honest(c)
    ensures var d := Step(c, op);
            Intact(d.rows, c.anchor) <==> !(op.Purging? && d != c && d.rows != [])
  {
    match op
    case Appending(fields, context, skip) => AppendKeepsHonest(c, fields, context, skip);
    case Purging(cutoff, batch) =>
      var d := Purge(c, cutoff, batch);
      var b := Boundary(c.rows, cutoff, batch, |c.rows|);
      if b > 0 && d.rows != [] {
        assert ObjectionAt(c.rows, c.anchor, b).None?;
        assert d.rows[0] == c.rows[b] && c.rows[..b] != [];
        assert d.rows[0].prev == Some(c.rows[b - 1].hash);
        IntactPrefix(c.rows, c.anchor, b);
        ChainDeepens(c.rows[..b], c.anchor);
        assert Head(d.rows[..0], c.anchor) == AnchorHash(c.anchor);
        assert ObjectionAt(d.rows, c.anchor, 0).Some?;
      }
  }

  predicate SameDigested(a: seq<Row>, b: seq<Row>) {
    |a| == |b| && forall i :: 0 <= i < |a| ==>
      a[i].fields == b[i].fields && a[i].prev == b[i].prev && a[i].hash == b[i].hash
  }

  predicate AfterAnchor(rows: seq<Row>, anchor: Option<Anchor>) {
    anchor.Some? ==> forall i :: 0 <= i < |rows| ==> rows[i].id > anchor.value.through
  }

  lemma {:induction false} SameHeadSameRows(a: seq<Row>, b: seq<Row>, anchor: Option<Anchor>)
    requires Intact(a, anchor) && Intact(b, anchor) && Head(a, anchor) == Head(b, anchor)
    ensures SameDigested(a, b)
    decreases |a|
  {
    ChainDeepens(a, anchor);
    ChainDeepens(b, anchor);
    if a != [] {
      var n := |a| - 1;
      assert ObjectionAt(a, anchor, n).None? && ObjectionAt(b, anchor, n).None?;
      IntactPrefix(a, anchor, n);
      IntactPrefix(b, anchor, n);
      SameHeadSameRows(a[..n], b[..n], anchor);
      assert forall i :: 0 <= i < n ==> a[..n][i] == a[i] && b[..n][i] == b[i];
    }
  }

  /**
    Exactly what verification proves. Given an intact log, any other sequence of rows that
    ends in the same hash verifies if and only if it has the same number of rows, agrees
    with the log on every digested field of every row, and keeps its ids past the anchor.
   */
  lemma TamperingShowsIff(log: seq<Row>, rows: seq<Row>, anchor: Option<Anchor>)
    requires Intact(log, anchor) && Head(log, anchor) == Head(rows, anchor)
    ensures Intact(rows, anchor) <==> SameDigested(log, rows) && AfterAnchor(rows, anchor)
  {
    if Intact(rows, anchor) {
      SameHeadSameRows(log, rows, anchor);
      forall i | 0 <= i < |rows| ensures anchor.Some? ==> rows[i].id > anchor.value.through {
        assert ObjectionAt(rows, anchor, i).None?;
      }
    }
    if SameDigested(log, rows) && AfterAnchor(rows, anchor) {
      forall i | 0 <= i < |rows| ensures ObjectionAt(rows, anchor, i).None? {
        assert ObjectionAt(log, anchor, i).None?;
        assert Head(rows[..i], anchor) == Head(log[..i], anchor);
      }
    }
  }

  /** What it does not prove: rows cut from the end leave an intact log with another head. */
  lemma TruncationIsSilent(rows: seq<Row>, anchor: Option<Anchor>, n: nat)
    requires Intact(rows, anchor) && n < |rows|
    ensures Intact(rows[..n], anchor) && Head(rows[..n], anchor) != Head(rows, anchor)
  {
    IntactPrefix(rows, anchor, n);
    ChainDeepens(rows, anchor);
    ChainDeepens(rows[..n], anchor);
  }

  // ---------------------------------------------------------------- the log itself

  datatype Report = Report(checked: nat, intact: bool, firstBreak: Option<nat>, reason: Option<Reason>,
                           anchorId: Option<nat>, anchored: nat)

  datatype Recorded = Written(hash: Hash) | Dropped | Unavailable

  class AuditLog {
    const tenant: TenantId
    var rows: seq<Row>
    var anchor: Option<Anchor>
    var next: nat
    ghost var history: seq<Op>

    ghost function Model(): Chain
      reads this
    {
      Play(EMPTY, history)
    }

    ghost predicate Valid()
      reads this
    {
      rows == Model().rows && anchor == Model().anchor && next == Model().next
    }

    constructor (tenant: TenantId)
      ensures Valid() && history == [] && this.tenant == tenant
    {
      this.tenant := tenant;
      rows, anchor, next := [], None, 0;
      history := [];
    }

    /** append_in_session: refused without an actor, or outside the tenant's own transaction scope. */
    method AppendInSession(actor: bool, scope: Option<TenantId>, fields: Fields, context: Context, skip: nat) returns (r: Recorded)
      requires Valid() && fields.tenant == tenant
      modifies this
      ensures Valid()
      ensures r.Unavailable? <==> !actor || scope != Some(tenant)
      ensures !r.Unavailable? ==> r.Written? && rows != [] && rows[|rows| - 1].hash == r.hash
      ensures history == if r.Written? then old(history) + [Appending(fields, context, skip)] else old(history)
      ensures |rows| == |old(rows)| + (if r.Written? then 1 else 0) && old(rows) <= rows
    {
      if !actor || scope != Some(tenant) {
        return Unavailable;
      }
      PlayOneMore(EMPTY, history, Appending(fields, context, skip));
      var prev := if rows == [] then (if anchor.Some? then Some(anchor.value.hash) else None)
                  else Some(rows[|rows| - 1].hash);
      var digest := Digest(fields, prev);
      rows := rows + [Row(next + skip, fields, context, prev, digest)];
      next := next + skip + 1;
      history := history + [Appending(fields, context, skip)];
      r := Written(digest);
    }

    /** record: its own transaction; only a required event may fail the caller, for want of an actor or of the database. */
    method Record(actor: bool, reachable: bool, required: bool, fields: Fields, context: Context, skip: nat) returns (r: Recorded)
      requires Valid() && fields.tenant == tenant
      modifies this
      ensures Valid()
      ensures r.Written? <==> actor && reachable
      ensures r.Unavailable? <==> !(actor && reachable) && required
      ensures !r.Written? ==> rows == old(rows) && history == old(history)
      ensures r.Written? ==> history == old(history) + [Appending(fields, context, skip)]
    {
      if actor && reachable {
        r := AppendInSession(actor, Some(tenant), fields, context, skip);
      } else {
        r := if required then Unavailable else Dropped;
      }
    }

    /** The audit part of platform_enforce_retention. */
    method EnforceRetention(cutoff: Time, batch: nat) returns (removed: nat)
      requires Valid()
      modifies this
      ensures Valid() && history == old(history) + [Purging(cutoff, batch)]
      ensures removed <= |old(rows)| && rows == old(rows)[removed..]
      ensures removed > 0 ==> anchor.Some? && Head(rows, anchor) == Head(old(rows), old(anchor))
    {
      PlayOneMore(EMPTY, history, Purging(cutoff, batch));
      removed := Boundary(rows, cutoff, batch, |rows|);
      if removed > 0 {
        var already := if anchor.Some? then anchor.value.anchored else 0;
        anchor := Some(Anchor(rows[removed - 1].id, rows[removed - 1].hash, already + Aged(rows, cutoff, removed)));
        rows := rows[removed..];
      }
      history := history + [Purging(cutoff, batch)];
    }

    /** verify_chain on whatever the tables hold: the first row it objects to, and why. */
    method VerifyChain() returns (report: Report)
      ensures report.checked == |rows| && report.anchored == (if anchor.Some? then anchor.value.anchored else 0)
      ensures report.intact <==> Intact(rows, anchor)
      ensures report.intact ==> report.firstBreak.None? && report.reason.None?
      ensures !report.intact ==>
                exists i :: 0 <= i < |rows| && Intact(rows[..i], anchor)
                  && ObjectionAt(rows, anchor, i).Some? && report.reason == ObjectionAt(rows, anchor, i)
                  && report.firstBreak == Some(rows[i].id)
      ensures Valid() ==> report.intact
    {
      if Valid() {
        HonestChainsVerify(EMPTY, history);
      }
      var expected := if anchor.Some? then Some(anchor.value.hash) else None;
      var anchorId := if anchor.Some? then Some(anchor.value.through) else None;
      var anchored := if anchor.Some? then anchor.value.anchored else 0;
      for i := 0 to |rows|
        invariant expected == Head(rows[..i], anchor)
        invariant forall j :: 0 <= j < i ==> ObjectionAt(rows, anchor, j).None?
      {
        IntactPrefix(rows, anchor, i);
        assert rows[..i + 1][..i] == rows[..i];
        var row := rows[i];
        ghost var objection := ObjectionAt(rows, anchor, i);
        if anchorId.Some? && row.id <= anchorId.value {
          return Report(|rows|, false, Some(row.id), Some(BeforeAnchor), anchorId, anchored);
        }
        if row.prev != expected {
          return Report(|rows|, false, Some(row.id), Some(WrongPredecessor), anchorId, anchored);
        }
        if Digest(row.fields, row.prev) != row.hash {
          return Report(|rows|, false, Some(row.id), Some(Altered), anchorId, anchored);
        }
        expected := Some(row.hash);
      }
      assert rows[..|rows|] == rows;
      report := Report(|rows|, true, None, None, anchorId, anchored);
    }
  }

  lemma {:induction false} PlayConcat(c: Chain, xs: seq<Op>, ys: seq<Op>)
    ensures Play(c, xs + ys) == Play(Play(c, xs), ys)
    decreases |xs|
  {
    if xs == [] {
      assert xs + ys == ys;
    } else {
      assert (xs + ys)[1..] == xs[1..] + ys;
      PlayConcat(Step(c, xs[0]), xs[1..], ys);
    }
  }

  lemma PlayOneMore(c: Chain, ops: seq<Op>, op: Op)
    ensures Play(c, ops + [op]) == Step(Play(c, ops), op)
  {
    PlayConcat(c, ops, [op]);
    assert [op][1..] == [];
  }
}
